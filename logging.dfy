/**
 * The structured logger the collector writes to, reduced to what the
 * collector hands it: one entry per `transaction_event` or `message` call, in
 * order. Each start event is given a fresh correlation handle; end events and
 * messages name the handle they belong to.
 */
module Logging {
  import opened Wrappers
  import opened Json

  datatype EventType = TransactionStart | TransactionEnd | SpanStart | SpanEnd

  datatype LogEntry =
    | Event(kind: EventType, handle: nat, parent: Option<nat>, component: string,
            payload: Json, returnCode: Option<int>)
    | Message(text: string, handle: nat)

  /** An entry that belongs to a span (or is a diagnostic message), never to a transaction boundary. */
  predicate SpanEntry(e: LogEntry) {
    e.Message? || e.kind == SpanStart || e.kind == SpanEnd
  }

  predicate SpanEntries(es: seq<LogEntry>) {
    forall i :: 0 <= i < |es| ==> SpanEntry(es[i])
  }

  lemma SpanEntriesAppend(a: seq<LogEntry>, b: seq<LogEntry>)
    requires SpanEntries(a) && SpanEntries(b)
    ensures SpanEntries(a + b)
  {
    assert forall i :: |a| <= i < |a + b| ==> (a + b)[i] == b[i - |a|];
  }

  /** `after` extends `before` with span entries only. */
  predicate SpansAdded(before: seq<LogEntry>, after: seq<LogEntry>) {
    |before| <= |after| && after[..|before|] == before && SpanEntries(after[|before|..])
  }

  /** What was logged before stays in place. */
  lemma SpansAddedKeeps(before: seq<LogEntry>, after: seq<LogEntry>, i: nat)
    requires SpansAdded(before, after) && i < |before|
    ensures after[i] == before[i]
  {
    assert after[..|before|][i] == after[i];
  }

  lemma SpansAddedTrans(a: seq<LogEntry>, b: seq<LogEntry>, c: seq<LogEntry>)
    requires SpansAdded(a, b) && SpansAdded(b, c)
    ensures SpansAdded(a, c)
  {
    assert c[..|a|] == b[..|a|];
    assert c[|a|..] == b[|a|..] + c[|b|..];
    SpanEntriesAppend(b[|a|..], c[|b|..]);
  }

  lemma SpansAddedAppend(a: seq<LogEntry>, b: seq<LogEntry>, extra: seq<LogEntry>)
    requires SpansAdded(a, b) && SpanEntries(extra)
    ensures SpansAdded(a, b + extra)
  {
    assert (b + extra)[..|a|] == b[..|a|];
    assert (b + extra)[|a|..] == b[|a|..] + extra;
    SpanEntriesAppend(b[|a|..], extra);
  }

  lemma SpansAddedBy(before: seq<LogEntry>, extra: seq<LogEntry>)
    requires SpanEntries(extra)
    ensures SpansAdded(before, before + extra)
  {
    assert (before + extra)[..|before|] == before;
    assert (before + extra)[|before|..] == extra;
  }

  lemma SpansAddedNone(a: seq<LogEntry>)
    ensures SpansAdded(a, a)
  {
    assert a[..|a|] == a;
  }

  /** Number of entries of the given event kind. */
  function CountKind(es: seq<LogEntry>, kind: EventType): nat
    decreases |es|
  {
    if |es| == 0 then 0
    else (if es[0].Event? && es[0].kind == kind then 1 else 0) + CountKind(es[1..], kind)
  }

  /** Span entries contain no transaction boundary. */
  lemma {:induction false} SpanEntriesHaveNoTransactions(es: seq<LogEntry>)
    requires SpanEntries(es)
    ensures CountKind(es, TransactionStart) == 0 && CountKind(es, TransactionEnd) == 0
    decreases |es|
  {
    if |es| > 0 {
      assert SpanEntry(es[0]);
      SpanEntriesHaveNoTransactions(es[1..]);
    }
  }

  lemma {:induction false} CountKindAppend(a: seq<LogEntry>, b: seq<LogEntry>, kind: EventType)
    ensures CountKind(a + b, kind) == CountKind(a, kind) + CountKind(b, kind)
    decreases |a|
  {
    if |a| == 0 {
      assert a + b == b;
    } else {
      assert (a + b)[1..] == a[1..] + b;
      CountKindAppend(a[1..], b, kind);
    }
  }

  /**
   * `after` is `before` followed by one transaction: its `start` entry, then
   * span entries only, then (when `closed`) one final entry.
   */
  predicate Transaction(before: seq<LogEntry>, after: seq<LogEntry>, start: LogEntry, closed: bool) {
    |before| < |after| && after[|before|] == start &&
    SpansAdded(before + [start], if closed then after[..|after| - 1] else after)
  }

  lemma TransactionOf(before: seq<LogEntry>, start: LogEntry, after: seq<LogEntry>, closed: bool)
    requires closed ==> |after| > 0
    requires SpansAdded(before + [start], if closed then after[..|after| - 1] else after)
    ensures Transaction(before, after, start, closed)
  {
    var body := if closed then after[..|after| - 1] else after;
    SpansAddedKeeps(before + [start], body, |before|);
  }

  /**
   * A transaction whose first entry is a `TRANSACTION_START` and whose last,
   * when it is closed, is a `TRANSACTION_END` holds exactly one of the first
   * and exactly one of the second (none when it is not closed).
   */
  lemma TransactionBoundaries(before: seq<LogEntry>, after: seq<LogEntry>, start: LogEntry, closed: bool)
    requires Transaction(before, after, start, closed)
    requires start.Event? && start.kind == TransactionStart
    requires closed ==> after[|after| - 1].Event? && after[|after| - 1].kind == TransactionEnd
    ensures CountKind(after[|before|..], TransactionStart) == 1
    ensures CountKind(after[|before|..], TransactionEnd) == if closed then 1 else 0
  {
    var body := if closed then after[..|after| - 1] else after;
    var middle := body[|before| + 1..];
    SpanEntriesHaveNoTransactions(middle);
    assert [start][1..] == [];
    if closed {
      var last := after[|after| - 1];
      assert [last][1..] == [];
      assert after[|before|..] == [start] + middle + [last];
      CountKindAppend([start] + middle, [last], TransactionStart);
      CountKindAppend([start] + middle, [last], TransactionEnd);
    } else {
      assert after[|before|..] == [start] + middle;
    }
    CountKindAppend([start], middle, TransactionStart);
    CountKindAppend([start], middle, TransactionEnd);
  }

  class Logger {
    /** The number of handles given out so far; the next start event gets this one. */
    var issued: nat
    ghost var events: seq<LogEntry>

    constructor ()
      ensures issued == 0 && events == []
    {
      issued := 0;
      events := [];
    }

    /** A start event (`TRANSACTION_START` or `SPAN_START`); returns its fresh handle. */
    method Start(kind: EventType, parent: Option<nat>, component: string, payload: Json)
      returns (handle: nat)
      modifies this
      ensures handle == old(issued) && issued == old(issued) + 1
      ensures events == old(events) + [Event(kind, handle, parent, component, payload, None)]
    {
      handle := issued;
      issued := issued + 1;
      events := events + [Event(kind, handle, parent, component, payload, None)];
    }

    /** An end event (`TRANSACTION_END` or `SPAN_END`) for an earlier start. */
    method End(kind: EventType, handle: nat, payload: Json, returnCode: int)
      modifies this
      ensures issued == old(issued)
      ensures events == old(events) + [Event(kind, handle, None, "", payload, Some(returnCode))]
    {
      events := events + [Event(kind, handle, None, "", payload, Some(returnCode))];
    }

    /** `logger.message(...)`: the exception, stack trace and diagnostic data are not recorded. */
    method Note(text: string, handle: nat)
      modifies this
      ensures issued == old(issued)
      ensures events == old(events) + [Message(text, handle)]
    {
      events := events + [Message(text, handle)];
    }
  }
}
