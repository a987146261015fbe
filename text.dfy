/**
 * String helpers that the Python standard library provides to the collector:
 * `sep.join(parts)`, `str.lower()` and `str(int)`.
 */
module Text {

  /** `sep.join(parts)`: the parts in order with `sep` between neighbours. */
  function Join(sep: string, parts: seq<string>): (r: string)
    ensures |parts| == 0 ==> r == ""
    ensures |parts| == 1 ==> r == parts[0]
    decreases |parts|
  {
    if |parts| == 0 then ""
    else if |parts| == 1 then parts[0]
    else parts[0] + sep + Join(sep, parts[1..])
  }

  /** A join of n > 0 parts starts with the first part and ends with the last. */
  lemma {:induction false} JoinEnds(sep: string, parts: seq<string>)
    requires |parts| > 0
    ensures parts[0] <= Join(sep, parts)
    ensures var r := Join(sep, parts);
            var last := parts[|parts| - 1];
            |last| <= |r| && r[|r| - |last|..] == last
    decreases |parts|
  {
    if |parts| > 1 {
      JoinEnds(sep, parts[1..]);
      var rest := Join(sep, parts[1..]);
      var last := parts[|parts| - 1];
      assert parts[1..][|parts| - 2] == last;
      var r := parts[0] + sep + rest;
      assert r[|r| - |last|..] == rest[|rest| - |last|..];
    }
  }

  /** Number of occurrences of `c` in `s`. */
  function Count(c: char, s: string): nat
    decreases |s|
  {
    if |s| == 0 then 0 else (if s[0] == c then 1 else 0) + Count(c, s[1..])
  }

  lemma {:induction false} CountAppend(c: char, s: string, t: string)
    ensures Count(c, s + t) == Count(c, s) + Count(c, t)
    decreases |s|
  {
    if |s| == 0 {
      assert s + t == t;
    } else {
      assert (s + t)[1..] == s[1..] + t;
      CountAppend(c, s[1..], t);
    }
  }

  /** Total number of occurrences of `c` in all the parts. */
  function CountAll(c: char, parts: seq<string>): nat
    decreases |parts|
  {
    if |parts| == 0 then 0 else Count(c, parts[0]) + CountAll(c, parts[1..])
  }

  /**
   * Every occurrence of `c` in a join comes from a part or from one of the
   * `|parts| - 1` separators.
   */
  lemma {:induction false} JoinCount(c: char, sep: string, parts: seq<string>)
    requires |parts| > 0
    ensures Count(c, Join(sep, parts)) == CountAll(c, parts) + (|parts| - 1) * Count(c, sep)
    decreases |parts|
  {
    if |parts| > 1 {
      JoinCount(c, sep, parts[1..]);
      CountAppend(c, parts[0], sep);
      CountAppend(c, parts[0] + sep, Join(sep, parts[1..]));
    }
  }

  lemma {:induction false} CountAllZero(c: char, parts: seq<string>)
    requires forall i :: 0 <= i < |parts| ==> Count(c, parts[i]) == 0
    ensures CountAll(c, parts) == 0
    decreases |parts|
  {
    if |parts| > 0 {
      CountAllZero(c, parts[1..]);
    }
  }

  /**
   * When no part contains a bar, the `" | "` join of n parts contains exactly
   * n - 1 bars (and none when there are no parts).
   */
  lemma {:induction false} BarJoinSeparators(parts: seq<string>)
    requires forall i :: 0 <= i < |parts| ==> Count('|', parts[i]) == 0
    ensures Count('|', Join(" | ", parts)) == if |parts| == 0 then 0 else |parts| - 1
  {
    if |parts| > 0 {
      JoinCount('|', " | ", parts);
      CountAllZero('|', parts);
      assert Count('|', " | ") == 1 by {
        assert " | "[1..] == "| " && "| "[1..] == " " && " "[1..] == "";
      }
    }
  }

  /** ASCII case folding, as `str.lower()` does for ASCII letters. */
  function LowerChar(c: char): char {
    if 'A' <= c <= 'Z' then (c as int + 32) as char else c
  }

  /** `s.lower()` on ASCII text. */
  function Lower(s: string): (r: string)
    ensures |r| == |s|
    ensures forall i :: 0 <= i < |r| ==> !('A' <= r[i] <= 'Z')
    ensures forall i :: 0 <= i < |r| ==> !('A' <= s[i] <= 'Z') ==> r[i] == s[i]
    ensures forall i :: 0 <= i < |s| && 'A' <= s[i] <= 'Z' ==> r[i] == (s[i] as int + 32) as char
  {
    seq(|s|, i requires 0 <= i < |s| => LowerChar(s[i]))
  }

  predicate IsDigit(c: char) {
    '0' <= c <= '9'
  }

  function DigitChar(d: nat): (c: char)
    requires d < 10
    ensures IsDigit(c) && c as int - '0' as int == d
  {
    ('0' as int + d) as char
  }

  /** Decimal digits of `n` without leading zeros, as `str(n)` prints them. */
  function NatToString(n: nat): (s: string)
    ensures |s| > 0
    ensures forall i :: 0 <= i < |s| ==> IsDigit(s[i])
    ensures |s| > 1 ==> s[0] != '0'
    decreases n
  {
    if n < 10 then [DigitChar(n)] else NatToString(n / 10) + [DigitChar(n % 10)]
  }

  /** Decimal digits without leading zeros: the only form `str(n)` prints for `n >= 0`. */
  predicate IsDecimal(s: string) {
    |s| > 0 && (forall i :: 0 <= i < |s| ==> IsDigit(s[i])) && (|s| > 1 ==> s[0] != '0')
  }

  /** The canonical text of an integer: a decimal, preceded by `-` exactly when it is negative. */
  predicate IsIntText(s: string) {
    if |s| > 0 && s[0] == '-' then IsDecimal(s[1..]) && s[1..] != "0" else IsDecimal(s)
  }

  /** `str(i)` for a Python integer. */
  function IntToString(i: int): (r: string)
    ensures IsIntText(r)
    ensures |r| > 0 && (i < 0 <==> r[0] == '-')
  {
    if i < 0 then
      var digits := NatToString(-i);
      assert digits != "0" by {
        if -i >= 10 { assert |NatToString(-i / 10)| > 0; }
      }
      assert ("-" + digits)[1..] == digits;
      "-" + digits
    else NatToString(i)
  }

  function DigitValue(c: char): nat
    requires IsDigit(c)
  {
    c as int - '0' as int
  }

  /** The value of a string of decimal digits (the reference reading of `str`). */
  function DigitsValue(s: string): nat
    requires forall i :: 0 <= i < |s| ==> IsDigit(s[i])
    decreases |s|
  {
    if |s| == 0 then 0
    else DigitsValue(s[..|s| - 1]) * 10 + DigitValue(s[|s| - 1])
  }

  /** `int(s)` for an optional minus sign followed by decimal digits. */
  function ParseInt(s: string): int {
    if |s| > 0 && s[0] == '-' then
      if forall i :: 1 <= i < |s| ==> IsDigit(s[i]) then 0 - DigitsValue(s[1..]) as int else 0
    else if forall i :: 0 <= i < |s| ==> IsDigit(s[i]) then DigitsValue(s)
    else 0
  }

  lemma {:induction false} NatToStringRoundTrip(n: nat)
    ensures DigitsValue(NatToString(n)) == n
    decreases n
  {
    if n >= 10 {
      var s := NatToString(n);
      assert s[..|s| - 1] == NatToString(n / 10);
      NatToStringRoundTrip(n / 10);
    }
  }

  /** A decimal is the printed form of its own value. */
  lemma {:induction false} DecimalIsPrinted(s: string)
    requires IsDecimal(s)
    ensures s == NatToString(DigitsValue(s))
    decreases |s|
  {
    if |s| > 1 {
      var p := s[..|s| - 1];
      assert p[0] == s[0];
      DecimalIsPrinted(p);
      assert NatToString(0) == "0" && p != "0";
      assert DigitsValue(p) != 0;
      var n := DigitsValue(s);
      assert n / 10 == DigitsValue(p) && n % 10 == DigitValue(s[|s| - 1]);
      assert s == p + [s[|s| - 1]];
    }
  }

  /**
   * The canonical text of an integer is unique: any text of that form is
   * exactly what `str` prints for the integer it reads back as.
   */
  lemma IntTextIsPrinted(s: string)
    requires IsIntText(s)
    ensures s == IntToString(ParseInt(s))
  {
    if |s| > 0 && s[0] == '-' {
      var tail := s[1..];
      DecimalIsPrinted(tail);
      assert DigitsValue(tail) != 0;
      assert s == "-" + tail;
    } else {
      DecimalIsPrinted(s);
    }
  }

  /** Reading back what `str(i)` printed gives `i`. */
  lemma IntToStringRoundTrip(i: int)
    ensures ParseInt(IntToString(i)) == i
  {
    if i < 0 {
      var s := IntToString(i);
      assert s[1..] == NatToString(-i);
      NatToStringRoundTrip(-i);
    } else {
      NatToStringRoundTrip(i);
    }
  }
}
