/**
 * The control arithmetic of `Enphase.process`: the UTC-midnight filter and the
 * running worst status over the four stages, each stage attempted only while
 * every earlier one left the running status at 200.
 */
module Stages {

  const SecondsPerDay := 86400
  const Success := 200

  /** UTC midnight of the day containing `now` (epoch seconds). */
  function MidnightUtc(now: int): (m: int)
    ensures m % SecondsPerDay == 0
    ensures m <= now < m + SecondsPerDay
  {
    now - now % SecondsPerDay
  }

  /** Midnight is the only day boundary within a day before `now`. */
  lemma MidnightUnique(now: int, m: int)
    requires m % SecondsPerDay == 0 && m <= now < m + SecondsPerDay
    ensures m == MidnightUtc(now)
  {
    var k := m / SecondsPerDay;
    assert m == k * SecondsPerDay;
    var q := now / SecondsPerDay;
    assert now == q * SecondsPerDay + now % SecondsPerDay;
  }

  function Max(a: int, b: int): int {
    if a >= b then a else b
  }

  /** The running maximum of `codes`, starting from `start`. */
  function MaxFrom(start: int, codes: seq<int>): int
    decreases |codes|
  {
    if |codes| == 0 then start else Max(MaxFrom(start, codes[..|codes| - 1]), codes[|codes| - 1])
  }

  lemma {:induction false} MaxFromCons(start: int, c: int, codes: seq<int>)
    ensures MaxFrom(start, [c] + codes) == MaxFrom(Max(start, c), codes)
    decreases |codes|
  {
    if |codes| == 0 {
      assert [c] + codes == [c];
      assert [c][..0] == [];
    } else {
      var n := |codes|;
      assert ([c] + codes)[..n] == [c] + codes[..n - 1];
      MaxFromCons(start, c, codes[..n - 1]);
    }
  }

  /** The outcome of a run of stages: the final status and how many stages were attempted. */
  datatype Verdict = Verdict(overall: int, attempted: nat)

  /**
   * Runs the stages whose return codes are `codes` in order, starting from the
   * status `overall`: a stage is attempted only while the status is still 200,
   * and each attempted stage raises the status to its code if that is larger.
   */
  function Drive(overall: int, codes: seq<int>): (v: Verdict)
    ensures v.attempted <= |codes|
    ensures overall == Success && |codes| > 0 ==> v.attempted >= 1
    ensures v.overall == MaxFrom(overall, codes[..v.attempted])
    ensures forall i :: 0 <= i < v.attempted ==> MaxFrom(overall, codes[..i]) == Success
    ensures v.attempted < |codes| ==> MaxFrom(overall, codes[..v.attempted]) != Success
    decreases |codes|
  {
    if overall != Success || |codes| == 0 then
      assert codes[..0] == [];
      Verdict(overall, 0)
    else
      var rest := Drive(Max(overall, codes[0]), codes[1..]);
      var v := Verdict(rest.overall, rest.attempted + 1);
      PrefixShift(overall, codes, rest.attempted);
      forall k | 0 <= k < rest.attempted
        ensures MaxFrom(overall, codes[..k + 1]) == MaxFrom(Max(overall, codes[0]), codes[1..][..k])
      {
        PrefixShift(overall, codes, k);
      }
      assert codes[..0] == [];
      assert forall i :: 0 < i < v.attempted ==> MaxFrom(overall, codes[..i]) == Success by {
        forall i | 0 < i < v.attempted
          ensures MaxFrom(overall, codes[..i]) == Success
        {
          var k := i - 1;
          assert MaxFrom(Max(overall, codes[0]), codes[1..][..k]) == Success;
          assert MaxFrom(overall, codes[..k + 1]) == MaxFrom(Max(overall, codes[0]), codes[1..][..k]);
        }
      }
      v
  }

  /** Running stage `done` while the status is 200 (one step of `Drive`). */
  lemma DriveStep(overall: int, codes: seq<int>, done: nat)
    requires done < |codes| && overall == Success
    ensures var rest := Drive(Max(overall, codes[done]), codes[done + 1..]);
            Drive(overall, codes[done..]) == Verdict(rest.overall, rest.attempted + 1)
  {
    assert codes[done..][1..] == codes[done + 1..];
  }

  /**
   * After `done` stages the running status is `overall`, and the rest of the
   * run is `Drive(overall, codes[done..])`.
   */
  ghost predicate Progress(codes: seq<int>, done: nat, overall: int) {
    done <= |codes| &&
    var rest := Drive(overall, codes[done..]);
    Drive(Success, codes) == Verdict(rest.overall, done + rest.attempted)
  }

  lemma ProgressStart(codes: seq<int>)
    requires |codes| > 0
    ensures Progress(codes, 1, Max(Success, codes[0]))
  {
    DriveStep(Success, codes, 0);
    assert codes[0..] == codes;
  }

  lemma ProgressStep(codes: seq<int>, done: nat, overall: int)
    requires Progress(codes, done, overall) && overall == Success && done < |codes|
    ensures Progress(codes, done + 1, Max(overall, codes[done]))
  {
    DriveStep(overall, codes, done);
  }

  lemma ProgressStop(codes: seq<int>, done: nat, overall: int)
    requires Progress(codes, done, overall) && (overall != Success || done == |codes|)
    ensures Drive(Success, codes) == Verdict(overall, done)
  {
  }

  lemma PrefixShift(start: int, codes: seq<int>, k: nat)
    requires k < |codes|
    ensures MaxFrom(start, codes[..k + 1]) == MaxFrom(Max(start, codes[0]), codes[1..][..k])
  {
    assert codes[..k + 1] == [codes[0]] + codes[1..][..k];
    MaxFromCons(start, codes[0], codes[1..][..k]);
  }

  lemma {:induction false} MaxFromAllSuccess(codes: seq<int>)
    requires forall i :: 0 <= i < |codes| ==> codes[i] == Success
    ensures MaxFrom(Success, codes) == Success
    decreases |codes|
  {
    if |codes| > 0 {
      MaxFromAllSuccess(codes[..|codes| - 1]);
    }
  }

  lemma {:induction false} MaxFromAtLeast(start: int, codes: seq<int>, i: nat)
    requires i < |codes|
    ensures MaxFrom(start, codes) >= codes[i] && MaxFrom(start, codes) >= start
    decreases |codes|
  {
    if i < |codes| - 1 {
      MaxFromAtLeast(start, codes[..|codes| - 1], i);
    } else if |codes| > 1 {
      MaxFromAtLeast(start, codes[..|codes| - 1], 0);
    }
  }

  lemma {:induction false} MaxFromIsOneOf(start: int, codes: seq<int>)
    ensures MaxFrom(start, codes) == start || exists i :: 0 <= i < |codes| && MaxFrom(start, codes) == codes[i]
    decreases |codes|
  {
    if |codes| > 0 {
      var init := codes[..|codes| - 1];
      MaxFromIsOneOf(start, init);
      if MaxFrom(start, init) != start {
        var i :| 0 <= i < |init| && MaxFrom(start, init) == init[i];
        assert init[i] == codes[i];
      }
    }
  }

  /**
   * When every stage reports 200 or 500, the run ends at 200 exactly when all
   * stages succeeded, and then every stage was attempted; otherwise it ends at
   * 500, the last attempted stage is the first one that failed, and all stages
   * before it succeeded.
   */
  lemma DriveOutcome(codes: seq<int>)
    requires forall i :: 0 <= i < |codes| ==> codes[i] == 200 || codes[i] == 500
    ensures var v := Drive(Success, codes);
            && (v.overall == Success <==> forall i :: 0 <= i < |codes| ==> codes[i] == Success)
            && (v.overall == Success ==> v.attempted == |codes|)
            && (v.overall != Success ==>
                  && v.overall == 500
                  && 1 <= v.attempted
                  && codes[v.attempted - 1] == 500
                  && forall i :: 0 <= i < v.attempted - 1 ==> codes[i] == Success)
  {
    DriveSucceeds(codes);
    DriveFails(codes);
  }

  /** The success half of `DriveOutcome`. */
  lemma DriveSucceeds(codes: seq<int>)
    requires forall i :: 0 <= i < |codes| ==> codes[i] == 200 || codes[i] == 500
    ensures var v := Drive(Success, codes);
            && (v.overall == Success <==> forall i :: 0 <= i < |codes| ==> codes[i] == Success)
            && (v.overall == Success ==> v.attempted == |codes|)
  {
    var v := Drive(Success, codes);
    var p := codes[..v.attempted];
    if forall i :: 0 <= i < |codes| ==> codes[i] == Success {
      MaxFromAllSuccess(p);
    } else {
      var j :| 0 <= j < |codes| && codes[j] != Success;
      if v.attempted == |codes| {
        assert p == codes;
        MaxFromAtLeast(Success, p, j);
      }
    }
  }

  /** The failure half of `DriveOutcome`. */
  lemma DriveFails(codes: seq<int>)
    requires forall i :: 0 <= i < |codes| ==> codes[i] == 200 || codes[i] == 500
    ensures var v := Drive(Success, codes);
            v.overall != Success ==>
              && v.overall == 500
              && 1 <= v.attempted
              && codes[v.attempted - 1] == 500
              && forall i :: 0 <= i < v.attempted - 1 ==> codes[i] == Success
  {
    var v := Drive(Success, codes);
    var p := codes[..v.attempted];
    if v.overall != Success {
      // Every stage before the last attempted one left the status at 200.
      forall i | 0 <= i < v.attempted - 1
        ensures codes[i] == Success
      {
        assert MaxFrom(Success, codes[..v.attempted - 1]) == Success;
        MaxFromAtLeast(Success, codes[..v.attempted - 1], i);
      }
      MaxFromIsOneOf(Success, p);
      MaxFromAtLeast(Success, p, 0);
    }
  }
}
