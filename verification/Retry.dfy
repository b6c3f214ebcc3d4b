/** How often one call of `execute_run` asks the provider for its answer (the connect loop and the stream retry in
    piqo-server/src/supervisor.rs): a loop of connection attempts inside a recursion of stream attempts, both
    counted by the same number. Requests that compaction makes for a summary are not among them. */
module Retry {
  import opened Prelude

  const RETRIES := 5

  /** What happens to the n-th request: the call ends while it is out (a cancellation, the shutdown, an answer that is
      no success, a failed append), it connects, its stream fails before any content, or the wait before the retry
      that would follow it is cut short by the shutdown. */
  datatype World = World(ends: nat -> bool, connects: nat -> bool, breaks: nat -> bool, cuts: nat -> bool)

  /** Requests sent by a call entered with `retryCount`, which has already retried up to `retries` and whose next
      request is the n-th overall. */
  function Sent(retryCount: nat, retries: nat, n: nat, w: World): nat
    requires retryCount <= retries <= RETRIES
    decreases RETRIES - retryCount, RETRIES - retries
  {
    if w.ends(n) then 1
    else if w.connects(n) then
      if w.breaks(n) && retryCount < RETRIES && !w.cuts(n) then 1 + Sent(retryCount + 1, retryCount + 1, n + 1, w) else 1
    else if retries < RETRIES && !w.cuts(n) then 1 + Sent(retryCount, retries + 1, n + 1, w)
    else 1
  }

  function Triangle(n: nat): nat { if n == 0 then 0 else n + Triangle(n - 1) }

  /** Each level of the recursion sends at most one request for every retry it has left, and one more. */
  lemma {:induction false} SentAtMost(retryCount: nat, retries: nat, n: nat, w: World)
    requires retryCount <= retries <= RETRIES
    ensures 1 <= Sent(retryCount, retries, n, w) <= (RETRIES + 1 - retries) + Triangle(RETRIES - retryCount)
    decreases RETRIES - retryCount, RETRIES - retries
  {
    if w.connects(n) {
      if retryCount < RETRIES {
        SentAtMost(retryCount + 1, retryCount + 1, n + 1, w);
      }
    } else if retries < RETRIES {
      SentAtMost(retryCount, retries + 1, n + 1, w);
    }
  }

  /** Ending early, or cutting a wait, never sends more. */
  lemma {:induction false} StoppingSendsLess(retryCount: nat, retries: nat, n: nat, w: World)
    requires retryCount <= retries <= RETRIES
    ensures Sent(retryCount, retries, n, w) <= Sent(retryCount, retries, n, w.(ends := i => false, cuts := i => false))
    decreases RETRIES - retryCount, RETRIES - retries
  {
    if w.connects(n) {
      if retryCount < RETRIES {
        StoppingSendsLess(retryCount + 1, retryCount + 1, n + 1, w);
      }
    } else if retries < RETRIES {
      StoppingSendsLess(retryCount, retries + 1, n + 1, w);
    }
  }

  /** Only the last attempt of each level connects, and its stream breaks. */
  predicate ConnectsLast(n: nat) { n == 5 || n == 10 || n == 14 || n == 17 || n == 19 || n == 20 }

  const WORST := World(i => false, ConnectsLast, i => true, i => false)

  /** A level whose connections fail until its retries are used up. */
  lemma {:induction false} WorstLevel(retryCount: nat, retries: nat, n: nat)
    requires retryCount <= retries <= RETRIES
    requires forall i :: n <= i < n + RETRIES - retries ==> !ConnectsLast(i)
    requires ConnectsLast(n + RETRIES - retries)
    ensures Sent(retryCount, retries, n, WORST) ==
            RETRIES + 1 - retries
            + (if retryCount < RETRIES then Sent(retryCount + 1, retryCount + 1, n + RETRIES + 1 - retries, WORST) else 0)
    decreases RETRIES - retries
  {
    if retries < RETRIES {
      assert !ConnectsLast(n);
      WorstLevel(retryCount, retries + 1, n + 1);
    }
  }

  /** One call sends at most 21 requests, and 21 are possible. */
  lemma AtMostTwentyOne(w: World)
    ensures Sent(0, 0, 0, w) <= 21
    ensures Sent(0, 0, 0, WORST) == 21
  {
    SentAtMost(0, 0, 0, w);
    assert Triangle(5) == 15 by { assert Triangle(3) == 6; }
    WorstLevel(0, 0, 0);
    WorstLevel(1, 1, 6);
    WorstLevel(2, 2, 11);
    WorstLevel(3, 3, 15);
    WorstLevel(4, 4, 18);
    WorstLevel(5, 5, 20);
  }

  function Power(n: nat): nat { if n == 0 then 1 else 2 * Power(n - 1) }

  /** The wait before a retry, in milliseconds: 250 doubled `shift` times, at most 4 seconds. */
  function Backoff(shift: nat): nat {
    var wait := 250 * Power(shift);
    if wait > 4000 then 4000 else wait
  }

  lemma PowerGrows(a: nat, b: nat)
    requires a <= b
    ensures 1 <= Power(a) <= Power(b)
  {
    if a < b {
      PowerGrows(a, b - 1);
    } else if a > 0 {
      PowerGrows(a - 1, b - 1);
    }
  }

  /** No shift reaches the width of the word it shifts, and no wait is cut short of its doubling. */
  predicate SmallShifts(shifts: seq<nat>) {
    forall s :: s in shifts ==> s <= 4 && Backoff(s) == 250 * Power(s) <= 4000
  }

  /** Attempts are numbered past the run's count, and stay within five of it. */
  predicate NumberedFrom(attempts: seq<nat>, base: nat) {
    forall a :: a in attempts ==> base + 1 <= a <= base + RETRIES
  }

  /** a, a + 1, ..., b - 1. */
  function Counting(a: nat, b: nat): seq<nat>
    requires a <= b
  {
    seq(b - a, i requires 0 <= i < b - a => a + i)
  }

  lemma CountingNext(a: nat, b: nat)
    requires a <= b
    ensures Counting(a, b + 1) == Counting(a, b) + [b]
  {
  }

  lemma CountingStarts(first: nat, retryCount: nat, base: nat)
    requires first == base + if retryCount == 0 then 1 else retryCount
    ensures Counting(first, base + retryCount + 1) == if retryCount > 0 then [base + retryCount] else []
    ensures Counting(retryCount, retryCount) == []
  {
  }

  /** How far the retries of each level of the recursion got, the first level entered with `from`. */
  predicate Levels(from: nat, reached: seq<nat>) {
    |reached| > 0 && forall j :: 0 <= j < |reached| ==> from + j <= reached[j] <= RETRIES
  }

  /** The attempts recorded: on each level they rise by one, from the number it was entered with - the very first attempt
      is recorded elsewhere - to the number its retries reached. */
  function Attempts(base: nat, from: nat, reached: seq<nat>): seq<nat>
    requires reached == [] || Levels(from, reached)
    decreases |reached|
  {
    if reached == [] then []
    else Counting(base + (if from == 0 then 1 else from), base + reached[0] + 1) + Attempts(base, from + 1, reached[1..])
  }

  /** The shifts of the waits: before each retry of a connection the number of retries made before it, and after a level
      whose stream broke the number it was entered with. `broke` says whether the last level made such a wait. */
  function Shifts(from: nat, reached: seq<nat>, broke: bool): seq<nat>
    requires reached == [] || Levels(from, reached)
    decreases |reached|
  {
    if reached == [] then []
    else Counting(from, reached[0]) + (if |reached| > 1 || broke then [from] else []) + Shifts(from + 1, reached[1..], broke)
  }

  /** Attempts stay within five of the count they start from, and no wait is cut short of its doubling. */
  lemma {:induction false} RecordIsSmall(base: nat, from: nat, reached: seq<nat>, broke: bool)
    requires Levels(from, reached) && (broke ==> from + |reached| - 1 < RETRIES)
    ensures NumberedFrom(Attempts(base, from, reached), base) && SmallShifts(Shifts(from, reached, broke))
    decreases |reached|
  {
    hide Backoff, Power;
    forall s: nat | s <= 4 ensures Backoff(s) == 250 * Power(s) <= 4000 {
      ShiftIsSmall(s);
    }
    if |reached| > 1 {
      assert reached[1] >= from + 1;
      assert forall j :: 0 <= j < |reached| - 1 ==> reached[1..][j] == reached[j + 1];
      RecordIsSmall(base, from + 1, reached[1..], broke);
    }
  }

  lemma ShiftIsSmall(s: nat)
    requires s <= 4
    ensures Backoff(s) == 250 * Power(s) <= 4000
  {
    PowerGrows(s, 4);
    assert Power(2) == 4;
    assert Power(4) == 16;
  }

  lemma SentNext(retryCount: nat, retries: nat, n: nat, w: World)
    requires retryCount <= retries <= RETRIES
    ensures Sent(retryCount, retries, n, w) ==
            1 + (if w.ends(n) then 0
                 else if w.connects(n) then
                   if w.breaks(n) && retryCount < RETRIES && !w.cuts(n) then Sent(retryCount + 1, retryCount + 1, n + 1, w) else 0
                 else if retries < RETRIES && !w.cuts(n) then Sent(retryCount, retries + 1, n + 1, w)
                 else 0)
  {
  }

  lemma OneLevel(base: nat, from: nat, retries: nat, broke: bool) returns (reached: seq<nat>)
    requires from <= retries <= RETRIES && (broke ==> from < RETRIES)
    ensures Levels(from, reached) && |reached| == 1
    ensures Attempts(base, from, reached) == Counting(base + (if from == 0 then 1 else from), base + retries + 1)
    ensures Shifts(from, reached, broke) == Counting(from, retries) + (if broke then [from] else [])
    ensures NumberedFrom(Attempts(base, from, reached), base) && SmallShifts(Shifts(from, reached, broke))
  {
    hide SmallShifts, NumberedFrom;
    reached := [retries];
    RecordIsSmall(base, from, reached, broke);
  }

  lemma MoreLevels(base: nat, from: nat, retries: nat, more: seq<nat>, broke: bool) returns (reached: seq<nat>)
    requires from <= retries <= RETRIES && Levels(from + 1, more) && (broke ==> from + 1 + |more| - 1 < RETRIES)
    ensures Levels(from, reached) && |reached| == 1 + |more|
    ensures Attempts(base, from, reached) ==
            Counting(base + (if from == 0 then 1 else from), base + retries + 1) + Attempts(base, from + 1, more)
    ensures Shifts(from, reached, broke) == Counting(from, retries) + [from] + Shifts(from + 1, more, broke)
    ensures NumberedFrom(Attempts(base, from, reached), base) && SmallShifts(Shifts(from, reached, broke))
  {
    hide SmallShifts, NumberedFrom;
    reached := [retries] + more;
    assert reached[1..] == more;
    RecordIsSmall(base, from, reached, broke);
  }

  /** One call of `execute_run`, with the attempts it records and the waits it makes. `base` is the attempt count of
      the run it was given; requests are numbered across the recursion. */
  method ExecuteRun(base: nat, retryCount: nat, n: nat, w: World)
    returns (sent: nat, attempts: seq<nat>, shifts: seq<nat>, ghost reached: seq<nat>, ghost broke: bool)
    requires retryCount <= RETRIES
    ensures sent == Sent(retryCount, retryCount, n, w)
    ensures Levels(retryCount, reached) && (broke ==> retryCount + |reached| - 1 < RETRIES)
    ensures attempts == Attempts(base, retryCount, reached)
    ensures shifts == Shifts(retryCount, reached, broke)
    ensures NumberedFrom(attempts, base) && SmallShifts(shifts)
    decreases RETRIES - retryCount
  {
    hide SmallShifts, NumberedFrom, Sent, Attempts, Shifts, Levels, Counting;
    attempts, shifts, sent, broke := if retryCount > 0 then [base + retryCount] else [], [], 0, false;
    var retries := retryCount;
    ghost var first := base + if retryCount == 0 then 1 else retryCount;
    CountingStarts(first, retryCount, base);
    while !w.connects(n + sent)
      invariant retryCount <= retries <= RETRIES
      invariant sent + Sent(retryCount, retries, n + sent, w) == Sent(retryCount, retryCount, n, w)
      invariant attempts == Counting(first, base + retries + 1) && shifts == Counting(retryCount, retries)
      decreases RETRIES - retries
    {
      SentNext(retryCount, retries, n + sent, w);
      var ended, cut := w.ends(n + sent), w.cuts(n + sent);
      sent := sent + 1;
      if ended || retries >= RETRIES {
        reached := OneLevel(base, retryCount, retries, broke);
        return;
      }
      CountingNext(first, base + retries + 1);
      CountingNext(retryCount, retries);
      retries := retries + 1;
      attempts := attempts + [base + retries];
      shifts := shifts + [retries - 1];
      if cut {
        reached := OneLevel(base, retryCount, retries, broke);
        return;
      }
    }
    SentNext(retryCount, retries, n + sent, w);
    var ended, breaks, cut := w.ends(n + sent), w.breaks(n + sent), w.cuts(n + sent);
    sent := sent + 1;
    if !ended && breaks && retryCount < RETRIES {
      shifts := shifts + [retryCount];
      broke := true;
      if !cut {
        var more, moreAttempts, moreShifts, moreReached, moreBroke := ExecuteRun(base, retryCount + 1, n + sent, w);
        sent, attempts, shifts := sent + more, attempts + moreAttempts, shifts + moreShifts;
        broke := moreBroke;
        reached := MoreLevels(base, retryCount, retries, moreReached, broke);
        return;
      }
    }
    reached := OneLevel(base, retryCount, retries, broke);
  }
}
