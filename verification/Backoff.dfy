/**
 Connecting to corosync (corosync/corosync.go): the retry loops cs_repeat_init and cs_repeat, retrybackoff,
 and the setup part of runs.  What the library calls answer is an input.
 */
module Backoff {

  datatype Answer = Ok | TryAgain | QueueFull | Library | OtherError

  const MAX_RETRIES: nat := 30

  /** The answers of the successive calls of one phase. */
  type Calls = nat -> Answer

  /** One pass over the setup: initialize, local id, join, membership. */
  datatype Setup = Setup(initialize: Calls, localGet: Calls, join: Calls, membership: Calls)

  predicate Retryable(first: bool, a: Answer) {
    a == TryAgain || a == QueueFull || (first && a == Library)
  }

  /** 1 + 2 + ... + k. */
  function Triangle(k: nat): (t: nat)
    ensures 2 * t == k * (k + 1)
  {
    if k == 0 then 0 else Triangle(k - 1) + k
  }

  lemma {:induction false} TriangleMonotone(a: nat, b: nat)
    requires a <= b
    ensures Triangle(a) <= Triangle(b)
    decreases b
  {
    if a < b {
      TriangleMonotone(a, b - 1);
    }
  }

  /** How many calls in a row, from call k on, are answered with a retryable error, counting up to MAX_RETRIES. */
  function Leading(first: bool, calls: Calls, k: nat): (n: nat)
    requires k <= MAX_RETRIES
    ensures k <= n <= MAX_RETRIES
    decreases MAX_RETRIES - k
  {
    if k == MAX_RETRIES || !Retryable(first, calls(k)) then k else Leading(first, calls, k + 1)
  }

  lemma {:induction false} LeadingCounts(first: bool, calls: Calls, k: nat)
    requires k <= MAX_RETRIES
    ensures var n := Leading(first, calls, k);
      (forall i :: k <= i < n ==> Retryable(first, calls(i))) && (n < MAX_RETRIES ==> !Retryable(first, calls(n)))
    decreases MAX_RETRIES - k
  {
    if k < MAX_RETRIES && Retryable(first, calls(k)) {
      LeadingCounts(first, calls, k + 1);
    }
  }

  /** The answer a phase ends with. */
  function Last(first: bool, calls: Calls): Answer {
    var n := Leading(first, calls, 0);
    if n == MAX_RETRIES then calls(MAX_RETRIES - 1) else calls(n)
  }

  /** Seconds slept in one phase. */
  function PhaseSleep(first: bool, calls: Calls): nat {
    Triangle(Leading(first, calls, 0))
  }

  /**
   The phase ends with the first answer that is neither a full queue nor a call to try again - nor, in the first
   phase, a library error - or with the thirtieth; k retried answers have cost 1 + ... + k seconds of sleep.
   */
  method CsRepeat(first: bool, calls: Calls) returns (result: Answer, attempts: nat, slept: nat)
    ensures 1 <= attempts <= 30 && result == calls(attempts - 1)
    ensures forall i :: 0 <= i < attempts - 1 ==>
      calls(i) == TryAgain || calls(i) == QueueFull || (calls(i) == Library && first)
    ensures attempts < 30 ==> result == Ok || result == OtherError || (result == Library && !first)
    ensures var k := if result == Ok || result == OtherError || (result == Library && !first) then attempts - 1 else 30;
      2 * slept == k * (k + 1)
    ensures result == Last(first, calls) && slept == PhaseSleep(first, calls)
  {
    var counter: nat := 0;
    attempts, slept := 0, 0;
    while true
      invariant attempts == counter < MAX_RETRIES
      invariant Leading(first, calls, 0) == Leading(first, calls, counter)
      invariant forall i :: 0 <= i < counter ==> Retryable(first, calls(i))
      invariant slept == Triangle(counter)
      decreases MAX_RETRIES - counter
    {
      result := calls(attempts);
      attempts := attempts + 1;
      if Retryable(first, result) {
        counter := counter + 1;
        slept := slept + counter;
      } else {
        break;
      }
      if counter >= MAX_RETRIES {
        break;
      }
    }
  }

  // ---- one setup

  /** Some call of the phase, one of the first thirty, is answered with Ok, and every earlier one is retried. */
  ghost predicate Succeeds(first: bool, calls: Calls) {
    exists k :: 0 <= k < 30 && calls(k) == Ok && forall i :: 0 <= i < k ==>
      calls(i) == TryAgain || calls(i) == QueueFull || (calls(i) == Library && first)
  }

  lemma LastIsOk(first: bool, calls: Calls)
    ensures Last(first, calls) == Ok <==> Succeeds(first, calls)
  {
    var n := Leading(first, calls, 0);
    LeadingCounts(first, calls, 0);
    assert forall k :: 0 <= k < n ==> Retryable(first, calls(k));
    if Last(first, calls) == Ok {
      assert n < 30 && calls(n) == Ok;
    }
  }

  /** A setup completes exactly when each of its four phases gets its Ok; only the first one retries a library error. */
  lemma CompletesExactly(s: Setup)
    ensures Completes(s) <==>
      Succeeds(true, s.initialize) && Succeeds(false, s.localGet) && Succeeds(false, s.join) &&
      Succeeds(false, s.membership)
  {
    LastIsOk(true, s.initialize);
    LastIsOk(false, s.localGet);
    LastIsOk(false, s.join);
    LastIsOk(false, s.membership);
  }

  predicate Completes(s: Setup) {
    Last(true, s.initialize) == Ok && Last(false, s.localGet) == Ok && Last(false, s.join) == Ok &&
      Last(false, s.membership) == Ok
  }

  /** Seconds slept in the phases of one setup; a phase after a failed one is not reached. */
  function SetupSleep(s: Setup): nat {
    PhaseSleep(true, s.initialize) +
    if Last(true, s.initialize) != Ok then 0 else
      PhaseSleep(false, s.localGet) +
      if Last(false, s.localGet) != Ok then 0 else
        PhaseSleep(false, s.join) +
        if Last(false, s.join) != Ok then 0 else PhaseSleep(false, s.membership)
  }

  /** The longest sleep: three phases succeed at the thirtieth call and the last one never does. */
  const LONGEST_SETUP: nat := 1770

  lemma PhaseBound(first: bool, calls: Calls)
    ensures PhaseSleep(first, calls) <= 465
    ensures Last(first, calls) == Ok ==> PhaseSleep(first, calls) <= 435
  {
    var n := Leading(first, calls, 0);
    LeadingCounts(first, calls, 0);
    TriangleMonotone(n, 30);
    if Last(first, calls) == Ok {
      TriangleMonotone(n, 29);
    }
  }

  lemma SetupBound(s: Setup)
    ensures SetupSleep(s) <= LONGEST_SETUP
  {
    PhaseBound(true, s.initialize);
    PhaseBound(false, s.localGet);
    PhaseBound(false, s.join);
    PhaseBound(false, s.membership);
  }

  lemma {:induction false} AllRetried(calls: Calls, k: nat, n: nat)
    requires k <= n <= MAX_RETRIES
    requires forall i :: k <= i < n ==> calls(i) == TryAgain
    requires n < MAX_RETRIES ==> calls(n) == Ok
    ensures Leading(false, calls, k) == Leading(true, calls, k) == n
    decreases n - k
  {
    if k < n {
      AllRetried(calls, k + 1, n);
    }
  }

  /** The bound is reached. */
  lemma SetupBoundIsTight()
    ensures exists s :: SetupSleep(s) == LONGEST_SETUP && !Completes(s)
  {
    var slow: Calls := i => if i < 29 then TryAgain else Ok;
    var dead: Calls := i => TryAgain;
    AllRetried(slow, 0, 29);
    AllRetried(dead, 0, 30);
    var s := Setup(slow, slow, slow, dead);
    assert Triangle(29) == 435 && Triangle(30) == 465;
    assert SetupSleep(s) == LONGEST_SETUP && !Completes(s);
  }

  // ---- the restart loop

  /** The state of runs between two passes of its loop. */
  class Connector {
    var recnt: nat
    var restart: bool
    var slept: nat

    constructor ()
      ensures recnt == 0 && restart && slept == 0
    {
      recnt, restart, slept := 0, true, 0;
    }

    method RetryBackoff()
      modifies this
      ensures recnt == old(recnt) + 1 && restart && slept == old(slept) + recnt
    {
      recnt := recnt + 1;
      slept := slept + recnt;
      restart := true;
    }

    /** One retry loop; its sleep counts. */
    method Phase(first: bool, calls: Calls) returns (result: Answer)
      modifies this`slept
      ensures result == Last(first, calls) && slept == old(slept) + PhaseSleep(first, calls)
    {
      var attempts, seconds;
      result, attempts, seconds := CsRepeat(first, calls);
      slept := slept + seconds;
    }

    /** The block that runs when restart is set. */
    method TrySetup(s: Setup)
      modifies this
      ensures if Completes(s)
        then recnt == 0 && !restart && slept == old(slept) + SetupSleep(s)
        else recnt == old(recnt) + 1 && restart && slept == old(slept) + SetupSleep(s) + recnt
    {
      restart := false;
      var result := Phase(true, s.initialize);
      if result != Ok {
        RetryBackoff();
        return;
      }
      result := Phase(false, s.localGet);
      if result != Ok {
        RetryBackoff();
        return;
      }
      result := Phase(false, s.join);
      if result != Ok {
        RetryBackoff();
        return;
      }
      result := Phase(false, s.membership);
      if result != Ok {
        RetryBackoff();
        return;
      }
      recnt := 0;
    }

    /** The loop, seen at its setups: after a complete one, a lost connection sets restart again. */
    method Loop(setups: seq<Setup>)
      requires recnt == 0
      modifies this
      ensures recnt == FailedSinceComplete(setups)
      ensures slept == old(slept) + TotalSleep(setups)
    {
      var i := 0;
      while i < |setups|
        invariant 0 <= i <= |setups|
        invariant recnt == FailedSinceComplete(setups[..i])
        invariant slept == old(slept) + TotalSleep(setups[..i])
      {
        restart := true;
        TrySetup(setups[i]);
        assert setups[..i + 1][..i] == setups[..i];
        i := i + 1;
      }
      assert setups[..|setups|] == setups;
    }
  }

  /** The number of failed setups at the end of the list. */
  function FailedSinceComplete(setups: seq<Setup>): nat {
    if setups == [] || Completes(setups[|setups| - 1]) then 0 else FailedSinceComplete(setups[..|setups| - 1]) + 1
  }

  ghost predicate EndsWithFailures(setups: seq<Setup>, n: nat) {
    n <= |setups| && (forall i :: |setups| - n <= i < |setups| ==> !Completes(setups[i])) &&
    (n < |setups| ==> Completes(setups[|setups| - n - 1]))
  }

  lemma OneMoreFailure(init: seq<Setup>, last: Setup, n: nat)
    requires EndsWithFailures(init, n) && !Completes(last)
    ensures EndsWithFailures(init + [last], n + 1)
  {
  }

  /** It is exactly the length of the unbroken series of failures at the end. */
  lemma {:induction false} FailedSinceCompleteCounts(setups: seq<Setup>)
    ensures EndsWithFailures(setups, FailedSinceComplete(setups))
  {
    if setups != [] {
      var init, last := setups[..|setups| - 1], setups[|setups| - 1];
      assert setups == init + [last];
      if !Completes(last) {
        FailedSinceCompleteCounts(init);
        OneMoreFailure(init, last, FailedSinceComplete(init));
      }
    }
  }

  function TotalSleep(setups: seq<Setup>): nat {
    if setups == [] then 0
    else TotalSleep(setups[..|setups| - 1]) + SetupSleep(setups[|setups| - 1]) + FailedSinceComplete(setups)
  }

  /** Seconds slept in the phases of all the setups. */
  function InPhases(setups: seq<Setup>): nat {
    if setups == [] then 0 else InPhases(setups[..|setups| - 1]) + SetupSleep(setups[|setups| - 1])
  }

  lemma {:induction false} FailuresSleep(setups: seq<Setup>)
    requires forall i :: 0 <= i < |setups| ==> !Completes(setups[i])
    ensures FailedSinceComplete(setups) == |setups|
    ensures TotalSleep(setups) == InPhases(setups) + Triangle(|setups|)
    ensures InPhases(setups) <= LONGEST_SETUP * |setups|
  {
    if setups != [] {
      FailuresSleep(setups[..|setups| - 1]);
      SetupBound(setups[|setups| - 1]);
    }
  }

  /** n failed setups in a row back off n (n + 1) / 2 seconds, and sleep at most 1770 n in their phases. */
  lemma FailuresSleepAtMost(setups: seq<Setup>)
    requires forall i :: 0 <= i < |setups| ==> !Completes(setups[i])
    ensures FailedSinceComplete(setups) == |setups|
    ensures 2 * (TotalSleep(setups) - InPhases(setups)) == |setups| * (|setups| + 1)
    ensures InPhases(setups) <= 1770 * |setups|
  {
    FailuresSleep(setups);
  }
}
