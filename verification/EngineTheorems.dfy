/** Chain linearity, exactly-one accounting and correlation of replies, over every run of the engine. */
module EngineTheorems {
  import opened Messages
  import opened Engine
  import opened EngineInvariants
  import opened EngineAccounts

  ghost predicate Reachable(s: State) {
    exists es :: Runs(INIT, es) && After(INIT, es) == s
  }

  lemma ReachableInv(s: State)
    requires Reachable(s)
    ensures Inv(s)
  {
    var es :| Runs(INIT, es) && After(INIT, es) == s;
    InvInit();
    InvRun(INIT, es);
  }

  lemma ReachableIsLinear(s: State)
    requires Reachable(s)
    ensures Waits(s.threads, s.runs) && Linear(s.threads, s.timers)
  {
    ReachableInv(s);
  }

  // ---- chains

  datatype Holder = Goroutine(id: nat) | ArmedTimer(id: nat)

  ghost function Holders(s: State, chain: nat): set<Holder> {
    (set t | t in s.threads && Owner(s.threads, t, chain) :: Goroutine(t)) +
    (set m | m in s.timers && ArmedFor(s.timers, m, chain) :: ArmedTimer(m))
  }

  /** Run r of the chain is waited for, or its agent is still to be launched. */
  ghost predicate Active(s: State, r: nat, chain: nat) {
    r in s.runs && s.runs[r].chain == chain &&
    (s.runs[r].proc == Spawned || exists t :: t in s.threads && s.threads[t].pc == Waiting(r))
  }

  lemma AtMostOne(hs: set<Holder>)
    requires forall x, y :: x in hs && y in hs ==> x == y
    ensures |hs| <= 1
  {
    if hs != {} {
      var x :| x in hs;
      assert hs == {x};
    }
  }

  lemma ActiveIsHeld(s: State, r: nat, chain: nat)
    requires Waits(s.threads, s.runs) && Active(s, r, chain)
    ensures s.runs[r].waiter in s.threads && s.threads[s.runs[r].waiter].pc == Waiting(r)
    ensures Goroutine(s.runs[r].waiter) in Holders(s, chain)
  {
    assert WaitsFor(s.threads, s.runs, s.runs[r].waiter, r);
    assert Owner(s.threads, s.runs[r].waiter, chain);
  }

  /** A request owns at most one goroutine or armed timer, and never has two live runs at once. */
  lemma ChainIsLinear(s: State, chain: nat)
    requires Reachable(s)
    ensures |Holders(s, chain)| <= 1
    ensures forall q, r :: Active(s, q, chain) && Active(s, r, chain) ==> q == r
    ensures forall r :: Active(s, r, chain) ==> Holders(s, chain) == {Goroutine(s.runs[r].waiter)}
  {
    ReachableIsLinear(s);
    AtMostOne(Holders(s, chain));
    forall r | Active(s, r, chain)
      ensures Holders(s, chain) == {Goroutine(s.runs[r].waiter)} && s.threads[s.runs[r].waiter].pc == Waiting(r)
    {
      ActiveIsHeld(s, r, chain);
    }
  }

  ghost function LaunchesOf(launches: seq<Launch>, chain: nat): seq<Launch> {
    if launches == [] then []
    else LaunchesOf(launches[..|launches| - 1], chain) +
         (if launches[|launches| - 1].chain == chain then [launches[|launches| - 1]] else [])
  }

  lemma OnlyTheHolderLaunches(s: State, r: nat)
    requires Waits(s.threads, s.runs) && r in s.runs && s.runs[r].proc == Spawned
    ensures Owner(s.threads, s.runs[r].waiter, s.runs[r].chain) && s.threads[s.runs[r].waiter].pc == Waiting(r)
  {
    assert WaitsFor(s.threads, s.runs, s.runs[r].waiter, r);
  }

  lemma LaunchStep(s: State, e: Event)
    requires Enabled(s, e)
    ensures Apply(s, e).launches == s.launches ||
      (e.Process? && e.act.Start? && s.runs[e.run].proc == Spawned &&
       Apply(s, e).launches == s.launches + [LaunchOf(e.run, s.runs[e.run], e.act.pid, s.now)])
  {
  }

  lemma OverNeverLaunches(s: State, e: Event, chain: nat)
    requires Waits(s.threads, s.runs) && Enabled(s, e) && Over(s.threads, s.timers, chain)
    ensures LaunchesOf(Apply(s, e).launches, chain) == LaunchesOf(s.launches, chain)
  {
    LaunchStep(s, e);
    var launches' := Apply(s, e).launches;
    if launches' != s.launches {
      OnlyTheHolderLaunches(s, e.run);
      assert launches'[..|s.launches|] == s.launches;
    }
  }

  lemma {:induction false} OverForGood(s: State, es: seq<Event>, chain: nat)
    requires Inv(s) && Runs(s, es) && chain < |s.tasks| && Over(s.threads, s.timers, chain)
    ensures LaunchesOf(After(s, es).launches, chain) == LaunchesOf(s.launches, chain)
    decreases es
  {
    if es != [] {
      OverNeverLaunches(s, es[0], chain);
      OverStep(s, es[0], chain);
      InvStep(s, es[0]);
      OverForGood(Apply(s, es[0]), es[1..], chain);
    }
  }

  /**
   Once a waiter of the chain has received a failure or a timeout - whichever of the two results it was
   that won the race - no run of the system starts an agent for that chain again.
   */
  lemma FailureEndsTheChain(s: State, es: seq<Event>, o: Outcome)
    requires Reachable(s) && Runs(s, es) && o in s.takes && o.res.ret != CL_OK
    ensures LaunchesOf(After(s, es).launches, o.chain) == LaunchesOf(s.launches, o.chain)
  {
    ReachableInv(s);
    assert OutcomeOk(s.tasks, o);
    OverForGood(s, es, o.chain);
  }

  // ---- accounting

  lemma CountedOnce(takes: seq<Outcome>, o: Outcome)
    requires forall i, j :: 0 <= i < j < |takes| ==> takes[i].run != takes[j].run
    requires o in takes
    ensures multiset(takes)[o] == 1
  {
    var n := |takes| - 1;
    assert takes == takes[..n] + [takes[n]];
    if takes[n] == o {
      assert o !in takes[..n];
    } else {
      CountedOnce(takes[..n], o);
    }
  }

  /**
   Every run is either waited for or has been answered exactly once, and every answer is in exactly one
   place: reported on rscOp_ch, suppressed, or in the hands of the goroutine that is judging it.
   */
  lemma ExactlyOneAnswer(s: State)
    requires Reachable(s)
    ensures forall r :: r in s.runs ==>
      (WaitsFor(s.threads, s.runs, s.runs[r].waiter, r) <==> !Answered(s.takes, r))
    ensures forall i, j :: 0 <= i < j < |s.takes| ==> s.takes[i].run != s.takes[j].run
    ensures forall o :: o in s.takes ==>
      multiset(s.posts)[o] + multiset(s.drops)[o] + multiset(Undecided(s.threads))[o] == 1
    ensures |s.takes| == |s.posts| + |s.drops| + |Undecided(s.threads)|
  {
    ReachableInv(s);
    forall o | o in s.takes
      ensures multiset(s.posts)[o] + multiset(s.drops)[o] + multiset(Undecided(s.threads))[o] == 1
    {
      CountedOnce(s.takes, o);
    }
    assert |multiset(s.takes)| == |multiset(s.posts)| + |multiset(s.drops)| + |multiset(Undecided(s.threads))|;
  }

  // ---- correlation

  /** Reply i answers a dispatched request and carries its number, resource, operation and agent name. */
  lemma ReplyCarriesItsNumber(s: State, i: nat)
    requires Reachable(s) && i < |s.replies|
    ensures i < |s.posts| && s.posts[i].chain < |s.tasks|
    ensures var task := s.tasks[s.posts[i].chain];
      s.replies[i].head == Header(task.seqno, CONTROLLER_ID, RMANAGER_ID, MESSAGE_ID_RESOUCE_RESPONSE) &&
      s.replies[i].body == Response(task.rscid, task.op, task.rsc, s.posts[i].res.ret)
    ensures s.posts[i].res.ret == CL_OK || s.posts[i].res.ret == CL_ERROR
  {
    ReachableInv(s);
    assert s.replies[i] == (s.replies + RepliesTo(s.reports))[i] == ReplyOf(s.posts[i].res);
    assert s.posts[i] in multiset(s.takes);
    assert OutcomeOk(s.tasks, s.posts[i]);
  }
}
