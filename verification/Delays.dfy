/** The start delay of a request (rmanager/rman.go, ExecRscOp): no agent starts earlier, and one can start then. */
module Delays {
  import opened Ints
  import opened Messages
  import opened Engine
  import opened EngineInvariants
  import opened EngineAccounts
  import opened EngineTheorems
  import opened Driving
  import opened Launches
  import opened MonitorSpacing

  /** No agent of the chain has started before this moment, or is going to. */
  ghost predicate NotBefore(s: State, chain: nat, at: int) {
    (forall l :: l in s.launches && l.chain == chain ==> l.at >= at) &&
    (forall t :: t in s.threads && s.threads[t].chain == chain && ToLaunch(s.runs, s.threads[t]) ==>
      Earliest(s.now, s.threads[t]) >= at) &&
    (forall m :: m in s.timers && s.timers[m].chain == chain ==> s.timers[m].due + DelayOf(s.timers[m].task) >= at)
  }

  ghost predicate Asleep(s: State, chain: nat, from: int, task: Task) {
    Of(s.tasks, chain, task) && from <= s.now && NotBefore(s, chain, from + DelayOf(task))
  }

  lemma AsleepAdvance(s: State, t: nat, late: bool, chain: nat, from: int, task: Task)
    requires Tied(s) && Waits(s.threads, s.runs) && Asleep(s, chain, from, task) && CanAdvance(s, t, late)
    ensures Asleep(Advanced(s, t, late), chain, from, task)
  {
    var s', at := Advanced(s, t, late), from + DelayOf(task);
    forall u | u in s'.threads && s'.threads[u].chain == chain && ToLaunch(s'.runs, s'.threads[u])
      ensures Earliest(s.now, s'.threads[u]) >= at
    {
      if u != t {
        OthersUnstarted(s, t, late, u);
      } else if !s.threads[t].pc.Arming? {
        OwnStage(s, t, late);
      }
    }
    AsleepTimers(s, t, chain, from, task);
  }

  lemma AsleepTimers(s: State, t: nat, chain: nat, from: int, task: Task)
    requires Tied(s) && Asleep(s, chain, from, task) && t in s.threads
    ensures var timers := NextTimers(s, s.threads[t]);
      forall m :: m in timers && timers[m].chain == chain ==>
        timers[m].due + DelayOf(timers[m].task) >= from + DelayOf(task)
  {
    assert ThreadOk(s.tasks, s.threads[t]);
  }

  lemma AsleepProcess(s: State, r: nat, act: Act, chain: nat, from: int, task: Task)
    requires Tied(s) && Waits(s.threads, s.runs) && Asleep(s, chain, from, task) && Enabled(s, Process(r, act))
    ensures Asleep(Processed(s, r, act), chain, from, task)
  {
    var s' := Processed(s, r, act);
    if act.Start? {
      OnlyTheHolderLaunches(s, r);
    }
    forall u | u in s.threads && s.threads[u].chain == chain && ToLaunch(s'.runs, s.threads[u])
      ensures ToLaunch(s.runs, s.threads[u])
    {
      if act.Start? && u == s.runs[r].waiter {
        assert WaitsFor(s.threads, s.runs, u, r);
      } else {
        OthersProcess(s, r, act, u);
      }
    }
  }

  lemma AsleepStep(s: State, e: Event, chain: nat, from: int, task: Task)
    requires Tied(s) && Waits(s.threads, s.runs) && Asleep(s, chain, from, task) && Enabled(s, e)
    ensures Asleep(Apply(s, e), chain, from, task)
  {
    match e
    case Advance(t, late) => AsleepAdvance(s, t, late, chain, from, task);
    case Process(r, act) => AsleepProcess(s, r, act, chain, from, task);
    case _ =>
  }

  lemma {:induction false} AsleepRun(s: State, es: seq<Event>, chain: nat, from: int, task: Task)
    requires Inv(s) && Asleep(s, chain, from, task) && Runs(s, es)
    ensures Asleep(After(s, es), chain, from, task)
    decreases es
  {
    if es != [] {
      AsleepStep(s, es[0], chain, from, task);
      InvStep(s, es[0]);
      AsleepRun(Apply(s, es[0]), es[1..], chain, from, task);
    }
  }

  /** Nanoseconds the request wants its agent's start to be delayed. */
  function Wanted(m: Message): nat
    requires m.body.Control?
  {
    if m.body.request.delay > 0 then Pause(m.body.request.delay) else 0
  }

  lemma BeginsAsleep(s: State)
    requires Inv(s) && Listed(s) && Enabled(s, Dispatch)
    ensures Asleep(Dispatched(s), |s.tasks|, s.now, TaskOf(s.requests[0]))
    ensures DelayOf(TaskOf(s.requests[0])) == Wanted(s.requests[0])
  {
    forall l | l in s.launches ensures l.chain != |s.tasks| {
      assert IsOf(l, s.runs, s.now) && RunOk(s.tasks, s.runs[l.run]);
    }
    assert forall t :: t in s.threads ==> ThreadOk(s.tasks, s.threads[t]);
  }

  /** In every run no agent of a request starts before the delay has passed since the request was dispatched. */
  lemma DelayIsWaited(s: State, es: seq<Event>, l: Launch)
    requires Reachable(s) && Enabled(s, Dispatch) && Runs(Dispatched(s), es)
    requires l in After(Dispatched(s), es).launches && l.chain == |s.tasks|
    ensures l.at >= s.now + Wanted(s.requests[0])
  {
    ReachableListed(s);
    BeginsAsleep(s);
    InvStep(s, Dispatch);
    AsleepRun(Dispatched(s), es, |s.tasks|, s.now, TaskOf(s.requests[0]));
  }

  /** The goroutine of the request gets to its delay. */
  lemma FallsAsleep(s: State) returns (es: seq<Event>, s': State)
    requires Enabled(s, Dispatch)
    ensures Leads(Dispatched(s), es, s') && s'.launches == s.launches && s'.now == s.now && !s'.down
    ensures var task := TaskOf(s.requests[0]);
      s.next in s'.threads && s'.threads[s.next] == Thread(|s.tasks|, 0, task, Sleep(s.now + DelayOf(task)))
  {
    var s1, step := Dispatched(s), Advance(s.next, false);
    One(s1, step);
    es, s' := [step], Apply(s1, step);
    if s'.threads[s.next].pc.Enrol? {
      var s2 := s';
      One(s2, step);
      s' := Apply(s2, step);
      Then(s1, es, s2, [step], s');
      es := es + [step];
    }
  }

  lemma Wakes(s: State) returns (es: seq<Event>, s': State)
    requires Enabled(s, Dispatch)
    ensures Leads(Dispatched(s), es, s') && s'.launches == s.launches && !s'.down
    ensures s'.now == s.now + Wanted(s.requests[0])
    ensures s.next in s'.threads && s'.threads[s.next] == Thread(|s.tasks|, 0, TaskOf(s.requests[0]), Sleep(s'.now))
  {
    var s1, wait;
    es, s1 := FallsAsleep(s);
    wait := Tick(Wanted(s.requests[0]));
    One(s1, wait);
    s' := Apply(s1, wait);
    Then(Dispatched(s), es, s1, [wait], s');
    es := es + [wait];
  }

  /** And in some run its agent starts exactly then. */
  lemma DelayIsAttained(s: State) returns (es: seq<Event>)
    requires Reachable(s) && Enabled(s, Dispatch)
    ensures Runs(Dispatched(s), es)
    ensures var launches, n := After(Dispatched(s), es).launches, |s.launches|;
      |launches| == n + 1 && launches[n].chain == |s.tasks| && launches[n].at == s.now + Wanted(s.requests[0])
  {
    ReachableInv(s);
    var s';
    es, s' := Wakes(s);
    var spawn, s1 := Advance(s.next, false), Apply(s', Advance(s.next, false));
    var start := Process(s'.next, Start(0));
    One(s', spawn);
    Then(Dispatched(s), es, s', [spawn], s1);
    One(s1, start);
    Then(Dispatched(s), es + [spawn], s1, [start], Apply(s1, start));
    es := es + [spawn] + [start];
  }
}
