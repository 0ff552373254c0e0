/**
 Stopping a resource (rmanager/rman.go, isRscStop and the callback of setMonitor).

 A recorded stop is a barrier: once nothing that can repeat but the stop itself is under way for the
 resource, no old timer can start its agent again.  Repetition shows that the qualification is exact.
 */
module StopBarrier {
  import opened Messages
  import opened Options
  import opened Records
  import opened Engine
  import opened EngineInvariants
  import opened EngineAccounts

  /** The agent of a waiting goroutine has not been started yet. */
  ghost predicate Unstarted(runs: map<nat, Run>, th: Thread) {
    th.pc.Waiting? && th.pc.run in runs && runs[th.pc.run].proc == Spawned
  }

  /** The goroutine has passed the stop check and its launch is still to come. */
  ghost predicate BeforeLaunch(runs: map<nat, Run>, th: Thread) {
    th.pc.Enter? || th.pc.Enrol? || th.pc.Sleep? || Unstarted(runs, th)
  }

  /** The finish result of the run is, or can still become, a success. */
  ghost predicate MaySucceed(run: Run) {
    match run.proc
    case Exited(ret) => ret == CL_OK
    case Reaped(ret) => ret == CL_OK
    case Counted(ret, _) => ret == CL_OK
    case Gone => exists m :: m in run.fin && m.ret == CL_OK
    case _ => true
  }

  /** The goroutine is past its launch and can still call setMonitor, or is inside it. */
  ghost predicate MayRepeat(runs: map<nat, Run>, th: Thread) {
    th.task.interval > 0 &&
    match th.pc
    case Waiting(r) => r in runs && MaySucceed(runs[r])
    case Taken(_, res) => res.ret == CL_OK
    case Posting(_, res, _) => res.ret == CL_OK
    case Rearm(res) => res.ret == CL_OK
    case Arming => true
    case Armed(_) => true
    case _ => false
  }

  /** A goroutine that neither starts an agent nor repeats one. */
  ghost predicate Spent(runs: map<nat, Run>, th: Thread) {
    !th.pc.Fired? && !BeforeLaunch(runs, th) && !MayRepeat(runs, th)
  }

  /** Only the stop itself, spent goroutines and callbacks still to make their stop check are left. */
  ghost predicate Quiet(threads: map<nat, Thread>, runs: map<nat, Run>, rscid: int) {
    forall t :: t in threads && threads[t].task.rscid == rscid ==>
      threads[t].pc.Fired? || threads[t].task.op == "stop" || Spent(runs, threads[t])
  }

  ghost predicate Barrier(s: State, rscid: int) {
    Stopped(s.table, rscid) && Quiet(s.threads, s.runs, rscid)
  }

  ghost function Pending(threads: map<nat, Thread>, runs: map<nat, Run>, rscid: int): set<nat> {
    set t | t in threads && threads[t].task.rscid == rscid && BeforeLaunch(runs, threads[t])
  }

  ghost function LaunchCount(launches: seq<Launch>, rscid: int): nat {
    if launches == [] then 0
    else LaunchCount(launches[..|launches| - 1], rscid) + (if launches[|launches| - 1].rscid == rscid then 1 else 0)
  }

  /** No request for the resource is dispatched during the run. */
  ghost predicate NoRequest(s: State, es: seq<Event>, rscid: int)
    requires Runs(s, es)
    decreases es
  {
    es == [] ||
    ((es[0].Dispatch? ==> s.requests[0].body.request.rscid != rscid) && NoRequest(Apply(s, es[0]), es[1..], rscid))
  }

  lemma StoppedAdvance(s: State, t: nat, late: bool, rscid: int)
    requires Tied(s) && Barrier(s, rscid) && CanAdvance(s, t, late)
    ensures Stopped(Advanced(s, t, late).table, rscid)
  {
    assert ThreadOk(s.tasks, s.threads[t]);
    assert Stopped(NextTable(s.table, s.threads[t]), rscid);
  }

  /** A step of one goroutine leaves the prospects of the others as they are. */
  lemma OthersAdvance(s: State, t: nat, late: bool, u: nat)
    requires Tied(s) && Waits(s.threads, s.runs) && CanAdvance(s, t, late) && u in s.threads && u != t
    ensures var s' := Advanced(s, t, late);
      u in s'.threads && s'.threads[u] == s.threads[u] &&
      BeforeLaunch(s'.runs, s.threads[u]) == BeforeLaunch(s.runs, s.threads[u]) &&
      MayRepeat(s'.runs, s.threads[u]) == MayRepeat(s.runs, s.threads[u])
  {
    if s.threads[u].pc.Waiting? {
      assert WaitsFor(s.threads, s.runs, u, s.threads[u].pc.run);
    }
  }

  /** A run that cannot succeed any more gives its waiter a failure. */
  lemma SpentResult(s: State, t: nat, late: bool)
    requires Tied(s) && Waits(s.threads, s.runs) && CanAdvance(s, t, late) && s.threads[t].pc.Waiting?
    ensures !MaySucceed(s.runs[s.threads[t].pc.run]) ==> Received(s.runs[s.threads[t].pc.run], late).ret != CL_OK
    ensures !BeforeLaunch(s.runs, s.threads[t])
  {
    var r := s.threads[t].pc.run;
    assert WaitsFor(s.threads, s.runs, t, r) && RunOk(s.tasks, s.runs[r]);
  }

  lemma SpentNext(s: State, t: nat, late: bool, runs: map<nat, Run>)
    requires Tied(s) && Waits(s.threads, s.runs) && CanAdvance(s, t, late)
    requires Spent(s.runs, s.threads[t]) || s.threads[t].pc.Armed?
    ensures var pc := NextPc(s, t, late); pc.Some? ==> Spent(runs, s.threads[t].(pc := pc.value))
  {
    if s.threads[t].pc.Waiting? {
      SpentResult(s, t, late);
    }
  }

  /** A spent goroutine stays spent. */
  lemma SpentAdvance(s: State, t: nat, late: bool)
    requires Tied(s) && Waits(s.threads, s.runs) && CanAdvance(s, t, late)
    requires Spent(s.runs, s.threads[t]) || s.threads[t].pc.Armed?
    ensures var s' := Advanced(s, t, late);
      t in s'.threads ==> s'.threads[t].task == s.threads[t].task && Spent(s'.runs, s'.threads[t])
    ensures NextTimers(s, s.threads[t]) == s.timers
  {
    SpentNext(s, t, late, Advanced(s, t, late).runs);
  }

  /** A goroutine for the resource stays quiet, and is before a launch only if it was. */
  lemma SelfAdvance(s: State, t: nat, late: bool, rscid: int)
    requires Tied(s) && Waits(s.threads, s.runs) && Barrier(s, rscid) && CanAdvance(s, t, late)
    requires s.threads[t].task.rscid == rscid
    ensures var s' := Advanced(s, t, late);
      t in s'.threads ==>
        (s'.threads[t].task == s.threads[t].task && !s'.threads[t].pc.Fired? &&
         (s'.threads[t].task.op == "stop" || Spent(s'.runs, s'.threads[t])) &&
         (BeforeLaunch(s'.runs, s'.threads[t]) ==> BeforeLaunch(s.runs, s.threads[t])))
  {
    if Spent(s.runs, s.threads[t]) {
      SpentAdvance(s, t, late);
    }
  }

  lemma BarrierAdvance(s: State, t: nat, late: bool, rscid: int)
    requires Tied(s) && Waits(s.threads, s.runs) && Barrier(s, rscid) && CanAdvance(s, t, late)
    ensures Barrier(Advanced(s, t, late), rscid)
    ensures var s' := Advanced(s, t, late); Pending(s'.threads, s'.runs, rscid) <= Pending(s.threads, s.runs, rscid)
  {
    var s' := Advanced(s, t, late);
    StoppedAdvance(s, t, late, rscid);
    forall u | u in s'.threads && s'.threads[u].task.rscid == rscid
      ensures s'.threads[u].pc.Fired? || s'.threads[u].task.op == "stop" || Spent(s'.runs, s'.threads[u])
      ensures BeforeLaunch(s'.runs, s'.threads[u]) ==>
        u in s.threads && BeforeLaunch(s.runs, s.threads[u]) && s.threads[u].task.rscid == rscid
    {
      if u == t { SelfAdvance(s, t, late, rscid); } else { OthersAdvance(s, t, late, u); }
    }
  }

  /** Nothing gives a failed run its success back. */
  lemma SuccessFades(run: Run, now: int, table: Table, act: Act)
    requires CanAct(run, now, act) && MaySucceed(ActOn(run, now, table, act))
    requires run.proc != Gone ==> run.fin == []
    ensures MaySucceed(run)
  {
  }

  lemma SpentProcess(s: State, r: nat, act: Act, t: nat)
    requires Tied(s) && Enabled(s, Process(r, act)) && t in s.threads && Spent(s.runs, s.threads[t])
    ensures Spent(Processed(s, r, act).runs, s.threads[t])
  {
    if s.threads[t].pc == Waiting(r) && MaySucceed(ActOn(s.runs[r], s.now, s.table, act)) {
      assert RunOk(s.tasks, s.runs[r]);
      SuccessFades(s.runs[r], s.now, s.table, act);
    }
  }

  lemma BarrierProcess(s: State, r: nat, act: Act, rscid: int)
    requires Tied(s) && Waits(s.threads, s.runs) && Barrier(s, rscid) && Enabled(s, Process(r, act))
    ensures Barrier(Processed(s, r, act), rscid)
    ensures var s' := Processed(s, r, act); Pending(s'.threads, s'.runs, rscid) <= Pending(s.threads, s.runs, rscid)
    ensures var s' := Processed(s, r, act); act.Start? && s.runs[r].task.rscid == rscid ==>
      var t := s.runs[r].waiter; t in Pending(s.threads, s.runs, rscid) && t !in Pending(s'.threads, s'.runs, rscid)
  {
    forall t | t in s.threads && Spent(s.runs, s.threads[t]) ensures Spent(Processed(s, r, act).runs, s.threads[t]) {
      SpentProcess(s, r, act, t);
    }
    if act.Start? {
      assert WaitsFor(s.threads, s.runs, s.runs[r].waiter, r);
      assert RunOk(s.tasks, s.runs[r]);
      assert ThreadOk(s.tasks, s.threads[s.runs[r].waiter]);
    }
  }

  lemma BarrierOther(s: State, e: Event, rscid: int)
    requires Tied(s) && Waits(s.threads, s.runs) && Barrier(s, rscid) && Enabled(s, e) && !e.Advance? && !e.Process?
    requires e.Dispatch? ==> s.requests[0].body.request.rscid != rscid
    ensures Barrier(Apply(s, e), rscid)
    ensures Pending(Apply(s, e).threads, Apply(s, e).runs, rscid) <= Pending(s.threads, s.runs, rscid)
    ensures Apply(s, e).launches == s.launches
  {
  }

  /** Launches so far and launches to come. */
  ghost function Account(s: State, rscid: int): nat {
    LaunchCount(s.launches, rscid) + |Pending(s.threads, s.runs, rscid)|
  }

  lemma AccountProcess(s: State, r: nat, act: Act, rscid: int)
    requires Tied(s) && Waits(s.threads, s.runs) && Barrier(s, rscid) && Enabled(s, Process(r, act))
    ensures Account(Processed(s, r, act), rscid) <= Account(s, rscid)
  {
    var s' := Processed(s, r, act);
    var p, p' := Pending(s.threads, s.runs, rscid), Pending(s'.threads, s'.runs, rscid);
    BarrierProcess(s, r, act, rscid);
    assert act.Start? ==> s'.launches[..|s.launches|] == s.launches;
    Subset(p', if act.Start? && s.runs[r].task.rscid == rscid then p - {s.runs[r].waiter} else p);
  }

  /** The barrier stands, and launches only use up what was pending. */
  lemma BarrierStep(s: State, e: Event, rscid: int)
    requires Tied(s) && Waits(s.threads, s.runs) && Barrier(s, rscid) && Enabled(s, e)
    requires e.Dispatch? ==> s.requests[0].body.request.rscid != rscid
    ensures Barrier(Apply(s, e), rscid)
    ensures var s' := Apply(s, e);
      LaunchCount(s'.launches, rscid) + |Pending(s'.threads, s'.runs, rscid)|
        <= LaunchCount(s.launches, rscid) + |Pending(s.threads, s.runs, rscid)|
  {
    var s' := Apply(s, e);
    if e.Process? {
      BarrierProcess(s, e.run, e.act, rscid);
      AccountProcess(s, e.run, e.act, rscid);
    } else {
      if e.Advance? { BarrierAdvance(s, e.thread, e.late, rscid); } else { BarrierOther(s, e, rscid); }
      Subset(Pending(s'.threads, s'.runs, rscid), Pending(s.threads, s.runs, rscid));
    }
  }

  lemma Subset(a: set<nat>, b: set<nat>)
    requires a <= b
    ensures |a| <= |b|
  {
    assert b == a + (b - a);
  }

  /**
   Behind the barrier only what was already on its way is started: at most one agent for each goroutine
   of the stop that had not started its own, and none at all when the stop has started its agent.
   */
  lemma {:induction false} StopIsABarrier(s: State, es: seq<Event>, rscid: int)
    requires Inv(s) && Barrier(s, rscid) && Runs(s, es) && NoRequest(s, es, rscid)
    ensures Barrier(After(s, es), rscid)
    ensures LaunchCount(After(s, es).launches, rscid) <=
      LaunchCount(s.launches, rscid) + |Pending(s.threads, s.runs, rscid)|
    decreases es
  {
    if es != [] {
      BarrierStep(s, es[0], rscid);
      InvStep(s, es[0]);
      StopIsABarrier(Apply(s, es[0]), es[1..], rscid);
    }
  }

  // ---- no launch at all

  ghost predicate Idle(runs: map<nat, Run>, th: Thread) {
    th.pc.Armed? || Spent(runs, th)
  }

  /** Nothing of the resource can ever move again but threads at their end or a record to be written. */
  ghost predicate Dormant(s: State, rscid: int) {
    (forall t :: t in s.threads && s.threads[t].task.rscid == rscid ==> Idle(s.runs, s.threads[t])) &&
    (forall m :: m in s.timers ==> s.timers[m].task.rscid != rscid)
  }

  /** Whatever is left of the resource dies out, or is held back by the recorded stop. */
  ghost predicate Settled(s: State, rscid: int) {
    Dormant(s, rscid) || (Barrier(s, rscid) && Pending(s.threads, s.runs, rscid) == {})
  }

  lemma DormantAdvance(s: State, t: nat, late: bool, rscid: int)
    requires Tied(s) && Waits(s.threads, s.runs) && Dormant(s, rscid) && CanAdvance(s, t, late)
    ensures Dormant(Advanced(s, t, late), rscid)
  {
    var s' := Advanced(s, t, late);
    forall u | u in s'.threads && s'.threads[u].task.rscid == rscid ensures Idle(s'.runs, s'.threads[u]) {
      if u == t { SpentAdvance(s, t, late); } else { OthersAdvance(s, t, late, u); }
    }
  }

  lemma DormantStep(s: State, e: Event, rscid: int)
    requires Tied(s) && Waits(s.threads, s.runs) && Dormant(s, rscid) && Enabled(s, e)
    requires e.Dispatch? ==> s.requests[0].body.request.rscid != rscid
    ensures Dormant(Apply(s, e), rscid)
    ensures LaunchCount(Apply(s, e).launches, rscid) == LaunchCount(s.launches, rscid)
  {
    match e
    case Advance(t, late) => DormantAdvance(s, t, late, rscid);
    case Process(r, act) =>
      forall t | t in s.threads && s.threads[t].task.rscid == rscid
        ensures Idle(Processed(s, r, act).runs, s.threads[t])
      {
        if Spent(s.runs, s.threads[t]) { SpentProcess(s, r, act, t); }
      }
      DormantLaunch(s, r, act, rscid);
    case _ =>
  }

  lemma DormantLaunch(s: State, r: nat, act: Act, rscid: int)
    requires Tied(s) && Waits(s.threads, s.runs) && Dormant(s, rscid) && Enabled(s, Process(r, act))
    ensures LaunchCount(Processed(s, r, act).launches, rscid) == LaunchCount(s.launches, rscid)
  {
    if act.Start? {
      assert WaitsFor(s.threads, s.runs, s.runs[r].waiter, r);
      assert RunOk(s.tasks, s.runs[r]) && ThreadOk(s.tasks, s.threads[s.runs[r].waiter]);
      assert Processed(s, r, act).launches[..|s.launches|] == s.launches;
    }
  }

  lemma {:induction false} DormantRun(s: State, es: seq<Event>, rscid: int)
    requires Inv(s) && Dormant(s, rscid) && Runs(s, es) && NoRequest(s, es, rscid)
    ensures LaunchCount(After(s, es).launches, rscid) == LaunchCount(s.launches, rscid)
    decreases es
  {
    if es != [] {
      DormantStep(s, es[0], rscid);
      InvStep(s, es[0]);
      DormantRun(Apply(s, es[0]), es[1..], rscid);
    }
  }

  lemma {:induction false} LaunchesOnlyGrow(s: State, es: seq<Event>, rscid: int)
    requires Runs(s, es)
    ensures LaunchCount(s.launches, rscid) <= LaunchCount(After(s, es).launches, rscid)
    decreases es
  {
    if es != [] {
      var s1 := Apply(s, es[0]);
      assert |s1.launches| > |s.launches| ==> s1.launches[..|s.launches|] == s.launches;
      LaunchesOnlyGrow(s1, es[1..], rscid);
    }
  }

  lemma SettledRun(s: State, es: seq<Event>, rscid: int)
    requires Inv(s) && Settled(s, rscid) && Runs(s, es) && NoRequest(s, es, rscid)
    ensures LaunchCount(After(s, es).launches, rscid) == LaunchCount(s.launches, rscid)
  {
    if Dormant(s, rscid) {
      DormantRun(s, es, rscid);
    } else {
      StopIsABarrier(s, es, rscid);
      LaunchesOnlyGrow(s, es, rscid);
    }
  }
}
