/**
 The timeout of an agent and its exit (rmanager/rman.go, the process goroutine of ExecRscOp and the select of
 waitChildFunc): when a timeout is received and what it kills, when it is not, and whose result an exit decides.
 */
module Timeouts {
  import opened Ints
  import opened Messages
  import opened Records
  import opened Engine
  import opened EngineInvariants
  import opened EngineAccounts
  import opened EngineTheorems
  import opened Launches
  import opened Requests
  import opened Driving
  import opened Scenarios

  // ---- not before its time

  /** The timeout of a run launched then expires no earlier than it says. */
  ghost predicate Timed(run: Run, at: int, now: int) {
    var due := at + Pause(run.task.timeout);
    (run.timeout.Ticking? ==> run.timeout.due >= due) &&
    (run.timeout == Expired || run.timeout == Sent ==> now >= due) &&
    (run.proc == Running || run.proc.Exited? ==> run.timeout != Unset && run.timeout != Cancelled) &&
    (run.late != [] ==> run.timeout == Sent) && forall k :: 0 <= k < |run.late| ==> run.late[k].pid == run.pid
  }

  ghost predicate AllTimed(s: State)
    requires Listed(s)
  {
    forall i :: 0 <= i < |s.launches| ==>
      IsOf(s.launches[i], s.runs, s.now) && Timed(s.runs[s.launches[i].run], s.launches[i].at, s.now)
  }

  lemma TimedAct(run: Run, at: int, now: int, table: Table, act: Act)
    requires CanAct(run, now, act) && !act.Start? && Timed(run, at, now) && at <= now
    requires run.proc == Started ==> run.timeout == Unset && run.late == []
    ensures Timed(ActOn(run, now, table, act), at, now)
  {
  }

  lemma TimedProcess(s: State, r: nat, act: Act)
    requires Tied(s) && Listed(s) && AllTimed(s) && Enabled(s, Process(r, act)) && Listed(Processed(s, r, act))
    ensures AllTimed(Processed(s, r, act))
  {
    var s' := Processed(s, r, act);
    assert RunOk(s.tasks, s.runs[r]);
    forall i | 0 <= i < |s'.launches|
      ensures IsOf(s'.launches[i], s'.runs, s'.now) && Timed(s'.runs[s'.launches[i].run], s'.launches[i].at, s'.now)
    {
      if i < |s.launches| {
        assert IsOf(s.launches[i], s.runs, s.now) && Timed(s.runs[s.launches[i].run], s.launches[i].at, s.now);
        if s.launches[i].run == r {
          TimedAct(s.runs[r], s.launches[i].at, s.now, s.table, act);
        }
      }
    }
  }

  lemma TimedAdvance(s: State, t: nat, late: bool)
    requires Tied(s) && Listed(s) && AllTimed(s) && CanAdvance(s, t, late) && Listed(Advanced(s, t, late))
    ensures AllTimed(Advanced(s, t, late))
  {
    var s' := Advanced(s, t, late);
    forall i | 0 <= i < |s'.launches|
      ensures IsOf(s'.launches[i], s'.runs, s'.now) && Timed(s'.runs[s'.launches[i].run], s'.launches[i].at, s'.now)
    {
      assert IsOf(s.launches[i], s.runs, s.now) && Timed(s.runs[s.launches[i].run], s.launches[i].at, s.now);
    }
  }

  lemma TimedStep(s: State, e: Event)
    requires Tied(s) && Listed(s) && AllTimed(s) && Enabled(s, e)
    ensures Listed(Apply(s, e)) && AllTimed(Apply(s, e))
  {
    ListedStep(s, e);
    match e
    case Advance(t, late) => TimedAdvance(s, t, late);
    case Process(r, act) => TimedProcess(s, r, act);
    case Tick(ns) =>
      forall i | 0 <= i < |s.launches|
        ensures IsOf(s.launches[i], s.runs, s.now + ns)
        ensures Timed(s.runs[s.launches[i].run], s.launches[i].at, s.now + ns)
      {
        assert IsOf(s.launches[i], s.runs, s.now) && Timed(s.runs[s.launches[i].run], s.launches[i].at, s.now);
      }
    case _ =>
  }

  // ---- one step and one run

  /** The waiter of run r receives a result of it. */
  ghost predicate Receives(s: State, e: Event, r: nat)
    requires Enabled(s, e)
  {
    e.Advance? && s.threads[e.thread].pc == Waiting(r)
  }

  lemma RunAdvances(s: State, t: nat, late: bool, r: nat)
    requires Tied(s) && CanAdvance(s, t, late) && r in s.runs
    ensures var run, runs' := s.runs[r], Advanced(s, t, late).runs;
      r in runs' && runs'[r] ==
        if s.threads[t].pc != Waiting(r) then run
        else if late then run.(late := run.late[1..]) else run.(fin := run.fin[1..])
  {
  }

  /** What a step makes of a run. */
  lemma RunSteps(s: State, e: Event, r: nat)
    requires Tied(s) && Enabled(s, e) && r in s.runs
    ensures var run, runs' := s.runs[r], Apply(s, e).runs;
      r in runs' && runs'[r] ==
        if e.Process? && e.run == r then ActOn(run, s.now, s.table, e.act)
        else if !Receives(s, e, r) then run
        else if e.late then run.(late := run.late[1..]) else run.(fin := run.fin[1..])
  {
    if e.Advance? { RunAdvances(s, e.thread, e.late, r); }
  }

  // ---- what is received and what is killed

  /** The timeout results received, oldest first. */
  ghost function Lates(takes: seq<Outcome>): seq<Outcome> {
    if takes == [] then []
    else
      var n := |takes| - 1;
      Lates(takes[..n]) + (if takes[n].late then [takes[n]] else [])
  }

  ghost predicate Killed(takes: seq<Outcome>, kills: seq<int>) {
    |kills| == |Lates(takes)| && forall k :: 0 <= k < |kills| ==> kills[k] == Lates(takes)[k].res.pid
  }

  /** Run r has sent its timeout result, under its pid. */
  ghost predicate TimedOut(runs: map<nat, Run>, r: nat, pid: int) {
    r in runs && runs[r].timeout == Sent && runs[r].proc != Spawned && runs[r].pid == pid
  }

  ghost predicate Fatal(s: State) {
    Killed(s.takes, s.kills) && forall o :: o in s.takes && o.late ==> TimedOut(s.runs, o.run, o.res.pid)
  }

  /** A finish result names its process. */
  ghost predicate Signed(run: Run) {
    forall res :: res in run.fin ==> res.pid == run.pid
  }

  ghost predicate AllSigned(runs: map<nat, Run>) {
    forall r :: r in runs ==> Signed(runs[r])
  }

  lemma SignedAct(run: Run, now: int, table: Table, act: Act)
    requires CanAct(run, now, act) && Signed(run) && (run.proc != Gone ==> run.fin == [])
    ensures Signed(ActOn(run, now, table, act))
  {
  }

  lemma SignedStep(s: State, e: Event)
    requires Tied(s) && AllSigned(s.runs) && Enabled(s, e)
    ensures AllSigned(Apply(s, e).runs)
  {
    forall r | r in Apply(s, e).runs ensures Signed(Apply(s, e).runs[r]) {
      if r in s.runs {
        RunSteps(s, e, r);
        assert Signed(s.runs[r]) && RunOk(s.tasks, s.runs[r]);
        if e.Process? && e.run == r { SignedAct(s.runs[r], s.now, s.table, e.act); }
      }
    }
  }

  /** The process goroutine of run r is gone; its process had this pid. */
  ghost predicate IsGone(runs: map<nat, Run>, r: nat, pid: int) {
    r in runs && runs[r].proc == Gone && runs[r].pid == pid
  }

  lemma StaysGone(s: State, e: Event, r: nat, pid: int)
    requires Tied(s) && Enabled(s, e) && IsGone(s.runs, r, pid)
    ensures IsGone(Apply(s, e).runs, r, pid)
  {
    RunSteps(s, e, r);
  }

  /** A finish result comes from a process goroutine that is gone. */
  ghost predicate Finished(s: State) {
    forall o :: o in s.takes && !o.late ==> IsGone(s.runs, o.run, o.res.pid)
  }

  lemma FinishedStep(s: State, e: Event)
    requires Tied(s) && AllSigned(s.runs) && Finished(s) && Enabled(s, e)
    ensures Finished(Apply(s, e))
  {
    if e.Advance? && s.threads[e.thread].pc.Waiting? && !e.late {
      var r := s.threads[e.thread].pc.run;
      assert RunOk(s.tasks, s.runs[r]) && Signed(s.runs[r]) && s.runs[r].fin[0] in s.runs[r].fin;
      StaysGone(s, e, r, s.runs[r].fin[0].pid);
    }
    forall o | o in s.takes && !o.late ensures IsGone(Apply(s, e).runs, o.run, o.res.pid) {
      StaysGone(s, e, o.run, o.res.pid);
    }
  }

  lemma LatesSnoc(takes: seq<Outcome>, o: Outcome)
    ensures Lates(takes + [o]) == Lates(takes) + (if o.late then [o] else [])
  {
    assert (takes + [o])[..|takes|] == takes;
  }

  /** The waiter of run r is about to receive its timeout result. */
  lemma LateIsTimedOut(s: State, r: nat)
    requires Tied(s) && Listed(s) && AllTimed(s) && r in s.runs && s.runs[r].late != []
    ensures TimedOut(s.runs, r, s.runs[r].late[0].pid)
  {
    assert RunOk(s.tasks, s.runs[r]);
    var i :| IsLaunch(s.launches, i, r);
    assert Timed(s.runs[r], s.launches[i].at, s.now);
  }

  lemma StaysTimedOut(s: State, e: Event, r: nat, pid: int)
    requires Tied(s) && Enabled(s, e) && TimedOut(s.runs, r, pid)
    ensures TimedOut(Apply(s, e).runs, r, pid)
  {
    RunSteps(s, e, r);
    assert RunOk(s.tasks, s.runs[r]);
  }

  lemma TakenIsFatal(s: State, t: nat, late: bool)
    requires Tied(s) && Listed(s) && AllTimed(s) && Fatal(s) && CanAdvance(s, t, late) && s.threads[t].pc.Waiting?
    ensures Killed(Advanced(s, t, late).takes, Advanced(s, t, late).kills)
    ensures late ==> TimedOut(s.runs, s.threads[t].pc.run, s.runs[s.threads[t].pc.run].late[0].pid)
  {
    var r := s.threads[t].pc.run;
    LatesSnoc(s.takes, Outcome(s.threads[t].chain, r, Received(s.runs[r], late), late));
    if late { LateIsTimedOut(s, r); }
  }

  lemma FatalStep(s: State, e: Event)
    requires Tied(s) && Listed(s) && AllTimed(s) && Fatal(s) && Enabled(s, e)
    ensures Fatal(Apply(s, e))
  {
    forall o | o in s.takes && o.late ensures TimedOut(Apply(s, e).runs, o.run, o.res.pid) {
      StaysTimedOut(s, e, o.run, o.res.pid);
    }
    if e.Advance? && s.threads[e.thread].pc.Waiting? {
      var r := s.threads[e.thread].pc.run;
      TakenIsFatal(s, e.thread, e.late);
      if e.late { StaysTimedOut(s, e, r, s.runs[r].late[0].pid); }
    }
  }

  ghost predicate Punctual(s: State) {
    Listed(s) && AllTimed(s) && Fatal(s) && AllSigned(s.runs) && Finished(s)
  }

  lemma {:induction false} PunctualRun(s: State, es: seq<Event>)
    requires Inv(s) && Punctual(s) && Runs(s, es)
    ensures Punctual(After(s, es))
    decreases es
  {
    if es != [] {
      FatalStep(s, es[0]);
      SignedStep(s, es[0]);
      FinishedStep(s, es[0]);
      TimedStep(s, es[0]);
      InvStep(s, es[0]);
      PunctualRun(Apply(s, es[0]), es[1..]);
    }
  }

  lemma ReachablePunctual(s: State)
    requires Reachable(s)
    ensures Inv(s) && Punctual(s)
  {
    ReachableInv(s);
    var es :| Runs(INIT, es) && After(INIT, es) == s;
    InvInit();
    PunctualRun(INIT, es);
  }

  /** The launch of a run that has timed out, which was long enough ago. */
  lemma ItsLaunch(s: State, r: nat, pid: int) returns (i: nat)
    requires Tied(s) && Listed(s) && AllTimed(s) && TimedOut(s.runs, r, pid)
    ensures i < |s.launches| && s.launches[i].run == r && s.launches[i].pid == pid
    ensures s.launches[i].chain == s.runs[r].chain < |s.tasks|
    ensures s.now >= s.launches[i].at + Pause(s.tasks[s.launches[i].chain].timeout)
  {
    i :| IsLaunch(s.launches, i, r);
    assert IsOf(s.launches[i], s.runs, s.now) && Timed(s.runs[r], s.launches[i].at, s.now);
    assert RunOk(s.tasks, s.runs[r]);
  }

  /**
   A waiter that can receive a timeout result receives it no earlier than the request's timeout after the
   launch of the very run it waits for; the same has passed since the launch behind every one received before.
   */
  lemma TimeoutIsNotEarly(es: seq<Event>, t: nat) returns (i: nat)
    requires Runs(INIT, es) && Enabled(After(INIT, es), Advance(t, true))
    requires After(INIT, es).threads[t].pc.Waiting?
    ensures var s, ms := After(INIT, es), Asked(es);
      i < |s.launches| && s.launches[i].run == s.threads[t].pc.run &&
      s.launches[i].chain == s.threads[t].chain < |ms| &&
      ms[s.launches[i].chain].body.Control? &&
      s.now >= s.launches[i].at + Pause(ms[s.launches[i].chain].body.request.timeout)
  {
    var s := After(INIT, es);
    var r := s.threads[t].pc.run;
    ReachablePunctual(s);
    assert WaitsFor(s.threads, s.runs, t, r);
    LateIsTimedOut(s, r);
    i := ItsLaunch(s, r, s.runs[r].late[0].pid);
    AgentsAreStartedAsAsked(es, i);
  }

  /**
   Every timeout result received kills one process, in order: the one that was started for its run, which by
   then has had the time the request gives it.
   */
  lemma TimedOutAgentsAreKilled(es: seq<Event>, k: nat) returns (i: nat)
    requires Runs(INIT, es)
    ensures var s := After(INIT, es); |s.kills| == |Lates(s.takes)|
    ensures var s, ms := After(INIT, es), Asked(es);
      k < |s.kills| ==>
        i < |s.launches| && s.launches[i].run == Lates(s.takes)[k].run && s.kills[k] == s.launches[i].pid &&
        s.launches[i].chain < |ms| && ms[s.launches[i].chain].body.Control? &&
        s.now >= s.launches[i].at + Pause(ms[s.launches[i].chain].body.request.timeout)
  {
    var s := After(INIT, es);
    ReachablePunctual(s);
    i := 0;
    if k < |s.kills| {
      LatesAreTaken(s.takes, k);
      i := ItsLaunch(s, Lates(s.takes)[k].run, s.kills[k]);
      AgentsAreStartedAsAsked(es, i);
    }
  }

  /** Every result received, finish or timeout, names the process that was started for its run. */
  lemma ResultsNameTheirProcess(es: seq<Event>, o: Outcome) returns (i: nat)
    requires Runs(INIT, es) && o in After(INIT, es).takes
    ensures var s := After(INIT, es);
      i < |s.launches| && s.launches[i].run == o.run && s.launches[i].pid == o.res.pid
  {
    var s := After(INIT, es);
    ReachablePunctual(s);
    assert o.run in s.runs && s.runs[o.run].proc != Spawned && s.runs[o.run].pid == o.res.pid;
    i :| IsLaunch(s.launches, i, o.run);
    assert IsOf(s.launches[i], s.runs, s.now);
  }

  lemma {:induction false} LatesAreTaken(takes: seq<Outcome>, k: nat)
    requires k < |Lates(takes)|
    ensures Lates(takes)[k] in takes && Lates(takes)[k].late
  {
    var n := |takes| - 1;
    if k < |Lates(takes[..n])| {
      LatesAreTaken(takes[..n], k);
    }
  }

  // ---- at its time

  /** An agent has just been started, with its timeout ticking. */
  lemma AgentTicks(m: Message, pid: int) returns (s: State, t: nat, r: nat)
    requires WellFormed(m)
    ensures Reachable(s) && !s.down && s.tasks == [TaskOf(m)] && s.takes == [] && s.kills == []
    ensures |s.launches| == 1 && s.launches[0].run == r && s.launches[0].pid == pid && s.launches[0].at == s.now
    ensures t in s.threads && s.threads[t].pc == Waiting(r)
    ensures r in s.runs && s.runs[r].timeout == Ticking(s.now + Pause(m.body.request.timeout))
    ensures s.runs[r].pid == pid && s.runs[r].late == []
  {
    t := INIT.next;
    Initially();
    s := IsDispatched(INIT, m);
    r := s.next;
    s := Reach(s, Advance(t, false));
    s := Reach(s, Process(r, Start(pid)));
    s := Reach(s, Process(r, SetTimeout));
  }

  /** Every request's agent can be timed out, under whatever pid, exactly its timeout after its launch. */
  lemma TimeoutIsAttained(m: Message, pid: int) returns (s: State)
    requires WellFormed(m)
    ensures Reachable(s) && |s.launches| == 1 && s.launches[0].pid == pid && s.tasks == [TaskOf(m)]
    ensures |s.takes| == 1 && s.takes[0].late && s.takes[0].run == s.launches[0].run && s.kills == [pid]
    ensures s.now == s.launches[0].at + Pause(m.body.request.timeout)
  {
    var t, r;
    s, t, r := AgentTicks(m, pid);
    s := Reach(s, Tick(Pause(m.body.request.timeout)));
    s := Reach(s, Process(r, Expire));
    s := Reach(s, Process(r, SendTimeout));
    s := Reach(s, Advance(t, true));
  }

  // ---- not after an exit in time

  ghost predicate NeverLate(s: State, r: nat) {
    r in s.runs && s.runs[r].timeout == Cancelled && s.runs[r].late == [] && s.runs[r].proc != Running &&
    s.runs[r].proc != Started && s.runs[r].proc != Spawned && forall o :: o in s.takes && o.late ==> o.run != r
  }

  /** A step that is neither of the run's process nor of its waiter receiving leaves the run and its results alone. */
  lemma OtherStep(s: State, e: Event, r: nat)
    requires Tied(s) && Enabled(s, e) && r in s.runs && !(e.Process? && e.run == r) && !Receives(s, e, r)
    ensures r in Apply(s, e).runs && Apply(s, e).runs[r] == s.runs[r]
    ensures forall o :: o in Apply(s, e).takes && o.run == r ==> o in s.takes
  {
    RunSteps(s, e, r);
  }

  lemma NeverLateAct(s: State, r: nat, act: Act)
    requires NeverLate(s, r) && Enabled(s, Process(r, act))
    ensures NeverLate(Processed(s, r, act), r)
  {
  }

  lemma NeverLateStep(s: State, e: Event, r: nat)
    requires Tied(s) && NeverLate(s, r) && Enabled(s, e)
    ensures NeverLate(Apply(s, e), r)
  {
    if e.Process? && e.run == r {
      NeverLateAct(s, r, e.act);
    } else if !Receives(s, e, r) {
      OtherStep(s, e, r);
    }
  }

  lemma {:induction false} NeverLateRun(s: State, es: seq<Event>, r: nat)
    requires Inv(s) && NeverLate(s, r) && Runs(s, es)
    ensures NeverLate(After(s, es), r)
    decreases es
  {
    if es != [] {
      NeverLateStep(s, es[0], r);
      InvStep(s, es[0]);
      NeverLateRun(Apply(s, es[0]), es[1..], r);
    }
  }

  /** Before its time the timeout of an exited agent still ticks. */
  lemma InTimeItTicks(run: Run, at: int, now: int)
    requires Timed(run, at, now) && run.proc.Exited? && now < at + Pause(run.task.timeout)
    ensures run.timeout.Ticking? && run.late == []
  {
  }

  lemma InTimeItTicked(s: State, r: nat, i: nat)
    requires Tied(s) && Listed(s) && AllTimed(s) && r in s.runs && s.runs[r].proc.Exited? && IsLaunch(s.launches, i, r)
    requires s.now < s.launches[i].at + Pause(s.tasks[s.runs[r].chain].timeout)
    ensures s.runs[r].timeout.Ticking? && s.runs[r].late == []
  {
    assert IsOf(s.launches[i], s.runs, s.now) && Timed(s.runs[r], s.launches[i].at, s.now);
    assert RunOk(s.tasks, s.runs[r]);
    InTimeItTicks(s.runs[r], s.launches[i].at, s.now);
  }

  lemma TickingIsNeverLate(s: State, r: nat)
    requires Fatal(s) && Enabled(s, Process(r, CancelTimeout)) && s.runs[r].timeout.Ticking? && s.runs[r].late == []
    ensures NeverLate(Processed(s, r, CancelTimeout), r)
  {
    assert forall o :: o in s.takes && o.late ==> TimedOut(s.runs, o.run, o.res.pid);
  }

  /**
   An agent whose exit is noticed before its timeout is due is never timed out: no timeout result of its run is
   received in any run of the engine from there on, or has been before, so nothing is killed for it.
   */
  lemma ExitInTimeIsNotTimedOut(s: State, r: nat, i: nat, es: seq<Event>)
    requires Reachable(s) && Enabled(s, Process(r, CancelTimeout)) && IsLaunch(s.launches, i, r)
    requires s.runs[r].chain < |s.tasks| && s.now < s.launches[i].at + Pause(s.tasks[s.runs[r].chain].timeout)
    requires Runs(Processed(s, r, CancelTimeout), es)
    ensures forall o :: o in After(Processed(s, r, CancelTimeout), es).takes && o.late ==> o.run != r
  {
    ReachablePunctual(s);
    InTimeItTicked(s, r, i);
    TickingIsNeverLate(s, r);
    InvStep(s, Process(r, CancelTimeout));
    NeverLateRun(Processed(s, r, CancelTimeout), es, r);
  }

  // ---- what an exit decides

  /** The run's process has exited with this result, and no finish result of it is any other. */
  ghost predicate Ends(s: State, r: nat, ret: int) {
    r in s.runs &&
    (match s.runs[r].proc
     case Exited(x) => x == ret
     case Reaped(x) => x == ret
     case Counted(x, _) => x == ret
     case Gone => forall res :: res in s.runs[r].fin ==> res.ret == ret
     case _ => false) &&
    forall o :: o in s.takes && o.run == r && !o.late ==> o.res.ret == ret
  }

  lemma EndsAct(s: State, r: nat, act: Act, ret: int)
    requires Tied(s) && Ends(s, r, ret) && Enabled(s, Process(r, act))
    ensures Ends(Processed(s, r, act), r, ret)
  {
    assert RunOk(s.tasks, s.runs[r]);
  }

  lemma EndsTaken(s: State, t: nat, late: bool, r: nat, ret: int)
    requires Tied(s) && Ends(s, r, ret) && CanAdvance(s, t, late) && s.threads[t].pc == Waiting(r)
    ensures Ends(Advanced(s, t, late), r, ret)
  {
    assert RunOk(s.tasks, s.runs[r]);
    if !late { assert s.runs[r].fin[0] in s.runs[r].fin; }
  }

  lemma EndsStep(s: State, e: Event, r: nat, ret: int)
    requires Tied(s) && Ends(s, r, ret) && Enabled(s, e)
    ensures Ends(Apply(s, e), r, ret)
  {
    if e.Process? && e.run == r {
      EndsAct(s, r, e.act, ret);
    } else if Receives(s, e, r) {
      EndsTaken(s, e.thread, e.late, r, ret);
    } else {
      OtherStep(s, e, r);
    }
  }

  lemma {:induction false} EndsRun(s: State, es: seq<Event>, r: nat, ret: int)
    requires Inv(s) && Ends(s, r, ret) && Runs(s, es)
    ensures Ends(After(s, es), r, ret)
    decreases es
  {
    if es != [] {
      EndsStep(s, es[0], r, ret);
      InvStep(s, es[0]);
      EndsRun(Apply(s, es[0]), es[1..], r, ret);
    }
  }

  /** The finish result of a run is the success, or the failure, that its agent has exited with. */
  lemma ExitDecidesTheResult(s: State, r: nat, ok: bool, es: seq<Event>)
    requires Reachable(s) && Enabled(s, Process(r, Exit(ok))) && Runs(Processed(s, r, Exit(ok)), es)
    ensures forall o :: o in After(Processed(s, r, Exit(ok)), es).takes && o.run == r && !o.late ==>
      o.res.ret == if ok then CL_OK else CL_ERROR
  {
    var s1, ret := Processed(s, r, Exit(ok)), if ok then CL_OK else CL_ERROR;
    ReachablePunctual(s);
    InvStep(s, Process(r, Exit(ok)));
    EndsRun(s1, es, r, ret);
  }
}
