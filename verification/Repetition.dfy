/**
 Runs that do happen.  A goroutine that can call setMonitor, or is inside it, goes on at exactly one
 period's distance even when a stop is recorded; so the qualification of StopBarrier is exact, and so is
 the condition under which launches keep their nominal distance.
 */
module Repetition {
  import opened Ints
  import opened Messages
  import opened Options
  import opened Records
  import opened Engine
  import opened EngineInvariants
  import opened EngineAccounts
  import opened EngineTheorems
  import opened Driving
  import opened Scenarios
  import opened StopBarrier
  import opened MonitorSpacing

  lemma FromSleep(s: State, t: nat) returns (es: seq<Event>)
    requires !s.down && t in s.threads && s.threads[t].pc.Sleep? && s.threads[t].pc.until <= s.now
    ensures NoDispatch(es) && Runs(s, es)
    ensures var th := s.threads[t];
      After(s, es).launches == s.launches + [LaunchBy(th, s.next, s.now)]
  {
    var s1 := Apply(s, Advance(t, false));
    var start := Process(s.next, Start(0));
    assert After(Apply(s1, start), []) == Apply(s1, start);
    Cons(s1, start, []);
    Cons(s, Advance(t, false), [start] + []);
    es := [Advance(t, false)] + ([start] + []);
  }

  lemma FromEnter(s: State, t: nat) returns (es: seq<Event>)
    requires !s.down && t in s.threads && s.threads[t].pc.Enter? && s.threads[t].task.interval != 0
    ensures NoDispatch(es) && Runs(s, es)
    ensures var th := s.threads[t];
      After(s, es).launches == s.launches + [LaunchBy(th, s.next, s.now + DelayOf(th.task))]
  {
    var wait := Tick(DelayOf(s.threads[t].task));
    var s1 := Apply(s, Advance(t, false));
    var s2 := Apply(s1, wait);
    es := FromSleep(s2, t);
    Cons(s1, wait, es);
    Cons(s, Advance(t, false), [wait] + es);
    es := [Advance(t, false)] + ([wait] + es);
  }

  lemma FromFired(s: State, t: nat) returns (es: seq<Event>)
    requires !s.down && t in s.threads && s.threads[t].pc.Fired? && s.threads[t].task.interval != 0
    requires !Stopped(s.table, s.threads[t].task.rscid)
    ensures NoDispatch(es) && Runs(s, es)
    ensures var th := s.threads[t];
      After(s, es).launches == s.launches + [LaunchBy(th, s.next, s.now + DelayOf(th.task))]
  {
    es := FromEnter(Apply(s, Advance(t, false)), t);
    Cons(s, Advance(t, false), es);
    es := [Advance(t, false)] + es;
  }

  lemma FromTimer(s: State, m: nat) returns (es: seq<Event>)
    requires !s.down && m in s.timers && s.timers[m].task.interval != 0
    requires !Stopped(s.table, s.timers[m].task.rscid)
    ensures NoDispatch(es) && Runs(s, es)
    ensures var tm := s.timers[m];
      After(s, es).launches == s.launches +
        [LaunchBy(Thread(tm.chain, tm.rep, tm.task, Fired), s.next + 1, Max(s.now, tm.due) + DelayOf(tm.task))]
  {
    var wait := Tick(Max(0, s.timers[m].due - s.now));
    var s1 := Apply(s, wait);
    es := FromFired(Apply(s1, Fire(m)), s.next);
    Cons(s1, Fire(m), es);
    Cons(s, wait, [Fire(m)] + es);
    es := [wait] + ([Fire(m)] + es);
  }

  /**
   Whatever is recorded of the resource - a stop, too - a goroutine inside setMonitor can write its second
   record, and then the agent starts again exactly one period from now, without any new request.
   */
  lemma HalfDoneSetMonitorRepeats(s: State, t: nat) returns (es: seq<Event>)
    requires !s.down && t in s.threads && s.threads[t].pc.Arming? && s.threads[t].task.interval > 0
    requires s.threads[t].task.op != "stop"
    ensures NoDispatch(es) && Runs(s, es)
    ensures var th := s.threads[t];
      After(s, es).launches == s.launches + [LaunchBy(th.(rep := th.rep + 1), s.next + 2, s.now + Period(th.task))]
  {
    var step := Advance(t, false);
    var s1 := Apply(s, step);
    var s2 := Apply(s1, step);
    es := FromTimer(s2, s.next);
    Cons(s1, step, es);
    Cons(s, step, [step] + es);
    es := [step] + ([step] + es);
  }

  // ---- every goroutine that may launch or repeat does so in some run

  /** Without a new request, the run starts one more agent, for resource rscid. */
  ghost predicate Restarts(s: State, es: seq<Event>, rscid: int) {
    NoDispatch(es) && Runs(s, es) &&
    var n, launches := |s.launches|, After(s, es).launches;
    |launches| == n + 1 && launches[..n] == s.launches && launches[n].rscid == rscid
  }

  /** Only thread t has moved, and neither an agent nor a timer was started or stopped. */
  ghost predicate OnlyMoved(s: State, s': State, t: nat) {
    s'.launches == s.launches && s'.timers == s.timers && s'.down == s.down &&
    (forall u :: u in s.threads && u != t ==> u in s'.threads && s'.threads[u] == s.threads[u])
  }

  lemma Sooner(s: State, a: seq<Event>, s1: State, es: seq<Event>, rscid: int)
    requires Leads(s, a, s1) && s1.launches == s.launches && Restarts(s1, es, rscid)
    ensures Restarts(s, a + es, rscid)
  {
    Concat(s, a, es);
  }

  lemma LaunchesBefore(s: State, t: nat) returns (es: seq<Event>)
    requires !s.down && t in s.threads && BeforeLaunch(s.runs, s.threads[t])
    requires var th := s.threads[t]; th.pc.Waiting? ==> s.runs[th.pc.run].task.rscid == th.task.rscid
    ensures Restarts(s, es, s.threads[t].task.rscid)
    decreases match s.threads[t].pc case Enter => 3 case Enrol => 2 case Sleep(_) => 1 case _ => 0
  {
    var th := s.threads[t];
    if th.pc.Waiting? {
      es := [Process(th.pc.run, Start(0))];
      One(s, es[0]);
    } else if th.pc.Sleep? {
      var wait := Tick(Max(0, th.pc.until - s.now));
      es := FromSleep(Apply(s, wait), t);
      One(s, wait);
      Sooner(s, [wait], Apply(s, wait), es, th.task.rscid);
      es := [wait] + es;
    } else {
      var step := Advance(t, false);
      es := LaunchesBefore(Apply(s, step), t);
      One(s, step);
      Sooner(s, [step], Apply(s, step), es, th.task.rscid);
      es := [step] + es;
    }
  }

  /** A run that may succeed can put a success in its finish channel. */
  lemma FinishesWell(s: State, r: nat) returns (es: seq<Event>, s': State)
    requires !s.down && Tied(s) && r in s.runs && s.runs[r].proc != Spawned && MayEnd(s.runs[r], true)
    ensures Leads(s, es, s') && s' == s.(runs := s'.runs)
    ensures r in s'.runs && s'.runs[r].proc == Gone && MayEnd(s'.runs[r], true)
    decreases ToGo(s.runs[r])
  {
    es, s' := [], s;
    if s.runs[r].proc != Gone {
      var s1;
      es, s1 := OneAct(s, r);
      var rest;
      rest, s' := FinishesWell(s1, r);
      Then(s, es, s1, rest, s');
      es := es + rest;
    }
  }

  lemma OneAct(s: State, r: nat) returns (es: seq<Event>, s': State)
    requires !s.down && Tied(s) && r in s.runs && MayEnd(s.runs[r], true)
    requires s.runs[r].proc != Spawned && s.runs[r].proc != Gone
    ensures Leads(s, es, s') && Tied(s') && s' == s.(runs := s'.runs)
    ensures r in s'.runs && s'.runs[r].proc != Spawned && MayEnd(s'.runs[r], true) && ToGo(s'.runs[r]) < ToGo(s.runs[r])
  {
    assert RunOk(s.tasks, s.runs[r]);
    var act := NextAct(s.runs[r], true);
    NextActHelps(s.runs[r], s.now, s.table, true);
    TiedProcess(s, r, act);
    One(s, Process(r, act));
    es, s' := [Process(r, act)], Processed(s, r, act);
  }

  /** ... and its waiter receives it. */
  lemma RunSucceeds(s: State, t: nat) returns (es: seq<Event>, s': State)
    requires !s.down && Tied(s) && t in s.threads && s.threads[t].pc.Waiting? && s.threads[t].pc.run in s.runs
    requires var run := s.runs[s.threads[t].pc.run]; run.proc != Spawned && MaySucceed(run)
    ensures Leads(s, es, s') && OnlyMoved(s, s', t) && s'.reports == s.reports
    ensures t in s'.threads && s'.threads[t].pc.Taken? && s'.threads[t].pc.res.ret == CL_OK
    ensures s'.threads[t] == s.threads[t].(pc := s'.threads[t].pc)
  {
    assert RunOk(s.tasks, s.runs[s.threads[t].pc.run]);
    var s1;
    es, s1 := FinishesWell(s, s.threads[t].pc.run);
    var step := Advance(t, false);
    s' := Apply(s1, step);
    One(s1, step);
    Then(s, es, s1, [step], s');
    es := es + [step];
  }

  /** The thread has reported, or there is room for its report. */
  ghost predicate MayReport(s: State, th: Thread) {
    |s.reports| < CHANNEL_CAPACITY || th.pc.Rearm? || th.pc.Arming?
  }

  /** A thread past its launch that may repeat gets inside setMonitor. */
  lemma GetsInside(s: State, t: nat) returns (es: seq<Event>, s': State)
    requires !s.down && Tied(s) && t in s.threads && MayReport(s, s.threads[t])
    requires MayRepeat(s.runs, s.threads[t]) && !BeforeLaunch(s.runs, s.threads[t]) && !s.threads[t].pc.Armed?
    ensures Leads(s, es, s') && OnlyMoved(s, s', t)
    ensures t in s'.threads && s'.threads[t] == s.threads[t].(pc := Arming)
  {
    if s.threads[t].pc.Waiting? {
      var s1;
      es, s1 := RunSucceeds(s, t);
      var rest;
      rest, s' := FromResult(s1, t);
      Concat(s, es, rest);
      es := es + rest;
    } else {
      es, s' := FromResult(s, t);
    }
  }

  lemma FromResult(s: State, t: nat) returns (es: seq<Event>, s': State)
    requires !s.down && t in s.threads && s.threads[t].task.interval > 0
    requires var pc := s.threads[t].pc;
      pc.Arming? || ((pc.Taken? || pc.Posting? || pc.Rearm?) && pc.res.ret == CL_OK)
    requires MayReport(s, s.threads[t])
    ensures Leads(s, es, s') && OnlyMoved(s, s', t)
    ensures t in s'.threads && s'.threads[t] == s.threads[t].(pc := Arming)
    decreases match s.threads[t].pc case Taken(_, _) => 3 case Posting(_, _, _) => 2 case Rearm(_) => 1 case _ => 0
  {
    if s.threads[t].pc.Arming? {
      es, s' := [], s;
    } else {
      var step := Advance(t, false);
      es, s' := FromResult(Apply(s, step), t);
      Cons(s, step, es);
      es := [step] + es;
    }
  }

  /** A goroutine other than the stop's that gets inside setMonitor starts its agent again. */
  lemma RepeatsAlone(s: State, t: nat) returns (es: seq<Event>)
    requires !s.down && Tied(s) && t in s.threads && MayReport(s, s.threads[t]) && s.threads[t].task.op != "stop"
    requires MayRepeat(s.runs, s.threads[t]) && !BeforeLaunch(s.runs, s.threads[t]) && !s.threads[t].pc.Armed?
    ensures Restarts(s, es, s.threads[t].task.rscid)
  {
    var a, s1 := GetsInside(s, t);
    es := HalfDoneSetMonitorRepeats(s1, t);
    Sooner(s, a, s1, es, s.threads[t].task.rscid);
    es := a + es;
  }

  /** A goroutine about to write its second record, which is no stop, revives any timer of its resource. */
  lemma RevivesTimer(s: State, t: nat, m: nat) returns (es: seq<Event>)
    requires !s.down && t in s.threads && s.threads[t].pc.Armed? && s.threads[t].task.op != "stop"
    requires m in s.timers && s.timers[m].task.rscid == s.threads[t].task.rscid && s.timers[m].task.interval != 0
    ensures Restarts(s, es, s.threads[t].task.rscid)
  {
    var step := Advance(t, false);
    One(s, step);
    es := FromTimer(Apply(s, step), m);
    Sooner(s, [step], Apply(s, step), es, s.threads[t].task.rscid);
    es := [step] + es;
  }

  /** ... any callback that has not made its stop check yet ... */
  lemma RevivesCallback(s: State, t: nat, u: nat) returns (es: seq<Event>)
    requires !s.down && t in s.threads && s.threads[t].pc.Armed? && s.threads[t].task.op != "stop"
    requires u in s.threads && s.threads[u].pc.Fired? && s.threads[u].task.rscid == s.threads[t].task.rscid
    requires s.threads[u].task.interval != 0
    ensures Restarts(s, es, s.threads[t].task.rscid)
  {
    var step := Advance(t, false);
    One(s, step);
    es := FromFired(Apply(s, step), u);
    Sooner(s, [step], Apply(s, step), es, s.threads[t].task.rscid);
    es := [step] + es;
  }

  /** ... and whatever still gets inside setMonitor, the stop itself included. */
  lemma RevivesRepeater(s: State, t: nat, u: nat) returns (es: seq<Event>)
    requires !s.down && Tied(s) && u != t
    requires t in s.threads && s.threads[t].pc.Armed? && s.threads[t].task.op != "stop"
    requires u in s.threads && s.threads[u].task.rscid == s.threads[t].task.rscid
    requires MayRepeat(s.runs, s.threads[u]) && !BeforeLaunch(s.runs, s.threads[u]) && !s.threads[u].pc.Armed?
    requires MayReport(s, s.threads[u])
    ensures Restarts(s, es, s.threads[t].task.rscid)
  {
    var a, s1 := GetsInside(s, u);
    var step := Advance(u, false);
    One(s1, step);
    es := RevivesTimer(Apply(s1, step), t, s1.next);
    Sooner(s1, [step], Apply(s1, step), es, s.threads[t].task.rscid);
    es := [step] + es;
    Sooner(s, a, s1, es, s.threads[t].task.rscid);
    es := a + es;
  }

  // ---- the barrier is exact

  lemma PendingLaunches(s: State, rscid: int, t: nat) returns (es: seq<Event>)
    requires !s.down && Tied(s) && Waits(s.threads, s.runs) && t in Pending(s.threads, s.runs, rscid)
    ensures Restarts(s, es, rscid)
  {
    var th := s.threads[t];
    if th.pc.Waiting? {
      assert WaitsFor(s.threads, s.runs, t, th.pc.run) && RunOk(s.tasks, s.runs[th.pc.run]) && ThreadOk(s.tasks, th);
    }
    es := LaunchesBefore(s, t);
  }

  ghost predicate OneOf(s: State, rscid: int, t: nat) {
    t in s.threads && s.threads[t].task.rscid == rscid
  }

  /** Goroutine u can still be revived by a record that is no stop, and needs no more room than there is. */
  ghost predicate Revivable(s: State, rscid: int, u: nat) {
    OneOf(s, rscid, u) && !Idle(s.runs, s.threads[u]) && (s.threads[u].pc.Fired? || MayReport(s, s.threads[u]))
  }

  ghost predicate TimerLeft(s: State, rscid: int) {
    exists m :: m in s.timers && s.timers[m].task.rscid == rscid
  }

  /** Goroutine t, which is no stop's, can go on by itself, or with what its record revives. */
  ghost predicate GoesOn(s: State, rscid: int, t: nat) {
    OneOf(s, rscid, t) && s.threads[t].task.op != "stop" && MayRepeat(s.runs, s.threads[t]) &&
    if s.threads[t].pc.Armed? then TimerLeft(s, rscid) || exists u :: Revivable(s, rscid, u)
    else MayReport(s, s.threads[t])
  }

  /** An agent of the resource can be started without a report for which there is no room. */
  ghost predicate Unblocked(s: State, rscid: int) {
    Pending(s.threads, s.runs, rscid) != {} || exists t :: GoesOn(s, rscid, t)
  }

  lemma ArmedRevives(s: State, t: nat, rscid: int) returns (es: seq<Event>)
    requires !s.down && Tied(s) && GoesOn(s, rscid, t) && s.threads[t].pc.Armed?
    requires forall u :: OneOf(s, rscid, u) ==> !BeforeLaunch(s.runs, s.threads[u])
    ensures Restarts(s, es, rscid)
  {
    if m :| m in s.timers && s.timers[m].task.rscid == rscid {
      es := RevivesTimer(s, t, m);
    } else {
      var u :| Revivable(s, rscid, u);
      if s.threads[u].pc.Fired? {
        assert ThreadOk(s.tasks, s.threads[u]);
        es := RevivesCallback(s, t, u);
      } else {
        es := RevivesRepeater(s, t, u);
      }
    }
  }

  lemma UnblockedRestarts(s: State, rscid: int) returns (es: seq<Event>)
    requires !s.down && Tied(s) && Waits(s.threads, s.runs) && Unblocked(s, rscid)
    ensures Restarts(s, es, rscid)
  {
    var pending := Pending(s.threads, s.runs, rscid);
    if pending != {} {
      var t :| t in pending;
      es := PendingLaunches(s, rscid, t);
    } else {
      assert forall u :: OneOf(s, rscid, u) ==> u in pending || !BeforeLaunch(s.runs, s.threads[u]);
      var t :| GoesOn(s, rscid, t);
      if s.threads[t].pc.Armed? {
        es := ArmedRevives(s, t, rscid);
      } else {
        es := RepeatsAlone(s, t);
      }
    }
  }

  /** With room an unsettled state is unblocked. */
  lemma UnsettledIsUnblocked(s: State, rscid: int)
    requires Stopped(s.table, rscid) && |s.reports| < CHANNEL_CAPACITY && !Settled(s, rscid)
    ensures Unblocked(s, rscid)
  {
    if Pending(s.threads, s.runs, rscid) == {} {
      var t: nat :| OneOf(s, rscid, t) && s.threads[t].task.op != "stop" && !s.threads[t].pc.Fired? &&
        !Spent(s.runs, s.threads[t]);
      assert OneOf(s, rscid, t);
      assert t in s.threads;
      assert BeforeLaunch(s.runs, s.threads[t]) ==> t in Pending(s.threads, s.runs, rscid);
      if !TimerLeft(s, rscid) {
        var u: nat :| OneOf(s, rscid, u) && !Idle(s.runs, s.threads[u]);
        assert Revivable(s, rscid, u);
      }
      assert GoesOn(s, rscid, t);
    }
  }

  /** The dispatcher can make room for a report, if there is none. */
  ghost predicate Drains(s: State) {
    !s.down && (|s.reports| < CHANNEL_CAPACITY || Free(s) || (s.held.Some? && |s.requests| < CHANNEL_CAPACITY))
  }

  lemma MakesRoom(s: State) returns (es: seq<Event>, s': State)
    requires Inv(s) && Drains(s)
    ensures Leads(s, es, s') && !s'.down && |s'.reports| < CHANNEL_CAPACITY
    ensures s'.threads == s.threads && s'.runs == s.runs && s'.timers == s.timers && s'.table == s.table
    ensures s'.launches == s.launches && s'.tasks == s.tasks && s'.next == s.next
  {
    es, s' := [], s;
    if |s.reports| >= CHANNEL_CAPACITY {
      if s.held.Some? {
        One(s, Put);
        es, s' := [Put], Apply(s, Put);
      }
      var s1 := s';
      One(s1, Answer);
      s' := Apply(s1, Answer);
      Then(s, es, s1, [Answer], s');
      es := es + [Answer];
    }
  }

  /** A full rscOp_ch is no obstacle where the dispatcher can make room first. */
  lemma UnsettledRestarts(s: State, rscid: int) returns (es: seq<Event>)
    requires Inv(s) && Stopped(s.table, rscid) && !Settled(s, rscid) && Drains(s)
    ensures Restarts(s, es, rscid)
  {
    var a, s1 := MakesRoom(s);
    UnsettledIsUnblocked(s1, rscid);
    es := UnblockedRestarts(s1, rscid);
    Sooner(s, a, s1, es, rscid);
    es := a + es;
  }

  lemma {:induction false} NoDispatchNoRequest(s: State, es: seq<Event>, rscid: int)
    requires Runs(s, es) && NoDispatch(es)
    ensures NoRequest(s, es, rscid) && After(s, es).tasks == s.tasks
    decreases es
  {
    if es != [] {
      assert forall i :: 0 <= i < |es| - 1 ==> es[1..][i] == es[i + 1];
      assert !es[0].Dispatch?;
      NoDispatchNoRequest(Apply(s, es[0]), es[1..], rscid);
    }
  }

  /** No run without a new request for the resource starts an agent for it. */
  ghost predicate StopHolds(s: State, rscid: int) {
    forall es :: Runs(s, es) && NoRequest(s, es, rscid) ==>
      LaunchCount(After(s, es).launches, rscid) == LaunchCount(s.launches, rscid)
  }

  /** After a panic there are no runs. */
  lemma NothingAfterPanic(s: State, es: seq<Event>)
    requires s.down && Runs(s, es)
    ensures es == []
  {
  }

  /**
   When a recorded stop holds: if the state is settled, no run without a new request for the resource starts
   an agent for it.  If it is not settled, some run does - unless rscOp_ch is full, the dispatcher that would
   drain it is itself blocked or inside a run, and all that could go on has still to report.
   */
  lemma StopHoldsExactlyWhenSettled(s: State, rscid: int)
    requires Reachable(s) && Stopped(s.table, rscid)
    ensures Settled(s, rscid) || s.down ==> StopHolds(s, rscid)
    ensures !s.down && (Drains(s) || Unblocked(s, rscid)) ==> (StopHolds(s, rscid) <==> Settled(s, rscid))
  {
    ReachableInv(s);
    if Settled(s, rscid) || s.down {
      forall es | Runs(s, es) && NoRequest(s, es, rscid)
        ensures LaunchCount(After(s, es).launches, rscid) == LaunchCount(s.launches, rscid)
      {
        if s.down { NothingAfterPanic(s, es); } else { SettledRun(s, es, rscid); }
      }
    } else if Drains(s) || Unblocked(s, rscid) {
      var es;
      if Drains(s) { es := UnsettledRestarts(s, rscid); } else { es := UnblockedRestarts(s, rscid); }
      NoDispatchNoRequest(s, es, rscid);
      assert LaunchCount(After(s, es).launches, rscid) == LaunchCount(s.launches, rscid) + 1;
    }
  }

  // ---- an actual run in which a stop is overtaken

  lemma StopRecorded(s: State, t: nat, q: Message) returns (s': State)
    requires Reachable(s) && s.busy == None && OnlyOne(s, t, map[])
    requires Stop(q, s.threads[t].task.rscid)
    ensures Reachable(s') && Stopped(s'.table, s.threads[t].task.rscid)
    ensures t in s'.threads && s'.threads[t] == s.threads[t] && s'.launches == s.launches && !s'.down
  {
    s' := Reach(s, Receive(q));
    s' := Reach(s', Put);
    s' := Reach(s', Dispatch);
    s' := Reach(s', Advance(s.next, false));
    s' := Reach(s', Advance(s.next, false));
  }

  /**
   A recorded stop alone is no barrier: for every recurring request and every stop of its resource there is a
   reachable state with the stop recorded from which, without a further request, the recurring agent is
   started again.
   */
  lemma StopIsOvertaken(m: Message, q: Message) returns (s: State, es: seq<Event>)
    requires Recurring(m) && Stop(q, m.body.request.rscid)
    ensures Reachable(s) && Stopped(s.table, m.body.request.rscid) && Restarts(s, es, m.body.request.rscid)
  {
    var t;
    s, t := RecurringRepeats(m);
    s := AgentRuns(s, t, true);
    s := StopRecorded(s, t, q);
    var step := Advance(t, false);
    var s1 := Apply(s, step);
    es := HalfDoneSetMonitorRepeats(s1, t);
    One(s, step);
    Sooner(s, [step], s1, es, m.body.request.rscid);
    es := [step] + es;
  }
}
