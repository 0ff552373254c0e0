/**
 Stopping a monitor's timer (rmanager/rman.go, stopTimer at the beginning of ExecRscOp): which timers a step
 disarms, and what a stop ends when the timer it cancels was all that was left of its resource.
 */
module Cancelling {
  import opened Messages
  import opened Options
  import opened Records
  import opened Engine
  import opened EngineInvariants
  import opened EngineAccounts
  import opened EngineTheorems
  import opened Driving
  import opened Scenarios
  import opened StopBarrier

  /** An armed timer of this number is one of the resource. */
  ghost predicate OwnTimer(timers: map<nat, Timer>, next: nat, m: nat, rscid: int) {
    m < next && (m in timers ==> timers[m].task.rscid == rscid)
  }

  /** The record names this timer. */
  ghost predicate Names(table: Table, rscid: int, m: nat) {
    rscid in table && table[rscid].tm == Some(m)
  }

  /** A record, and a goroutine about to write one, names a timer of its own resource. */
  ghost predicate NamesOwn(s: State) {
    (forall rscid, m :: Names(s.table, rscid, m) ==> OwnTimer(s.timers, s.next, m, rscid)) &&
    (forall t :: t in s.threads && s.threads[t].pc.Armed? ==>
      OwnTimer(s.timers, s.next, s.threads[t].pc.timer, s.threads[t].task.rscid))
  }

  lemma NamesOwnAdvance(s: State, t: nat, late: bool)
    requires Tied(s) && NamesOwn(s) && CanAdvance(s, t, late)
    ensures NamesOwn(Advanced(s, t, late))
  {
    var s' := Advanced(s, t, late);
    forall rscid, m | Names(s'.table, rscid, m) ensures OwnTimer(s'.timers, s'.next, m, rscid) {
      assert Names(s.table, rscid, m) || (s.threads[t].pc == Armed(m) && s.threads[t].task.rscid == rscid);
    }
    forall u | u in s'.threads && s'.threads[u].pc.Armed?
      ensures OwnTimer(s'.timers, s'.next, s'.threads[u].pc.timer, s'.threads[u].task.rscid)
    {
      if u != t { assert s'.threads[u] == s.threads[u]; }
    }
  }

  lemma NamesOwnStep(s: State, e: Event)
    requires Tied(s) && NamesOwn(s) && Enabled(s, e)
    ensures NamesOwn(Apply(s, e))
  {
    match e
    case Advance(t, late) => NamesOwnAdvance(s, t, late);
    case _ =>
  }

  lemma {:induction false} NamesOwnRun(s: State, es: seq<Event>)
    requires Inv(s) && NamesOwn(s) && Runs(s, es)
    ensures NamesOwn(After(s, es))
    decreases es
  {
    if es != [] {
      NamesOwnStep(s, es[0]);
      InvStep(s, es[0]);
      NamesOwnRun(Apply(s, es[0]), es[1..]);
    }
  }

  lemma ReachableNamesOwn(s: State)
    requires Reachable(s)
    ensures Inv(s) && NamesOwn(s)
  {
    ReachableInv(s);
    var es :| Runs(INIT, es) && After(INIT, es) == s;
    InvInit();
    NamesOwnRun(INIT, es);
  }

  // ---- one step

  /** The goroutine is at the beginning of ExecRscOp for a stop that is not repeated. */
  ghost predicate BeginsStop(s: State, t: nat) {
    t in s.threads && s.threads[t].pc.Enter? && s.threads[t].task.op == "stop" && s.threads[t].task.interval == 0
  }

  /** The beginning of a stop of timer m's resource whose record names it. */
  ghost predicate Cancels(s: State, e: Event, m: nat)
    requires m in s.timers
  {
    var rscid := s.timers[m].task.rscid;
    e.Advance? && BeginsStop(s, e.thread) && s.threads[e.thread].task.rscid == rscid && Names(s.table, rscid, m)
  }

  lemma AdvanceDisarms(s: State, t: nat, late: bool, m: nat)
    requires Tied(s) && NamesOwn(s) && CanAdvance(s, t, late) && m in s.timers
    ensures m in Advanced(s, t, late).timers <==> !Cancels(s, Advance(t, late), m)
    ensures Cancels(s, Advance(t, late), m) ==> Advanced(s, t, late).timers == s.timers - {m}
  {
    if BeginsStop(s, t) {
      var rscid := s.threads[t].task.rscid;
      assert Names(s.table, rscid, m) ==> OwnTimer(s.timers, s.next, m, rscid);
    }
  }

  /**
   An armed timer is disarmed by its firing, or by the beginning of a stop of its resource whose record names
   it, and by nothing else; either leaves every other timer as it was.
   */
  lemma TimersAreDisarmedExactlyBy(s: State, e: Event, m: nat)
    requires Reachable(s) && Enabled(s, e) && m in s.timers
    ensures m !in Apply(s, e).timers <==> e == Fire(m) || Cancels(s, e, m)
    ensures m !in Apply(s, e).timers ==> Apply(s, e).timers == s.timers - {m}
  {
    ReachableNamesOwn(s);
    if e.Advance? { AdvanceDisarms(s, e.thread, e.late, m); }
  }

  /** A callback goes on to ExecRscOp exactly when the record of its resource, if there is one, is no stop's. */
  lemma CallbackGoesOnExactlyUnlessStopped(s: State, t: nat)
    requires Reachable(s) && !s.down && t in s.threads && s.threads[t].pc.Fired?
    ensures var s', rscid := Advanced(s, t, false), s.threads[t].task.rscid;
      if rscid in s.table && s.table[rscid].op == "stop" then t !in s'.threads
      else t in s'.threads && s'.threads[t] == s.threads[t].(pc := Enter)
  {
  }

  // ---- and all that follows

  /** Nothing left of the resource can set a timer any more, and none is set. */
  ghost predicate Silent(s: State, rscid: int) {
    (forall t :: t in s.threads && s.threads[t].task.rscid == rscid ==>
      !s.threads[t].pc.Fired? && (s.threads[t].task.interval == 0 || Idle(s.runs, s.threads[t]))) &&
    (forall m :: m in s.timers ==> s.timers[m].task.rscid != rscid)
  }

  lemma SilentAdvance(s: State, t: nat, late: bool, rscid: int)
    requires Tied(s) && Waits(s.threads, s.runs) && Silent(s, rscid) && CanAdvance(s, t, late)
    ensures Silent(Advanced(s, t, late), rscid)
  {
    var s' := Advanced(s, t, late);
    forall u | u in s'.threads && s'.threads[u].task.rscid == rscid
      ensures !s'.threads[u].pc.Fired? && (s'.threads[u].task.interval == 0 || Idle(s'.runs, s'.threads[u]))
    {
      if u != t {
        OthersAdvance(s, t, late, u);
      } else if Idle(s.runs, s.threads[t]) {
        SpentAdvance(s, t, late);
      }
    }
    SilentTimers(s, t, rscid);
  }

  lemma SilentTimers(s: State, t: nat, rscid: int)
    requires Tied(s) && Silent(s, rscid) && t in s.threads
    ensures forall m :: m in NextTimers(s, s.threads[t]) ==> NextTimers(s, s.threads[t])[m].task.rscid != rscid
  {
    assert ThreadOk(s.tasks, s.threads[t]);
  }

  lemma SilentProcess(s: State, r: nat, act: Act, rscid: int)
    requires Tied(s) && Silent(s, rscid) && Enabled(s, Process(r, act))
    ensures Silent(Processed(s, r, act), rscid)
  {
    forall t | t in s.threads && s.threads[t].task.rscid == rscid && Idle(s.runs, s.threads[t])
      ensures Idle(Processed(s, r, act).runs, s.threads[t])
    {
      if Spent(s.runs, s.threads[t]) { SpentProcess(s, r, act, t); }
    }
  }

  lemma SilentStep(s: State, e: Event, rscid: int)
    requires Tied(s) && Waits(s.threads, s.runs) && Silent(s, rscid) && Enabled(s, e)
    requires e.Dispatch? ==> s.requests[0].body.request.rscid != rscid
    ensures Silent(Apply(s, e), rscid)
  {
    match e
    case Advance(t, late) => SilentAdvance(s, t, late, rscid);
    case Process(r, act) => SilentProcess(s, r, act, rscid);
    case _ =>
  }

  lemma {:induction false} SilentRun(s: State, es: seq<Event>, rscid: int)
    requires Inv(s) && Silent(s, rscid) && Runs(s, es) && NoRequest(s, es, rscid)
    ensures Silent(After(s, es), rscid)
    decreases es
  {
    if es != [] {
      SilentStep(s, es[0], rscid);
      InvStep(s, es[0]);
      SilentRun(Apply(s, es[0]), es[1..], rscid);
    }
  }

  /** Of the stop's resource nothing is left but the stop, timer m, and goroutines that neither start nor repeat. */
  ghost predicate OnlyTimerLeft(s: State, t: nat, m: nat) {
    BeginsStop(s, t) && var rscid := s.threads[t].task.rscid;
    (forall u :: u in s.threads && u != t && s.threads[u].task.rscid == rscid ==> Spent(s.runs, s.threads[u])) &&
    (forall n :: n in s.timers && s.timers[n].task.rscid == rscid ==> n == m)
  }

  lemma StopMakesSilent(s: State, t: nat, m: nat)
    requires Tied(s) && CanAdvance(s, t, false) && OnlyTimerLeft(s, t, m) && Names(s.table, s.threads[t].task.rscid, m)
    ensures Silent(Advanced(s, t, false), s.threads[t].task.rscid)
  {
  }

  /**
   A stop ends the repetition: when the resource's record names the timer and nothing else of the resource can go
   on, no run from the beginning of the stop on, without a new request, ever has a callback or a timer of the
   resource again.
   */
  lemma StopEndsTheRepetition(s: State, t: nat, m: nat, es: seq<Event>)
    requires Reachable(s) && !s.down && OnlyTimerLeft(s, t, m) && Names(s.table, s.threads[t].task.rscid, m)
    requires Runs(Advanced(s, t, false), es) && NoRequest(Advanced(s, t, false), es, s.threads[t].task.rscid)
    ensures var s', rscid := After(Advanced(s, t, false), es), s.threads[t].task.rscid;
      (forall u :: u in s'.threads && s'.threads[u].task.rscid == rscid ==> !s'.threads[u].pc.Fired?) &&
      (forall n :: n in s'.timers ==> s'.timers[n].task.rscid != rscid)
  {
    ReachableInv(s);
    StopMakesSilent(s, t, m);
    InvStep(s, Advance(t, false));
    SilentRun(Advanced(s, t, false), es, s.threads[t].task.rscid);
  }

  /**
   It does happen: for every recurring request and every stop of its resource there is a reachable state in
   which the stop begins with the request's timer armed, named and alone - and cancels it.
   */
  lemma StopFindsTheTimer(m: Message, q: Message) returns (s: State, t: nat, tm: nat)
    requires Recurring(m) && Stop(q, m.body.request.rscid)
    ensures Reachable(s) && !s.down && OnlyTimerLeft(s, t, tm) && s.threads[t].task == TaskOf(q)
    ensures Names(s.table, s.threads[t].task.rscid, tm) && tm in s.timers && s.timers[tm].task == TaskOf(m)
    ensures Advanced(s, t, false).timers == map[]
  {
    s, tm := TimerIsLeft(m);
    t := s.next;
    s := Reach(s, Receive(q));
    s := Reach(s, Put);
    s := Reach(s, Dispatch);
  }

  /** The timer of a recurring request is armed and its goroutine has ended. */
  lemma TimerIsLeft(m: Message) returns (s: State, tm: nat)
    requires Recurring(m)
    ensures Reachable(s) && tm in s.timers && Only(s, map[], map[tm := s.timers[tm]]) &&
      Names(s.table, TaskOf(m).rscid, tm) && s.timers[tm].task == TaskOf(m) && s.busy == None
  {
    var t;
    s, t := RecurringRepeats(m);
    s := AgentRuns(s, t, true);
    tm := s.next;
    s := Rearms(s, t);
  }

  /** Another request that is not repeated has been recorded in between, and its agent is spawned. */
  lemma RecordIsReplaced(s: State, r: Message) returns (s': State)
    requires Reachable(s) && Free(s) && !s.down && s.requests == []
    requires WellFormed(r) && r.body.request.interval == 0 && r.body.request.op != "stop" && r.body.request.async
    ensures Reachable(s') && Free(s') && !s'.down && s'.requests == [] && s'.timers == s.timers
    ensures s'.table == s.table[r.body.request.rscid := Record(TaskOf(r), None, 0)]
  {
    var t := s.next;
    s' := Reach(s, Receive(r));
    s' := Reach(s', Put);
    s' := Reach(s', Dispatch);
    s' := Reach(s', Advance(t, false));
    s' := Reach(s', Advance(t, false));
    s' := Reach(s', Tick(DelayOf(TaskOf(r))));
    s' := Reach(s', Advance(t, false));
  }

  /**
   A stop does not cancel the timer if another request for the resource was recorded after it was set: for every
   recurring request, such other request and stop a reachable state in which the stop leaves it armed.
   */
  lemma StopMissesTheTimer(m: Message, r: Message, q: Message) returns (s: State, t: nat, tm: nat)
    requires Recurring(m) && Stop(q, m.body.request.rscid)
    requires WellFormed(r) && r.body.request.interval == 0 && r.body.request.op != "stop" && r.body.request.async
    requires r.body.request.rscid == m.body.request.rscid
    ensures Reachable(s) && !s.down && BeginsStop(s, t) && s.threads[t].task == TaskOf(q)
    ensures tm in s.timers && s.timers[tm].task == TaskOf(m) && Advanced(s, t, false).timers == s.timers
  {
    s, tm := TimerIsLeft(m);
    s := RecordIsReplaced(s, r);
    t := s.next;
    s := Reach(s, Receive(q));
    s := Reach(s, Put);
    s := Reach(s, Dispatch);
  }
}
