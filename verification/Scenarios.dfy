/** Stretches of actual runs of the engine with one goroutine at work, from which reachable states are built. */
module Scenarios {
  import opened Ints
  import opened Messages
  import opened Options
  import opened Records
  import opened Engine
  import opened EngineTheorems
  import opened Driving

  /** A request that is repeated: no stop, since the callback of a recurring stop finds its own stop recorded. */
  ghost predicate Recurring(m: Message) {
    WellFormed(m) && m.body.request.op != "stop" && m.body.request.interval > 0
  }

  ghost predicate Stop(q: Message, rscid: int) {
    WellFormed(q) && q.body.request.op == "stop" && q.body.request.interval == 0 && q.body.request.rscid == rscid
  }

  /** Nothing is going on but what thread t does, if there is one, and timer m, if there is one. */
  ghost predicate Only(s: State, threads: map<nat, Thread>, timers: map<nat, Timer>) {
    s.threads == threads && s.timers == timers && s.requests == [] && s.held == None && !s.down &&
    (forall t :: t in threads ==> t < s.next) &&
    (s.busy.Some? ==> s.busy.value in threads)
  }

  ghost predicate OnlyOne(s: State, t: nat, timers: map<nat, Timer>) {
    t in s.threads && Only(s, map[t := s.threads[t]], timers)
  }

  lemma IsLaunched(s: State, r: nat) returns (s': State)
    requires Reachable(s) && r in s.runs && s.runs[r].proc == Spawned && !s.down
    ensures var run := s.runs[r];
      Reachable(s') && r in s'.runs && s'.runs[r].proc == Running && s'.runs[r].fin == run.fin &&
      s'.runs[r].task == run.task && s'.runs[r].pid == 0 &&
      s' == s.(runs := s'.runs, launches := s.launches + [LaunchOf(r, run, 0, s.now)])
  {
    s' := Reach(s, Process(r, Start(0)));
    s' := Reach(s', Process(r, SetTimeout));
  }

  lemma AgentStarts(s: State, t: nat) returns (s': State)
    requires Reachable(s) && OnlyOne(s, t, s.timers)
    requires s.threads[t].pc.Sleep? && s.threads[t].pc.until <= s.now
    ensures var th, task := s.threads[t], s.threads[t].task;
      Reachable(s') && Only(s', map[t := th.(pc := Waiting(s.next))], s.timers) &&
      s'.table == s.table && s'.reports == s.reports && s'.tasks == s.tasks && s'.now == s.now &&
      s'.next == s.next + 1 &&
      s'.launches == s.launches + [LaunchBy(th, s.next, s.now)] &&
      s'.busy == (if s.busy == Some(t) && task.async then None else s.busy)
    ensures s.next in s'.runs && s'.runs[s.next].task == s.threads[t].task && s'.runs[s.next].pid == 0
    ensures s'.runs[s.next].proc == Running && s'.runs[s.next].fin == []
  {
    s' := Reach(s, Advance(t, false));
    s' := IsLaunched(s', s.next);
  }

  lemma AgentExits(s: State, t: nat, ok: bool) returns (s': State)
    requires Reachable(s) && OnlyOne(s, t, s.timers) && s.threads[t].pc.Waiting? && s.threads[t].pc.run in s.runs
    requires s.runs[s.threads[t].pc.run].proc == Running
    ensures var r := s.threads[t].pc.run;
      Reachable(s') && r in s'.runs && s' == s.(runs := s'.runs) &&
      s'.runs[r].proc == Counted(RetOf(ok), Count(s.table, s.runs[r].task.rscid)) &&
      s'.runs[r].fin == s.runs[r].fin && s'.runs[r].task == s.runs[r].task && s'.runs[r].pid == s.runs[r].pid
  {
    var r := s.threads[t].pc.run;
    s' := Reach(s, Process(r, Exit(ok)));
    s' := Reach(s', Process(r, CancelTimeout));
    s' := Reach(s', Process(r, ReadCount));
  }

  lemma AgentEnds(s: State, t: nat, ok: bool) returns (s': State)
    requires Reachable(s) && OnlyOne(s, t, s.timers) && s.threads[t].pc.Waiting? && s.threads[t].pc.run in s.runs
    requires var run := s.runs[s.threads[t].pc.run];
      run.proc == Running && run.fin == [] && run.pid == 0 && run.task == s.threads[t].task
    ensures var th := s.threads[t];
      var res := Result(th.task, 0, RetOf(ok), Count(s.table, th.task.rscid));
      Reachable(s') && Only(s', map[t := th.(pc := Taken(th.pc.run, res))], s.timers) &&
      s'.table == s.table && s'.reports == s.reports && s'.tasks == s.tasks && s'.now == s.now && s'.next == s.next &&
      s'.launches == s.launches && s'.busy == s.busy
  {
    var r := s.threads[t].pc.run;
    s' := AgentExits(s, t, ok);
    s' := Reach(s', Process(r, Finish));
    s' := Reach(s', Advance(t, false));
  }

  /** The result is judged, and reported if there is reason to. */
  lemma IsJudged(s: State, t: nat) returns (s': State)
    requires Reachable(s) && OnlyOne(s, t, s.timers)
    requires s.threads[t].pc.Taken? && |s.reports| < CHANNEL_CAPACITY
    ensures var th := s.threads[t];
      Reachable(s') && Only(s', map[t := th.(pc := Rearm(th.pc.res))], s.timers) &&
      s'.table == s.table &&
      |s'.reports| == |s.reports| + (if Suppressed(s.table, th.task, th.pc.res) then 0 else 1) &&
      s'.tasks == s.tasks && s'.now == s.now && s'.next == s.next &&
      s'.launches == s.launches && s'.busy == s.busy
  {
    s' := Reach(s, Advance(t, false));
    if s'.threads[t].pc.Posting? {
      s' := Reach(s', Advance(t, false));
    }
  }

  /** The agent of a goroutine in its delay runs and exits, and its result is judged. */
  lemma AgentRuns(s: State, t: nat, ok: bool) returns (s': State)
    requires Reachable(s) && OnlyOne(s, t, s.timers)
    requires s.threads[t].pc.Sleep? && s.threads[t].pc.until <= s.now && |s.reports| < CHANNEL_CAPACITY
    ensures var th, task := s.threads[t], s.threads[t].task;
      var res := Result(task, 0, RetOf(ok), Count(s.table, task.rscid));
      Reachable(s') && Only(s', map[t := th.(pc := Rearm(res))], s.timers) &&
      s'.table == s.table && |s'.reports| == |s.reports| + (if Suppressed(s.table, task, res) then 0 else 1) &&
      s'.tasks == s.tasks && s'.now == s.now &&
      s'.launches == s.launches + [LaunchBy(th, s.next, s.now)] && s'.next == s.next + 1 &&
      s'.busy == (if s.busy == Some(t) && task.async then None else s.busy)
  {
    s' := AgentStarts(s, t);
    s' := AgentEnds(s', t, ok);
    s' := IsJudged(s', t);
  }

  lemma IsEntered(s: State, m: Message) returns (s': State)
    requires Reachable(s) && Only(s, map[], map[]) && WellFormed(m)
    ensures Reachable(s') && Only(s', map[s.next := Thread(|s.tasks|, 0, TaskOf(m), Enter)], map[])
    ensures s'.takes == s.takes && s'.kills == s.kills
    ensures s'.table == s.table && s'.tasks == s.tasks + [TaskOf(m)] && s'.reports == s.reports &&
      s'.launches == s.launches && s'.next == s.next + 1 && s'.busy == Some(s.next)
  {
    s' := Reach(s, Receive(m));
    s' := Reach(s', Put);
    s' := Reach(s', Dispatch);
  }

  /** A request is dispatched where nothing is going on, and its agent is about to be started. */
  lemma IsDispatched(s: State, m: Message) returns (s': State)
    requires Reachable(s) && Only(s, map[], map[]) && WellFormed(m)
    ensures Reachable(s') && OnlyOne(s', s.next, map[]) && s'.takes == s.takes && s'.kills == s.kills
    ensures var task := TaskOf(m); var th := s'.threads[s.next];
      th == Thread(|s.tasks|, 0, task, th.pc) && th.pc.Sleep? && th.pc.until <= s'.now &&
      s'.table == (if task.interval == 0 then s.table[task.rscid := Record(task, None, 0)] else s.table) &&
      s'.tasks == s.tasks + [task] && s'.reports == s.reports && s'.launches == s.launches && s'.next == s.next + 1 &&
      s'.busy == Some(s.next)
  {
    var t := s.next;
    s' := IsEntered(s, m);
    s' := Reach(s', Advance(t, false));
    if TaskOf(m).interval == 0 {
      s' := Reach(s', Advance(t, false));
    }
    s' := Reach(s', Tick(DelayOf(TaskOf(m))));
  }

  /** A request is read and queued while the dispatcher is between polls. */
  lemma IsQueued(s: State, m: Message) returns (s': State)
    requires Reachable(s) && s.requests == [] && Free(s) && !s.down && m.body.Control?
    ensures Reachable(s') && s' == s.(requests := [m])
  {
    s' := Reach(s, Receive(m));
    s' := Reach(s', Put);
  }

  /** A goroutine whose result does not repeat ends. */
  lemma GoesAway(s: State, t: nat) returns (s': State)
    requires Reachable(s) && OnlyOne(s, t, map[])
    requires s.threads[t].pc.Rearm? && !Repeats(s.threads[t].task, s.threads[t].pc.res)
    ensures Reachable(s') && Only(s', map[], map[]) && s'.reports == s.reports && s'.tasks == s.tasks &&
      s'.next == s.next
    ensures s'.table == MarkTerminated(s.table, s.threads[t].task.rscid, s.threads[t].task.op)
  {
    s' := Reach(s, Advance(t, false));
    s' := Reach(s', Advance(t, false));
  }

  lemma Arms(s: State, t: nat) returns (s': State)
    requires Reachable(s) && OnlyOne(s, t, map[])
    requires s.threads[t].pc.Rearm? && Repeats(s.threads[t].task, s.threads[t].pc.res)
    ensures var th, task := s.threads[t], s.threads[t].task;
      Reachable(s') && s'.next == s.next + 1 && s'.reports == s.reports && s'.tasks == s.tasks &&
      Only(s', map[t := th.(pc := Armed(s.next))],
           map[s.next := Timer(th.chain, th.rep + 1, task, s.now + Pause(task.interval))]) &&
      s'.table == s.table[task.rscid := Record(task, None, 1)]
  {
    s' := Reach(s, Advance(t, false));
    s' := Reach(s', Advance(t, false));
  }

  /** A goroutine whose success repeats arms the timer of the next repetition and ends. */
  lemma Rearms(s: State, t: nat) returns (s': State)
    requires Reachable(s) && OnlyOne(s, t, map[])
    requires s.threads[t].pc.Rearm? && Repeats(s.threads[t].task, s.threads[t].pc.res) && s.threads[t].task.op != "stop"
    ensures var th, task := s.threads[t], s.threads[t].task;
      Reachable(s') && s'.next == s.next + 1 && s'.reports == s.reports && s'.tasks == s.tasks &&
      Only(s', map[], map[s.next := Timer(th.chain, th.rep + 1, task, s.now + Pause(task.interval))]) &&
      s'.table == s.table[task.rscid := Record(task, Some(s.next), 1)]
  {
    s' := Arms(s, t);
    s' := Reach(s', Advance(t, false));
    s' := Reach(s', Advance(t, false));
  }

  lemma TimerFires(s: State, m: nat) returns (s': State)
    requires Reachable(s) && m in s.timers && Only(s, map[], map[m := s.timers[m]])
    ensures var tm := s.timers[m];
      Reachable(s') && Only(s', map[s.next := Thread(tm.chain, tm.rep, tm.task, Fired)], map[]) && s'.busy == None &&
      s'.table == s.table && s'.reports == s.reports && s'.tasks == s.tasks && s'.next == s.next + 1
  {
    s' := Reach(s, Tick(Max(0, s.timers[m].due - s.now)));
    s' := Reach(s', Fire(m));
  }

  /** The timer fires, and as no stop is recorded the repetition is about to start its agent. */
  lemma TimerRepeats(s: State, m: nat) returns (s': State)
    requires Reachable(s) && m in s.timers && Only(s, map[], map[m := s.timers[m]])
    requires !Stopped(s.table, s.timers[m].task.rscid) && s.timers[m].task.interval > 0
    ensures Reachable(s') && s'.busy == None && OnlyOne(s', s.next, map[])
    ensures var tm, th := s.timers[m], s'.threads[s.next];
      th == Thread(tm.chain, tm.rep, tm.task, th.pc) && th.pc.Sleep? && th.pc.until <= s'.now &&
      s'.table == s.table && s'.reports == s.reports && s'.tasks == s.tasks && s'.next == s.next + 1
  {
    s' := TimerFires(s, m);
    s' := Reach(s', Advance(s.next, false));
    s' := Reach(s', Advance(s.next, false));
    s' := Reach(s', Tick(DelayOf(s.timers[m].task)));
  }

  lemma Initially()
    ensures Reachable(INIT) && Only(INIT, map[], map[])
  {
    assert Runs(INIT, []) && After(INIT, []) == INIT;
  }

  /** A recurring request on a fresh engine has succeeded at once, and its waiter is about to call setMonitor. */
  lemma RecurringSucceeded(m: Message) returns (s: State, t: nat)
    requires Recurring(m)
    ensures Reachable(s) && OnlyOne(s, t, map[]) && |s.reports| <= 1
    ensures var th := s.threads[t]; th == Thread(0, 0, TaskOf(m), th.pc) && th.pc.Rearm? && th.pc.res.ret == CL_OK
    ensures s.tasks == [TaskOf(m)] && s.launches == [LaunchBy(Thread(0, 0, TaskOf(m), Enter), 1, s.now)]
  {
    Initially();
    s := IsDispatched(INIT, m);
    t := INIT.next;
    s := AgentRuns(s, t, true);
  }

  /** Its first repetition is about to start its agent; the dispatcher is not inside it. */
  lemma RecurringRepeats(m: Message) returns (s: State, t: nat)
    requires Recurring(m)
    ensures Reachable(s) && OnlyOne(s, t, map[]) && s.busy == None
    ensures var th := s.threads[t]; th == Thread(0, 1, TaskOf(m), th.pc) && th.pc.Sleep? && th.pc.until <= s.now
    ensures s.tasks == [TaskOf(m)] && |s.reports| <= 1
    ensures var rscid := TaskOf(m).rscid; Count(s.table, rscid) == 1 && !Terminated(s.table, rscid)
  {
    s, t := RecurringSucceeded(m);
    var timer := s.next;
    s := Rearms(s, t);
    t := s.next;
    s := TimerRepeats(s, timer);
  }
}
