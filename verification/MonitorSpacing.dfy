/**
 The pace of a recurring request (rmanager/rman.go, ExecRscOp and setMonitor): the interval is waited
 after each result and the start delay is applied again on every repetition.
 */
module MonitorSpacing {
  import opened Ints
  import opened Engine
  import opened EngineInvariants
  import opened EngineAccounts
  import opened EngineTheorems
  import opened StopBarrier

  /** Nanoseconds from one launch of a request to the next, at least. */
  function Period(task: Task): nat {
    Pause(task.interval) + DelayOf(task)
  }

  /** The goroutine's next launch - or, after its launch, its re-arming - comes no earlier than this. */
  ghost function Earliest(now: int, th: Thread): int {
    match th.pc
    case Fired => now + DelayOf(th.task)
    case Enter => now + DelayOf(th.task)
    case Enrol => now + DelayOf(th.task)
    case Sleep(until) => until
    case _ => now
  }

  ghost predicate ToLaunch(runs: map<nat, Run>, th: Thread) {
    th.pc.Fired? || BeforeLaunch(runs, th)
  }

  /** Launch i of the list is far enough before time at, which belongs to repetition rep. */
  ghost predicate Paced(ls: seq<Launch>, rep: nat, at: int, period: nat) {
    forall i :: 0 <= i < |ls| ==> at >= ls[i].at + (rep - i) * period
  }

  ghost predicate Regular(ls: seq<Launch>, now: int, period: nat) {
    (forall i :: 0 <= i < |ls| ==> ls[i].rep == i && ls[i].at <= now) &&
    (forall j :: 0 <= j < |ls| ==> Paced(ls[..j], j, ls[j].at, period))
  }

  ghost predicate ThreadPaced(ls: seq<Launch>, runs: map<nat, Run>, now: int, th: Thread) {
    |ls| == (if ToLaunch(runs, th) then th.rep else th.rep + 1) && Paced(ls, th.rep, Earliest(now, th), Period(th.task))
  }

  ghost predicate TimerPaced(ls: seq<Launch>, timer: Timer) {
    |ls| == timer.rep && Paced(ls, timer.rep, timer.due + DelayOf(timer.task), Period(timer.task))
  }

  ghost predicate Spaced(s: State, chain: nat) {
    var ls := LaunchesOf(s.launches, chain);
    (chain >= |s.tasks| ==> ls == []) &&
    (chain < |s.tasks| ==> Regular(ls, s.now, Period(s.tasks[chain]))) &&
    (forall t :: Owner(s.threads, t, chain) ==> ThreadPaced(ls, s.runs, s.now, s.threads[t])) &&
    (forall m :: ArmedFor(s.timers, m, chain) ==> TimerPaced(ls, s.timers[m]))
  }

  lemma PacedLater(ls: seq<Launch>, rep: nat, at: int, later: int, period: nat)
    requires Paced(ls, rep, at, period) && at <= later
    ensures Paced(ls, rep, later, period)
  {
    forall i | 0 <= i < |ls| ensures later >= ls[i].at + (rep - i) * period {
      assert at >= ls[i].at + (rep - i) * period;
    }
  }

  lemma PacedNext(ls: seq<Launch>, rep: nat, at: int, period: nat)
    requires Paced(ls, rep, at, period)
    ensures Paced(ls, rep + 1, at + period, period)
  {
    forall i | 0 <= i < |ls| ensures at + period >= ls[i].at + (rep + 1 - i) * period {
      assert (rep + 1 - i) * period == (rep - i) * period + period;
      assert at >= ls[i].at + (rep - i) * period;
    }
  }

  /** A step of the holder neither launches nor brings its next launch forward. */
  lemma OwnStage(s: State, t: nat, late: bool)
    requires Tied(s) && Waits(s.threads, s.runs) && CanAdvance(s, t, late) && !s.threads[t].pc.Arming?
    requires t in Advanced(s, t, late).threads
    ensures var s' := Advanced(s, t, late); var th, th' := s.threads[t], s'.threads[t];
      th'.rep == th.rep && th'.task == th.task && ToLaunch(s'.runs, th') == ToLaunch(s.runs, th) &&
      Earliest(s.now, th) <= Earliest(s.now, th')
  {
    var th := s.threads[t];
    if th.pc.Waiting? {
      assert WaitsFor(s.threads, s.runs, t, th.pc.run) && RunOk(s.tasks, s.runs[th.pc.run]);
    }
  }

  lemma OwnPace(s: State, t: nat, late: bool, chain: nat)
    requires Tied(s) && Waits(s.threads, s.runs) && Spaced(s, chain) && CanAdvance(s, t, late)
    requires Owner(s.threads, t, chain)
    requires Owner(Advanced(s, t, late).threads, t, chain)
    ensures ThreadPaced(LaunchesOf(s.launches, chain), Advanced(s, t, late).runs, s.now,
      Advanced(s, t, late).threads[t])
  {
    var th, th' := s.threads[t], Advanced(s, t, late).threads[t];
    var ls := LaunchesOf(s.launches, chain);
    assert ThreadPaced(ls, s.runs, s.now, th);
    OwnStage(s, t, late);
    PacedLater(ls, th.rep, Earliest(s.now, th), Earliest(s.now, th'), Period(th.task));
  }

  lemma NewTimerPace(s: State, t: nat, late: bool, chain: nat)
    requires Spaced(s, chain) && CanAdvance(s, t, late) && Owner(s.threads, t, chain) && s.threads[t].pc.Arming?
    ensures TimerPaced(LaunchesOf(s.launches, chain), Advanced(s, t, late).timers[s.next])
  {
    var th := s.threads[t];
    var ls := LaunchesOf(s.launches, chain);
    assert ThreadPaced(ls, s.runs, s.now, th);
    PacedNext(ls, th.rep, s.now, Period(th.task));
  }

  lemma SpacedAdvance(s: State, t: nat, late: bool, chain: nat)
    requires Tied(s) && Waits(s.threads, s.runs) && Spaced(s, chain) && CanAdvance(s, t, late)
    ensures Spaced(Advanced(s, t, late), chain)
  {
    var s' := Advanced(s, t, late);
    var ls := LaunchesOf(s.launches, chain);
    forall u | Owner(s'.threads, u, chain) ensures ThreadPaced(ls, s'.runs, s.now, s'.threads[u]) {
      assert Owner(s.threads, u, chain);
      if u == t { OwnPace(s, t, late, chain); } else { OthersUnstarted(s, t, late, u); }
    }
    forall m | ArmedFor(s'.timers, m, chain) ensures TimerPaced(ls, s'.timers[m]) {
      if s.threads[t].pc.Arming? && m == s.next {
        NewTimerPace(s, t, late, chain);
      } else {
        assert ArmedFor(s.timers, m, chain);
      }
    }
  }

  lemma OthersUnstarted(s: State, t: nat, late: bool, u: nat)
    requires Tied(s) && Waits(s.threads, s.runs) && CanAdvance(s, t, late) && u in s.threads && u != t
    ensures var s' := Advanced(s, t, late);
      u in s'.threads && s'.threads[u] == s.threads[u] &&
      ToLaunch(s'.runs, s.threads[u]) == ToLaunch(s.runs, s.threads[u])
  {
    OthersAdvance(s, t, late, u);
  }

  lemma SpacedFire(s: State, m: nat, chain: nat)
    requires Tied(s) && Spaced(s, chain) && Enabled(s, Fire(m))
    ensures Spaced(FiredTimer(s, m), chain)
  {
    var s' := FiredTimer(s, m);
    var ls := LaunchesOf(s.launches, chain);
    var timer := s.timers[m];
    forall u | Owner(s'.threads, u, chain) ensures ThreadPaced(ls, s'.runs, s.now, s'.threads[u]) {
      if u == s.next {
        assert ArmedFor(s.timers, m, chain) && TimerPaced(ls, timer);
        PacedLater(ls, timer.rep, timer.due + DelayOf(timer.task), s.now + DelayOf(timer.task), Period(timer.task));
      } else {
        assert Owner(s.threads, u, chain);
      }
    }
    forall n | ArmedFor(s'.timers, n, chain) ensures TimerPaced(ls, s'.timers[n]) {
      assert ArmedFor(s.timers, n, chain);
    }
  }

  lemma SpacedDispatch(s: State, chain: nat)
    requires Tied(s) && Spaced(s, chain) && Enabled(s, Dispatch)
    ensures Spaced(Dispatched(s), chain)
  {
    var s' := Dispatched(s);
    var ls := LaunchesOf(s.launches, chain);
    forall u | Owner(s'.threads, u, chain) ensures ThreadPaced(ls, s'.runs, s.now, s'.threads[u]) {
      if u != s.next {
        assert Owner(s.threads, u, chain);
      }
    }
    assert chain < |s.tasks| ==> s'.tasks[chain] == s.tasks[chain];
  }

  lemma SpacedTick(s: State, ns: nat, chain: nat)
    requires Spaced(s, chain)
    ensures Spaced(s.(now := s.now + ns), chain)
  {
    var ls := LaunchesOf(s.launches, chain);
    var now := s.now + ns;
    forall t | Owner(s.threads, t, chain) ensures ThreadPaced(ls, s.runs, now, s.threads[t]) {
      var th := s.threads[t];
      assert ThreadPaced(ls, s.runs, s.now, th);
      PacedLater(ls, th.rep, Earliest(s.now, th), Earliest(now, th), Period(th.task));
    }
  }

  /** An agent is started: the launch is regular, and its waiter is now past it. */
  lemma RegularSnoc(ls: seq<Launch>, l: Launch, now: int, period: nat)
    requires Regular(ls, now, period) && l.rep == |ls| && l.at == now && Paced(ls, |ls|, now, period)
    ensures Regular(ls + [l], now, period)
    ensures Paced(ls + [l], |ls|, now, period)
  {
    var ls' := ls + [l];
    forall j | 0 <= j < |ls'| ensures Paced(ls'[..j], j, ls'[j].at, period) {
      if j < |ls| {
        assert ls'[..j] == ls[..j];
      } else {
        assert ls'[..j] == ls;
      }
    }
    forall i | 0 <= i < |ls'| ensures now >= ls'[i].at + (|ls| - i) * period {
      if i < |ls| {
        assert now >= ls[i].at + (|ls| - i) * period;
      }
    }
  }

  lemma LaunchesSnoc(launches: seq<Launch>, l: Launch, chain: nat)
    ensures LaunchesOf(launches + [l], chain) ==
      if l.chain == chain then LaunchesOf(launches, chain) + [l] else LaunchesOf(launches, chain)
  {
    assert (launches + [l])[..|launches|] == launches;
  }

  lemma OthersProcess(s: State, r: nat, act: Act, u: nat)
    requires Waits(s.threads, s.runs) && Enabled(s, Process(r, act)) && u in s.threads
    requires act.Start? ==> u != s.runs[r].waiter
    ensures ToLaunch(Processed(s, r, act).runs, s.threads[u]) == ToLaunch(s.runs, s.threads[u])
  {
    if s.threads[u].pc.Waiting? {
      assert WaitsFor(s.threads, s.runs, u, s.threads[u].pc.run);
    }
  }

  /** The holder before a launch: all launches so far are its own repetitions', one period apart. */
  lemma BeforeStart(s: State, r: nat, chain: nat)
    requires Tied(s) && Waits(s.threads, s.runs) && Spaced(s, chain)
    requires r in s.runs && s.runs[r].proc == Spawned && s.runs[r].chain == chain
    ensures var run, ls := s.runs[r], LaunchesOf(s.launches, chain);
      WaitsFor(s.threads, s.runs, run.waiter, r) && s.threads[run.waiter].task == run.task &&
      chain < |s.tasks| && run.task == s.tasks[chain] &&
      |ls| == run.rep && Paced(ls, run.rep, s.now, Period(run.task)) && Regular(ls, s.now, Period(run.task))
  {
    var run := s.runs[r];
    OnlyTheHolderLaunches(s, r);
    assert WaitsFor(s.threads, s.runs, run.waiter, r) && RunOk(s.tasks, run);
    var th := s.threads[run.waiter];
    assert ThreadOk(s.tasks, th) && ThreadPaced(LaunchesOf(s.launches, chain), s.runs, s.now, th);
  }

  lemma OneHolder(s: State, t: nat, chain: nat)
    requires Linear(s.threads, s.timers) && Owner(s.threads, t, chain)
    ensures forall u :: Owner(s.threads, u, chain) ==> u == t
    ensures forall m :: !ArmedFor(s.timers, m, chain)
  {
  }

  lemma SpacedByOne(s: State, t: nat, chain: nat)
    requires Linear(s.threads, s.timers) && Owner(s.threads, t, chain) && chain < |s.tasks|
    requires var ls := LaunchesOf(s.launches, chain);
      Regular(ls, s.now, Period(s.tasks[chain])) && ThreadPaced(ls, s.runs, s.now, s.threads[t])
    ensures Spaced(s, chain)
  {
    OneHolder(s, t, chain);
  }

  /** Its waiter is past the launch. */
  lemma WaiterPaced(s: State, r: nat, pid: int, ls: seq<Launch>)
    requires Enabled(s, Process(r, Start(pid))) && WaitsFor(s.threads, s.runs, s.runs[r].waiter, r)
    requires var th := s.threads[s.runs[r].waiter];
      |ls| == th.rep + 1 && Paced(ls, th.rep, s.now, Period(th.task))
    ensures ThreadPaced(ls, Processed(s, r, Start(pid)).runs, s.now, s.threads[s.runs[r].waiter])
  {
    assert !ToLaunch(Processed(s, r, Start(pid)).runs, s.threads[s.runs[r].waiter]);
  }

  lemma Launched(s: State, r: nat, pid: int, chain: nat)
    requires Tied(s) && Waits(s.threads, s.runs) && Spaced(s, chain)
    requires Enabled(s, Process(r, Start(pid))) && s.runs[r].chain == chain
    ensures Owner(s.threads, s.runs[r].waiter, chain) && chain < |s.tasks|
    ensures var run, ls := s.runs[r], LaunchesOf(s.launches, chain);
      var ls' := ls + [LaunchOf(r, run, pid, s.now)];
      Regular(ls', s.now, Period(s.tasks[chain])) &&
      ThreadPaced(ls', Processed(s, r, Start(pid)).runs, s.now, s.threads[run.waiter])
  {
    var run, ls := s.runs[r], LaunchesOf(s.launches, chain);
    var l := LaunchOf(r, run, pid, s.now);
    BeforeStart(s, r, chain);
    RegularSnoc(ls, l, s.now, Period(run.task));
    WaiterPaced(s, r, pid, ls + [l]);
  }

  lemma SpacedStart(s: State, r: nat, pid: int, chain: nat)
    requires Tied(s) && Waits(s.threads, s.runs) && Linear(s.threads, s.timers) && Spaced(s, chain)
    requires Enabled(s, Process(r, Start(pid))) && s.runs[r].chain == chain
    ensures Spaced(Processed(s, r, Start(pid)), chain)
  {
    var run := s.runs[r];
    Launched(s, r, pid, chain);
    LaunchesSnoc(s.launches, LaunchOf(r, run, pid, s.now), chain);
    SpacedByOne(Processed(s, r, Start(pid)), s.runs[r].waiter, chain);
  }

  lemma SpacedProcess(s: State, r: nat, act: Act, chain: nat)
    requires Tied(s) && Waits(s.threads, s.runs) && Spaced(s, chain)
    requires Enabled(s, Process(r, act)) && (act.Start? ==> s.runs[r].chain != chain)
    ensures Spaced(Processed(s, r, act), chain)
  {
    var s' := Processed(s, r, act);
    var ls := LaunchesOf(s.launches, chain);
    if act.Start? {
      LaunchesSnoc(s.launches, LaunchOf(r, s.runs[r], act.pid, s.now), chain);
      assert WaitsFor(s.threads, s.runs, s.runs[r].waiter, r);
    }
    forall u | Owner(s'.threads, u, chain) ensures ThreadPaced(ls, s'.runs, s.now, s'.threads[u]) {
      assert Owner(s.threads, u, chain);
      OthersProcess(s, r, act, u);
    }
  }

  lemma SpacedStep(s: State, e: Event, chain: nat)
    requires Tied(s) && Waits(s.threads, s.runs) && Linear(s.threads, s.timers) && Spaced(s, chain) && Enabled(s, e)
    ensures Spaced(Apply(s, e), chain)
  {
    match e
    case Advance(t, late) => SpacedAdvance(s, t, late, chain);
    case Process(r, act) =>
      if act.Start? && s.runs[r].chain == chain {
        SpacedStart(s, r, act.pid, chain);
      } else {
        SpacedProcess(s, r, act, chain);
      }
    case Fire(m) => SpacedFire(s, m, chain);
    case Dispatch => SpacedDispatch(s, chain);
    case Tick(ns) => SpacedTick(s, ns, chain);
    case _ =>
  }

  lemma {:induction false} SpacedRun(s: State, es: seq<Event>, chain: nat)
    requires Inv(s) && Spaced(s, chain) && Runs(s, es)
    ensures Spaced(After(s, es), chain)
    decreases es
  {
    if es != [] {
      InvStep(s, es[0]);
      SpacedStep(s, es[0], chain);
      SpacedRun(Apply(s, es[0]), es[1..], chain);
    }
  }

  /**
   The agents a request starts come one period apart: launch j is no earlier than launch i plus j - i
   times the interval and the start delay, in every run of the engine.
   */
  lemma LaunchesKeepTheirDistance(s: State, chain: nat, i: nat, j: nat)
    requires Reachable(s) && chain < |s.tasks| && i <= j < |LaunchesOf(s.launches, chain)|
    ensures var ls := LaunchesOf(s.launches, chain);
      ls[j].at >= ls[i].at + (j - i) * Period(s.tasks[chain])
  {
    var es :| Runs(INIT, es) && After(INIT, es) == s;
    InvInit();
    SpacedRun(INIT, es, chain);
    var ls := LaunchesOf(s.launches, chain);
    if i < j {
      assert Paced(ls[..j], j, ls[j].at, Period(s.tasks[chain]));
      assert ls[..j][i] == ls[i];
    }
  }
}
