/**
 The engine as the controller sees it: one request that is not repeated, run on the dispatcher goroutine,
 then one recurring monitor of the same resource.  How many reports can they cause?
 */
module Service {
  import opened Messages
  import opened Options
  import opened Engine
  import opened EngineInvariants
  import opened EngineAccounts
  import opened MonitorReports

  // ---- a request that does not repeat is reported at most once

  ghost predicate OneShot(s: State, chain: nat) {
    chain < |s.tasks| && s.tasks[chain].interval <= 0 &&
    |VerdictsOf(s.takes, chain)| <= 1 &&
    |VerdictsOf(s.posts, chain)| + (if JudgingOf(s.threads, chain) then 1 else 0) <= |VerdictsOf(s.takes, chain)|
  }

  /** While the run of a request that does not repeat is waited for, it has no result. */
  lemma NoResultYet(s: State, t: nat, chain: nat)
    requires Ended(s) && chain < |s.tasks| && s.tasks[chain].interval <= 0
    requires t in s.threads && s.threads[t].chain == chain && s.threads[t].pc.Waiting?
    ensures VerdictsOf(s.takes, chain) == []
  {
    if VerdictsOf(s.takes, chain) != [] {
      var o := VerdictsFrom(s.takes, chain, 0);
      assert Over(s.threads, s.timers, chain);
      assert Owner(s.threads, t, chain);
    }
  }

  lemma JudgingNext(s: State, t: nat, late: bool)
    requires CanAdvance(s, t, late)
    ensures var pc, threads' := s.threads[t].pc, Advanced(s, t, late).threads;
      t in threads' && Judging(threads'[t]) ==> pc.Waiting? || pc.Taken?
  {
  }

  lemma OneShotOwn(s: State, t: nat, late: bool, chain: nat)
    requires Linear(s.threads, s.timers) && OneShot(s, chain) && CanAdvance(s, t, late) && s.threads[t].chain == chain
    requires s.threads[t].pc.Waiting? ==> VerdictsOf(s.takes, chain) == []
    ensures OneShot(Advanced(s, t, late), chain)
  {
    OwnLogs(s, t, late, chain);
    OwnJudging(s, t, late, chain);
    JudgingNext(s, t, late);
  }

  lemma OneShotAdvance(s: State, t: nat, late: bool, chain: nat)
    requires Inv(s) && OneShot(s, chain) && CanAdvance(s, t, late)
    ensures OneShot(Advanced(s, t, late), chain)
  {
    if s.threads[t].chain == chain {
      if s.threads[t].pc.Waiting? {
        NoResultYet(s, t, chain);
      }
      OneShotOwn(s, t, late, chain);
    } else {
      ForeignLogs(s, t, late, chain);
      ForeignJudging(s, t, late, chain);
    }
  }

  lemma OneShotDispatch(s: State, chain: nat)
    requires Tied(s) && OneShot(s, chain) && Enabled(s, Dispatch)
    ensures OneShot(Dispatched(s), chain)
  {
    SpawnJudging(s.threads, s.next, Dispatched(s).threads[s.next], chain);
  }

  lemma OneShotFire(s: State, m: nat, chain: nat)
    requires Tied(s) && OneShot(s, chain) && Enabled(s, Fire(m))
    ensures OneShot(FiredTimer(s, m), chain)
  {
    SpawnJudging(s.threads, s.next, FiredTimer(s, m).threads[s.next], chain);
  }

  lemma OneShotStep(s: State, e: Event, chain: nat)
    requires Inv(s) && OneShot(s, chain) && Enabled(s, e)
    ensures OneShot(Apply(s, e), chain)
  {
    match e
    case Advance(t, late) => OneShotAdvance(s, t, late, chain);
    case Dispatch => OneShotDispatch(s, chain);
    case Fire(m) => OneShotFire(s, m, chain);
    case _ =>
  }

  lemma NobodyJudges(s: State)
    requires Tied(s)
    ensures !JudgingOf(s.threads, |s.tasks|)
  {
    forall t | t in s.threads ensures s.threads[t].chain != |s.tasks| {
      assert ThreadOk(s.tasks, s.threads[t]);
    }
  }

  lemma OneShotBegins(s: State)
    requires Inv(s) && Enabled(s, Dispatch) && TaskOf(s.requests[0]).interval <= 0
    ensures OneShot(Dispatched(s), |s.tasks|)
  {
    NothingYet(s);
    NobodyJudges(s);
    SpawnJudging(s.threads, s.next, Dispatched(s).threads[s.next], |s.tasks|);
  }

  // ---- the engine while its first request, which is synchronous, is all it has seen

  ghost predicate Synchronous(task: Task) {
    task.interval == 0 && !task.async && task.op != "stop"
  }

  /** All that is going on is what the dispatcher goroutine is inside of. */
  ghost predicate Alone(s: State) {
    (forall t :: t in s.threads ==> s.busy == Some(t) && Synchronous(s.threads[t].task)) && s.timers == map[] &&
    (forall r :: r in s.table ==> s.table[r].count == 0 && !s.table[r].terminate)
  }

  lemma AloneAdvance(s: State, t: nat, late: bool)
    requires Tied(s) && Alone(s) && CanAdvance(s, t, late)
    ensures Alone(Advanced(s, t, late))
  {
    assert ThreadOk(s.tasks, s.threads[t]);
  }

  lemma AloneStep(s: State, e: Event)
    requires Tied(s) && Alone(s) && Enabled(s, e)
    requires e.Dispatch? ==> Synchronous(TaskOf(s.requests[0]))
    ensures Alone(Apply(s, e))
  {
    match e
    case Advance(t, late) => AloneAdvance(s, t, late);
    case _ =>
  }

  // ---- a chain that has not reported yet is going to

  ghost function Posted(s: State, chain: nat): nat {
    |VerdictsOf(s.posts, chain)|
  }

  ghost predicate BeforeReport(th: Thread) {
    th.pc.Enter? || th.pc.Enrol? || th.pc.Sleep? || th.pc.Waiting? || th.pc.Taken? || th.pc.Posting?
  }

  /** A goroutine is on its way to the chain's first report. */
  ghost predicate Awaited(threads: map<nat, Thread>, chain: nat) {
    exists t :: t in threads && threads[t].chain == chain && BeforeReport(threads[t])
  }

  ghost predicate ReportComes(s: State, chain: nat) {
    Posted(s, chain) == 0 ==> Awaited(s.threads, chain)
  }

  /** A result of the chain that is about to be judged would be reported. */
  ghost predicate Audible(s: State, chain: nat) {
    forall t :: t in s.threads && s.threads[t].chain == chain && s.threads[t].pc.Taken? ==>
      !Suppressed(s.table, s.threads[t].task, s.threads[t].pc.res)
  }

  lemma ComesAdvance(s: State, t: nat, late: bool, chain: nat)
    requires ReportComes(s, chain) && (Posted(s, chain) == 0 ==> Audible(s, chain)) && CanAdvance(s, t, late)
    ensures ReportComes(Advanced(s, t, late), chain)
  {
    var s' := Advanced(s, t, late);
    if s.threads[t].chain == chain { OwnLogs(s, t, late, chain); } else { ForeignLogs(s, t, late, chain); }
    if Posted(s', chain) == 0 {
      var u :| u in s.threads && s.threads[u].chain == chain && BeforeReport(s.threads[u]);
      assert u in s'.threads && s'.threads[u].chain == chain && BeforeReport(s'.threads[u]);
    }
  }

  lemma ComesSpawn(s: State, threads: map<nat, Thread>, chain: nat)
    requires ReportComes(s, chain) && forall t :: t in s.threads ==> t in threads && threads[t] == s.threads[t]
    ensures ReportComes(s.(threads := threads), chain)
  {
    if Posted(s, chain) == 0 {
      var u :| u in s.threads && s.threads[u].chain == chain && BeforeReport(s.threads[u]);
      assert u in threads && threads[u].chain == chain && BeforeReport(threads[u]);
    }
  }

  lemma ComesStep(s: State, e: Event, chain: nat)
    requires Tied(s) && ReportComes(s, chain) && (Posted(s, chain) == 0 ==> Audible(s, chain)) && Enabled(s, e)
    ensures ReportComes(Apply(s, e), chain)
  {
    match e
    case Advance(t, late) => ComesAdvance(s, t, late, chain);
    case Dispatch => ComesSpawn(s, Dispatched(s).threads, chain);
    case Fire(m) => ComesSpawn(s, FiredTimer(s, m).threads, chain);
    case _ =>
  }

  lemma AloneIsAudible(s: State, chain: nat)
    requires Tied(s) && Alone(s)
    ensures Audible(s, chain)
  {
  }

  const UNKNOWN: Past := Past(0, false)

  /** A monitor's first result is reported when nothing was recorded before. */
  lemma MonitorIsAudible(s: State, chain: nat)
    requires Tied(s) && MonitorInv(s, chain, UNKNOWN) && Posted(s, chain) == 0
    ensures Audible(s, chain)
  {
    forall t | t in s.threads && s.threads[t].chain == chain && s.threads[t].pc.Taken?
      ensures !Suppressed(s.table, s.threads[t].task, s.threads[t].pc.res)
    {
      var th := s.threads[t];
      var rets, past := VerdictsOf(s.takes, chain), Recorded(s.table, s.tasks[chain].rscid);
      assert ThreadOk(s.tasks, th) && MonitorThread(th, s.runs, rets, UNKNOWN, past);
      assert JudgingOf(s.threads, chain);
      ExpectedOks(rets[..|rets| - 1], UNKNOWN);
      LastDecided(rets, UNKNOWN, past, th.task, th.pc.res);
    }
  }

  // ---- both

  /**
   The requests dispatched so far are a synchronous one, then perhaps a recurring monitor; the monitor is
   not dispatched before the first request was reported.
   */
  ghost predicate Stage(s: State) {
    Inv(s) && !s.down && |s.tasks| <= 2 &&
    (|s.tasks| < 2 ==> Alone(s)) &&
    (|s.tasks| > 0 ==> OneShot(s, 0) && ReportComes(s, 0)) &&
    (|s.tasks| == 2 ==> Posted(s, 0) > 0 && MonitorInv(s, 1, UNKNOWN) && ReportComes(s, 1))
  }

  /** What may be dispatched next. */
  ghost predicate Expects(s: State) {
    |s.tasks| < 2 && s.requests != [] && WellFormed(s.requests[0]) &&
    (if |s.tasks| == 0 then Synchronous(TaskOf(s.requests[0])) else RecurringMonitor(TaskOf(s.requests[0])))
  }

  lemma MonitorAfterAlone(s: State)
    requires Inv(s) && Alone(s) && |s.tasks| == 1 && Enabled(s, Dispatch) && RecurringMonitor(TaskOf(s.requests[0]))
    ensures MonitorInv(Dispatched(s), 1, UNKNOWN)
  {
    NothingYet(s);
    MonitorBegins(s);
  }

  lemma FirstDispatch(s: State)
    requires Stage(s) && Enabled(s, Dispatch) && Expects(s) && |s.tasks| == 0
    ensures Stage(Dispatched(s))
  {
    InvStep(s, Dispatch);
    AloneStep(s, Dispatch);
    OneShotBegins(s);
    var s' := Dispatched(s);
    assert s'.threads[s.next].chain == 0 && BeforeReport(s'.threads[s.next]);
  }

  lemma SecondDispatch(s: State)
    requires Stage(s) && Enabled(s, Dispatch) && Expects(s) && |s.tasks| == 1
    ensures Stage(Dispatched(s))
  {
    InvStep(s, Dispatch);
    OneShotStep(s, Dispatch, 0);
    MonitorAfterAlone(s);
    ComesStep(s, Dispatch, 0) by { AloneIsAudible(s, 0); }
    var s' := Dispatched(s);
    assert s.threads == map[];
    assert s'.threads[s.next].chain == 1 && BeforeReport(s'.threads[s.next]);
  }

  lemma PostedStays(s: State, e: Event, chain: nat)
    requires Enabled(s, e)
    ensures Posted(s, chain) <= Posted(Apply(s, e), chain)
  {
    if e.Advance? {
      if s.threads[e.thread].chain == chain {
        OwnLogs(s, e.thread, e.late, chain);
      } else {
        ForeignLogs(s, e.thread, e.late, chain);
      }
    }
  }

  /** A step with the first request under way. */
  lemma FirstStep(s: State, e: Event)
    requires Stage(s) && Enabled(s, e) && !e.Dispatch? && !e.Panic? && |s.tasks| < 2
    ensures Stage(Apply(s, e))
  {
    InvStep(s, e);
    AloneStep(s, e);
    if |s.tasks| > 0 {
      OneShotStep(s, e, 0);
      AloneIsAudible(s, 0);
      ComesStep(s, e, 0);
    }
  }

  /** A step with the monitor under way. */
  lemma SecondStep(s: State, e: Event)
    requires Stage(s) && Enabled(s, e) && !e.Dispatch? && !e.Panic? && |s.tasks| == 2
    ensures Stage(Apply(s, e))
  {
    InvStep(s, e);
    OneShotStep(s, e, 0);
    PostedStays(s, e, 0);
    MonitorStep(s, e, 1, UNKNOWN);
    if Posted(s, 1) == 0 { MonitorIsAudible(s, 1); }
    ComesStep(s, e, 1);
  }

  lemma StageStep(s: State, e: Event)
    requires Stage(s) && Enabled(s, e) && !e.Panic? && (e.Dispatch? ==> Expects(s))
    ensures Stage(Apply(s, e))
  {
    if e.Dispatch? {
      if |s.tasks| == 0 { FirstDispatch(s); } else { SecondDispatch(s); }
    } else {
      assert Apply(s, e).tasks == s.tasks;
      if |s.tasks| < 2 { FirstStep(s, e); } else { SecondStep(s, e); }
    }
  }

  lemma StageInit()
    ensures Stage(INIT)
  {
    InvInit();
  }

  // ---- the number of reports

  lemma {:induction false} PostsSplit(posts: seq<Outcome>)
    requires forall o :: o in posts ==> o.chain < 2
    ensures |posts| == |VerdictsOf(posts, 0)| + |VerdictsOf(posts, 1)|
  {
    if posts != [] {
      var n := |posts| - 1;
      assert posts[n] in posts;
      forall o | o in posts[..n] ensures o.chain < 2 { assert o in posts; }
      PostsSplit(posts[..n]);
    }
  }

  lemma {:induction false} ExpectedShort(rets: seq<Verdict>, base: Past)
    requires OkButLast(rets)
    ensures |Expected(rets, base)| <= 2
    ensures |rets| > 0 && rets[|rets| - 1].ret == CL_OK ==> |Expected(rets, base)| <= 1
  {
    if rets != [] {
      var init := rets[..|rets| - 1];
      ExpectedShort(init, base);
      assert |init| > 0 ==> init[|init| - 1].ret == rets[|rets| - 2].ret == CL_OK;
    }
  }

  /** Every report belongs to a dispatched request. */
  lemma PostsAreDispatched(s: State)
    requires Logged(s) && Balanced(s)
    ensures forall o :: o in s.posts ==> o.chain < |s.tasks|
  {
    forall o | o in s.posts ensures o.chain < |s.tasks| {
      assert o in multiset(s.posts) && o in multiset(s.takes);
      assert OutcomeOk(s.tasks, o);
    }
  }

  lemma {:induction false} NoPosts(posts: seq<Outcome>, chain: nat)
    requires forall o :: o in posts ==> o.chain < chain
    ensures VerdictsOf(posts, chain) == []
  {
    if posts != [] {
      var n := |posts| - 1;
      assert posts[n] in posts;
      forall o | o in posts[..n] ensures o.chain < chain { assert o in posts; }
      NoPosts(posts[..n], chain);
    }
  }

  lemma MonitorPosts(s: State)
    requires MonitorInv(s, 1, UNKNOWN)
    ensures Posted(s, 1) <= 2
  {
    ExpectedShort(Decided(JudgingOf(s.threads, 1), VerdictsOf(s.takes, 1)), UNKNOWN);
  }

  /** The first request is reported at most once, the monitor at most twice. */
  lemma ReportsAreFew(s: State)
    requires Stage(s)
    ensures |s.posts| == Posted(s, 0) + Posted(s, 1) && Posted(s, 0) <= 1 && Posted(s, 1) <= 2
    ensures |s.tasks| == 0 ==> Posted(s, 0) == 0
    ensures |s.tasks| <= 1 ==> Posted(s, 1) == 0
  {
    PostsAreDispatched(s);
    PostsSplit(s.posts);
    if |s.tasks| == 0 { NoPosts(s.posts, 0); }
    if |s.tasks| <= 1 { NoPosts(s.posts, 1); } else { MonitorPosts(s); }
  }
}
