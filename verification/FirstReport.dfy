/**
 The first result of a new monitor on a calm resource: it is on its way, being judged, or reported - or it is
 not the result in question.
 */
module FirstReport {
  import opened Engine
  import opened EngineInvariants
  import opened EngineAccounts
  import opened Driving
  import opened StopBarrier
  import opened MonitorReports
  import opened Disturbance

  ghost predicate Mine(s: State, me: nat, t: nat) {
    t in s.threads && s.threads[t].chain == me
  }

  /** A count the run has read hides no success. */
  ghost predicate Low(run: Run, ok: bool) {
    ok ==> (run.proc.Counted? ==> run.proc.count <= 0) && forall m :: m in run.fin ==> m.count <= 0
  }

  ghost predicate BeforeResult(th: Thread, runs: map<nat, Run>, ok: bool) {
    match th.pc
    case Enter => true
    case Sleep(_) => true
    case Waiting(r) => r in runs && Low(runs[r], ok)
    case _ => false
  }

  /** The result v is being judged, or about to be sent. */
  ghost predicate AtJudge(th: Thread, v: Verdict, ok: bool) {
    match th.pc
    case Taken(_, res) => v == Verdict(res.ret, false) && (ok ==> res.count <= 0)
    case Posting(_, res, late) => v == Verdict(res.ret, late)
    case _ => false
  }

  /** The monitor has no result yet. */
  ghost predicate Open(s: State, me: nat, ok: bool) {
    VerdictsOf(s.takes, me) == [] && VerdictsOf(s.posts, me) == [] &&
    forall t :: Mine(s, me, t) ==> BeforeResult(s.threads[t], s.runs, ok)
  }

  ghost predicate InJudgement(s: State, me: nat, ok: bool) {
    var rets := VerdictsOf(s.takes, me);
    |rets| == 1 && VerdictsOf(s.posts, me) == [] && JudgingOf(s.threads, me) &&
    forall t :: Mine(s, me, t) ==> AtJudge(s.threads[t], rets[0], ok)
  }

  ghost predicate Told(s: State, me: nat) {
    var rets, reports := VerdictsOf(s.takes, me), VerdictsOf(s.posts, me);
    rets != [] && reports != [] && reports[0] == rets[0]
  }

  /** The first result is not the one in question. */
  ghost predicate Otherwise(s: State, me: nat, ok: bool) {
    var rets := VerdictsOf(s.takes, me);
    rets != [] && rets[0].ret != RetOf(ok)
  }

  ghost predicate Awaited(s: State, me: nat, ok: bool) {
    me < |s.tasks| && RecurringMonitor(s.tasks[me]) && (forall m :: m in s.timers ==> s.timers[m].chain != me) &&
    Calm(s, me, s.tasks[me].rscid, ok) && (Open(s, me, ok) || InJudgement(s, me, ok))
  }

  ghost predicate Promised(s: State, me: nat, ok: bool) {
    Told(s, me) || Otherwise(s, me, ok) || Awaited(s, me, ok)
  }

  // ---- what has been told stays told

  lemma LogsGrow(s: State, e: Event, me: nat)
    requires Enabled(s, e)
    ensures VerdictsOf(s.takes, me) <= VerdictsOf(Apply(s, e).takes, me)
    ensures VerdictsOf(s.posts, me) <= VerdictsOf(Apply(s, e).posts, me)
  {
    if e.Advance? {
      if s.threads[e.thread].chain == me {
        OwnLogs(s, e.thread, e.late, me);
      } else {
        ForeignLogs(s, e.thread, e.late, me);
      }
    }
  }

  lemma ToldStays(s: State, e: Event, me: nat, ok: bool)
    requires Enabled(s, e)
    ensures Told(s, me) ==> Told(Apply(s, e), me)
    ensures Otherwise(s, me, ok) ==> Otherwise(Apply(s, e), me, ok)
  {
    LogsGrow(s, e, me);
  }

  // ---- the monitor's own steps

  /** Up to its judgement the monitor touches neither record nor timers. */
  lemma OwnLeaves(s: State, t: nat, late: bool, me: nat, ok: bool)
    requires Tied(s) && Awaited(s, me, ok) && CanAdvance(s, t, late) && Mine(s, me, t)
    ensures NextTable(s.table, s.threads[t]) == s.table && NextTimers(s, s.threads[t]) == s.timers
    ensures !Left(s, me, s.tasks[me].rscid, t) && Owner(s.threads, t, me)
  {
    assert ThreadOk(s.tasks, s.threads[t]);
  }

  lemma OnlyMine(s: State, t: nat, me: nat, ok: bool)
    requires Linear(s.threads, s.timers) && Awaited(s, me, ok) && Mine(s, me, t)
    ensures forall u :: Mine(s, me, u) ==> u == t
  {
    forall u | Mine(s, me, u) ensures Owner(s.threads, u, me) {
    }
  }

  lemma StillOnlyMine(s: State, t: nat, late: bool, me: nat)
    requires CanAdvance(s, t, late) && forall u :: Mine(s, me, u) ==> u == t
    ensures forall u :: Mine(Advanced(s, t, late), me, u) ==> u == t
  {
    forall u | Mine(Advanced(s, t, late), me, u) ensures u == t {
      assert Mine(s, me, u);
    }
  }

  lemma OwnWaits(s: State, t: nat, late: bool, ok: bool)
    requires Tied(s) && CanAdvance(s, t, late) && !s.threads[t].pc.Waiting? && s.threads[t].task.interval > 0
    requires BeforeResult(s.threads[t], s.runs, ok)
    ensures var s' := Advanced(s, t, late); t in s'.threads && BeforeResult(s'.threads[t], s'.runs, ok)
  {
  }

  lemma OwnResult(s: State, t: nat, late: bool, ok: bool)
    requires Tied(s) && CanAdvance(s, t, late) && s.threads[t].pc.Waiting? && BeforeResult(s.threads[t], s.runs, ok)
    ensures var s' := Advanced(s, t, late);
      t in s'.threads && Judging(s'.threads[t]) && s'.threads[t].chain == s.threads[t].chain &&
      AtJudge(s'.threads[t], Verdict(Received(s.runs[s.threads[t].pc.run], late).ret, late), ok)
  {
    var run := s.runs[s.threads[t].pc.run];
    assert Received(run, late) in (if late then run.late else run.fin);
  }

  /** Before there is a result. */
  lemma OwnOpen(s: State, t: nat, late: bool, me: nat, ok: bool)
    requires Tied(s) && Waits(s.threads, s.runs) && Linear(s.threads, s.timers)
    requires Awaited(s, me, ok) && Open(s, me, ok) && CanAdvance(s, t, late) && Mine(s, me, t)
    ensures Open(Advanced(s, t, late), me, ok) || InJudgement(Advanced(s, t, late), me, ok)
  {
    OwnLogs(s, t, late, me);
    OnlyMine(s, t, me, ok);
    StillOnlyMine(s, t, late, me);
    assert ThreadOk(s.tasks, s.threads[t]) && BeforeResult(s.threads[t], s.runs, ok);
    if s.threads[t].pc.Waiting? { OwnResult(s, t, late, ok); } else { OwnWaits(s, t, late, ok); }
  }

  /** The judgement of the result in question. */
  lemma OwnJudged(s: State, t: nat, late: bool, me: nat, ok: bool)
    requires Tied(s) && Linear(s.threads, s.timers)
    requires Awaited(s, me, ok) && InJudgement(s, me, ok) && CanAdvance(s, t, late) && Mine(s, me, t)
    ensures var s' := Advanced(s, t, late); Told(s', me) || Otherwise(s', me, ok) || InJudgement(s', me, ok)
  {
    var s', th := Advanced(s, t, late), s.threads[t];
    OwnLogs(s, t, late, me);
    OnlyMine(s, t, me, ok);
    StillOnlyMine(s, t, late, me);
    assert ThreadOk(s.tasks, th) && AtJudge(th, VerdictsOf(s.takes, me)[0], ok);
    if th.pc.Taken? {
      assert t in s'.threads && (s'.threads[t].pc.Posting? ==> Judging(s'.threads[t]));
    }
  }

  lemma OwnAdvanced(s: State, t: nat, late: bool, me: nat, ok: bool)
    requires Inv(s) && Awaited(s, me, ok) && CanAdvance(s, t, late) && Mine(s, me, t)
    ensures Promised(Advanced(s, t, late), me, ok)
  {
    OwnLeaves(s, t, late, me, ok);
    CalmElsewhere(s, t, late, me, s.tasks[me].rscid, ok);
    if Open(s, me, ok) { OwnOpen(s, t, late, me, ok); } else { OwnJudged(s, t, late, me, ok); }
  }

  // ---- the steps of others

  /** What is the monitor's stays as it is. */
  lemma OthersLeave(s: State, t: nat, late: bool, me: nat, ok: bool)
    requires Tied(s) && Waits(s.threads, s.runs) && CanAdvance(s, t, late) && t in s.threads && s.threads[t].chain != me
    requires Open(s, me, ok) || InJudgement(s, me, ok)
    ensures Open(Advanced(s, t, late), me, ok) || InJudgement(Advanced(s, t, late), me, ok)
    ensures (forall m :: m in s.timers ==> s.timers[m].chain != me) ==>
      forall m :: m in NextTimers(s, s.threads[t]) ==> NextTimers(s, s.threads[t])[m].chain != me
  {
    var s' := Advanced(s, t, late);
    ForeignLogs(s, t, late, me);
    ForeignJudging(s, t, late, me);
    forall u | Mine(s', me, u)
      ensures Mine(s, me, u) && s'.threads[u] == s.threads[u]
      ensures s.threads[u].pc.Waiting? ==>
        var r := s.threads[u].pc.run; r in s.runs && r in s'.runs && s'.runs[r] == s.runs[r]
    {
      ForeignRuns(s, t, late, u);
    }
  }

  lemma OthersAdvanced(s: State, t: nat, late: bool, me: nat, ok: bool)
    requires Inv(s) && Awaited(s, me, ok) && CanAdvance(s, t, late) && s.threads[t].chain != me
    ensures Awaited(Advanced(s, t, late), me, ok)
  {
    var rscid := s.tasks[me].rscid;
    OthersLeave(s, t, late, me, ok);
    if !Left(s, me, rscid, t) {
      CalmElsewhere(s, t, late, me, rscid, ok);
    } else if s.threads[t].pc.Fired? {
      CalmCallback(s, t, late, me, rscid, ok);
    } else {
      CalmHere(s, t, late, me, rscid, ok);
    }
  }

  lemma ProcessLow(s: State, r: nat, act: Act, t: nat, me: nat, ok: bool)
    requires Tied(s) && Waits(s.threads, s.runs) && Enabled(s, Process(r, act)) && Mine(s, me, t)
    requires me < |s.tasks| && Fine(Recorded(s.table, s.tasks[me].rscid), ok) && BeforeResult(s.threads[t], s.runs, ok)
    ensures BeforeResult(s.threads[t], Processed(s, r, act).runs, ok)
  {
    if s.threads[t].pc == Waiting(r) {
      assert WaitsFor(s.threads, s.runs, t, r) && RunOk(s.tasks, s.runs[r]) && ThreadOk(s.tasks, s.threads[t]);
    }
  }

  lemma ProcessPromised(s: State, r: nat, act: Act, me: nat, ok: bool)
    requires Tied(s) && Waits(s.threads, s.runs) && Awaited(s, me, ok) && Enabled(s, Process(r, act))
    ensures Awaited(Processed(s, r, act), me, ok)
  {
    CalmProcess(s, r, act, me, s.tasks[me].rscid, ok);
    forall t | Mine(s, me, t) && BeforeResult(s.threads[t], s.runs, ok)
      ensures BeforeResult(s.threads[t], Processed(s, r, act).runs, ok)
    {
      ProcessLow(s, r, act, t, me, ok);
    }
  }

  lemma SpawnPromised(s: State, s': State, t: nat, me: nat, ok: bool)
    requires Awaited(s, me, ok) && Calm(s', me, s.tasks[me].rscid, ok) && t !in s.threads && t in s'.threads
    requires s'.threads == s.threads[t := s'.threads[t]] && s'.threads[t].chain != me && !Judging(s'.threads[t])
    requires s'.runs == s.runs && s'.takes == s.takes && s'.posts == s.posts && s.tasks <= s'.tasks
    requires forall m :: m in s'.timers ==> m in s.timers && s'.timers[m] == s.timers[m]
    ensures Awaited(s', me, ok)
  {
    SpawnJudging(s.threads, t, s'.threads[t], me);
    assert forall u :: Mine(s', me, u) ==> Mine(s, me, u) && s'.threads[u] == s.threads[u];
  }

  lemma DispatchPromised(s: State, me: nat, ok: bool)
    requires Tied(s) && Awaited(s, me, ok) && Enabled(s, Dispatch)
    requires s.requests[0].body.request.rscid != s.tasks[me].rscid
    ensures Awaited(Dispatched(s), me, ok)
  {
    CalmDispatch(s, me, s.tasks[me].rscid, ok);
    SpawnPromised(s, Dispatched(s), s.next, me, ok);
  }

  lemma FirePromised(s: State, m: nat, me: nat, ok: bool)
    requires Tied(s) && Awaited(s, me, ok) && Enabled(s, Fire(m))
    ensures Awaited(FiredTimer(s, m), me, ok)
  {
    CalmFire(s, m, me, s.tasks[me].rscid, ok);
    SpawnPromised(s, FiredTimer(s, m), s.next, me, ok);
  }

  /** Steps that touch nothing the promise is about. */
  lemma RestPromised(s: State, e: Event, me: nat, ok: bool)
    requires Awaited(s, me, ok) && Enabled(s, e)
    requires !e.Advance? && !e.Process? && !e.Dispatch? && !e.Fire?
    ensures Awaited(Apply(s, e), me, ok)
  {
    var s' := Apply(s, e);
    assert s'.threads == s.threads && s'.timers == s.timers && s'.runs == s.runs && s'.table == s.table;
    CalmWithFewer(s, s', me, s.tasks[me].rscid, ok);
    assert forall t :: Mine(s', me, t) ==> Mine(s, me, t);
  }

  lemma AwaitedStep(s: State, e: Event, me: nat, ok: bool)
    requires Inv(s) && Awaited(s, me, ok) && Enabled(s, e)
    requires e.Dispatch? ==> s.requests[0].body.request.rscid != s.tasks[me].rscid
    ensures Promised(Apply(s, e), me, ok)
  {
    match e
    case Advance(t, late) =>
      if s.threads[t].chain == me { OwnAdvanced(s, t, late, me, ok); } else { OthersAdvanced(s, t, late, me, ok); }
    case Process(r, act) => ProcessPromised(s, r, act, me, ok);
    case Dispatch => DispatchPromised(s, me, ok);
    case Fire(m) => FirePromised(s, m, me, ok);
    case _ => RestPromised(s, e, me, ok);
  }

  lemma PromisedStep(s: State, e: Event, me: nat, ok: bool)
    requires Inv(s) && Promised(s, me, ok) && me < |s.tasks| && Enabled(s, e)
    requires e.Dispatch? ==> s.requests[0].body.request.rscid != s.tasks[me].rscid
    ensures Promised(Apply(s, e), me, ok)
  {
    ToldStays(s, e, me, ok);
    if Awaited(s, me, ok) {
      AwaitedStep(s, e, me, ok);
    }
  }

  lemma {:induction false} PromisedRun(s: State, es: seq<Event>, me: nat, ok: bool)
    requires Inv(s) && Promised(s, me, ok) && me < |s.tasks| && Runs(s, es) && NoRequest(s, es, s.tasks[me].rscid)
    ensures Promised(After(s, es), me, ok)
    decreases es
  {
    if es != [] {
      InvStep(s, es[0]);
      PromisedStep(s, es[0], me, ok);
      assert Apply(s, es[0]).tasks[me] == s.tasks[me];
      PromisedRun(Apply(s, es[0]), es[1..], me, ok);
    }
  }
}
