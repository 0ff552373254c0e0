/**
 The promise that a recurring monitor reports its first result (rmanager/rman.go, waitChildFunc): exactly
 when it holds, and reachable states in which it does not.
 */
module MonitorPromise {
  import opened Messages
  import opened Records
  import opened Engine
  import opened EngineInvariants
  import opened EngineAccounts
  import opened EngineTheorems
  import opened Driving
  import opened Scenarios
  import opened StopBarrier
  import opened Leftovers
  import opened MonitorReports
  import opened Disturbance
  import opened FirstReport
  import opened Disturbing
  import Repetition

  /** A recurring monitor is about to be dispatched. */
  ghost predicate Begins(s: State) {
    Enabled(s, Dispatch) && RecurringMonitor(TaskOf(s.requests[0]))
  }

  ghost function Rscid(s: State): int
    requires Begins(s)
  {
    s.requests[0].body.request.rscid
  }

  /** What is recorded of its resource then. */
  ghost function Found(s: State): Past
    requires Begins(s)
  {
    Recorded(s.table, Rscid(s))
  }

  /** The record hides no first success - or failure - and no leftover of an earlier request can make it. */
  ghost predicate IsCalm(s: State, ok: bool)
    requires Begins(s)
  {
    Calm(s, |s.tasks|, Rscid(s), ok)
  }

  /** The monitor is dispatched, and no other request for its resource is. */
  ghost predicate During(s: State, es: seq<Event>)
    requires Begins(s)
  {
    Runs(Dispatched(s), es) && NoRequest(Dispatched(s), es, Rscid(s))
  }

  /** Its first result has come, is a success or a failure, and no result of it is still being judged. */
  ghost predicate FirstIs(s: State, s': State, ok: bool) {
    var rets := VerdictsOf(s'.takes, |s.tasks|);
    rets != [] && rets[0].ret == RetOf(ok) && !JudgingOf(s'.threads, |s.tasks|)
  }

  ghost predicate FirstIsReported(s: State, s': State) {
    var rets, reports := VerdictsOf(s'.takes, |s.tasks|), VerdictsOf(s'.posts, |s.tasks|);
    rets != [] && reports != [] && reports[0] == rets[0]
  }

  /** In every run a first success - or a first failure - is reported. */
  ghost predicate ReportsFirst(s: State, ok: bool)
    requires Begins(s)
  {
    forall es :: During(s, es) && FirstIs(s, After(Dispatched(s), es), ok) ==>
      FirstIsReported(s, After(Dispatched(s), es))
  }

  // ---- a calm resource keeps the promise

  /** No goroutine or timer belongs to a chain that has not begun. */
  lemma NobodysChain(s: State)
    requires Tied(s)
    ensures forall t :: t in s.threads ==> s.threads[t].chain != |s.tasks|
    ensures forall m :: m in s.timers ==> s.timers[m].chain != |s.tasks|
  {
    forall t | t in s.threads ensures s.threads[t].chain != |s.tasks| {
      assert ThreadOk(s.tasks, s.threads[t]);
    }
  }

  lemma CalmWhenDispatched(s: State, ok: bool)
    requires Tied(s) && Begins(s) && IsCalm(s, ok)
    ensures Calm(Dispatched(s), |s.tasks|, Rscid(s), ok)
  {
    CalmWithFewer(s, Dispatched(s), |s.tasks|, Rscid(s), ok);
  }

  lemma OpenWhenDispatched(s: State, ok: bool)
    requires Tied(s) && Begins(s) && VerdictsOf(s.takes, |s.tasks|) == VerdictsOf(s.posts, |s.tasks|) == []
    ensures Open(Dispatched(s), |s.tasks|, ok)
    ensures forall m :: m in s.timers ==> s.timers[m].chain != |s.tasks|
  {
    NobodysChain(s);
    assert forall t :: Mine(Dispatched(s), |s.tasks|, t) ==> t == s.next;
  }

  lemma PromiseBegins(s: State, ok: bool)
    requires Inv(s) && Begins(s) && IsCalm(s, ok)
    ensures Promised(Dispatched(s), |s.tasks|, ok)
  {
    NothingYet(s);
    CalmWhenDispatched(s, ok);
    OpenWhenDispatched(s, ok);
  }

  lemma PromiseHolds(s: State, es: seq<Event>, ok: bool)
    requires Reachable(s) && Begins(s) && IsCalm(s, ok) && During(s, es)
    ensures Promised(After(Dispatched(s), es), |s.tasks|, ok)
  {
    ReachableInv(s);
    PromiseBegins(s, ok);
    InvStep(s, Dispatch);
    PromisedRun(Dispatched(s), es, |s.tasks|, ok);
  }

  lemma PromiseIsKept(s: State, es: seq<Event>, ok: bool)
    requires Reachable(s) && Begins(s) && IsCalm(s, ok)
    requires During(s, es) && FirstIs(s, After(Dispatched(s), es), ok)
    ensures FirstIsReported(s, After(Dispatched(s), es))
  {
    PromiseHolds(s, es, ok);
  }

  // ---- a record that hides the result does so

  /** The count the goroutine's run has read, or its result carries, is k. */
  ghost predicate Reads(runs: map<nat, Run>, th: Thread, k: int) {
    match th.pc
    case Waiting(r) => r in runs && CountIs(runs[r], k)
    case Taken(_, res) => res.count == k
    case _ => true
  }

  /** The goroutine is heading for a result on the record there is. */
  ghost predicate OnRecord(s: State, t: nat, ok: bool) {
    t in s.threads && s.threads[t].task.interval > 0 && Heading(s.runs, s.threads[t], ok) &&
    Reads(s.runs, s.threads[t], Count(s.table, s.threads[t].task.rscid))
  }

  /** It has the result, and nothing has been reported. */
  ghost predicate HasRead(s: State, s': State, t: nat, ok: bool) {
    SameThread(s, s', t) && HasResult(s'.threads[t], ok) && s'.table == s.table && s'.down == s.down &&
    s'.threads[t].pc.res.count == Count(s.table, s.threads[t].task.rscid) && s'.posts == s.posts &&
    var n := |s.takes|;
    |s'.takes| == n + 1 && s.takes <= s'.takes && s'.takes[n].chain == s.threads[t].chain &&
    s'.takes[n].res.ret == RetOf(ok)
  }

  lemma ReadsAct(s: State, t: nat, w: Event)
    requires Tied(s) && Waits(s.threads, s.runs) && t in s.threads && Enabled(s, w) && !w.Advance?
    requires w.Process? || w.Tick?
    requires Reads(s.runs, s.threads[t], Count(s.table, s.threads[t].task.rscid))
    ensures Reads(Apply(s, w).runs, s.threads[t], Count(s.table, s.threads[t].task.rscid))
    ensures Apply(s, w).table == s.table && Apply(s, w).posts == s.posts && Apply(s, w).takes == s.takes
  {
    if w.Process? && s.threads[t].pc == Waiting(w.run) {
      assert WaitsFor(s.threads, s.runs, t, w.run) && RunOk(s.tasks, s.runs[w.run]) && ThreadOk(s.tasks, s.threads[t]);
      CountKept(s.runs[w.run], s.now, s.table, w.act);
    }
  }

  /** One step nearer to the result. */
  ghost predicate Nears(s: State, s': State, t: nat, ok: bool) {
    OnRecord(s', t, ok) && SameThread(s, s', t) && s'.table == s.table && s'.down == s.down &&
    s'.posts == s.posts && s'.takes == s.takes
  }

  lemma ReadsResult(s: State, t: nat, ok: bool)
    requires Tied(s) && CanAdvance(s, t, false) && OnRecord(s, t, ok) && s.threads[t].pc.Waiting?
    requires s.runs[s.threads[t].pc.run].proc == Gone
    ensures HasRead(s, Advanced(s, t, false), t, ok)
  {
    assert Received(s.runs[s.threads[t].pc.run], false) in s.runs[s.threads[t].pc.run].fin;
  }

  lemma ReadsAdvance(s: State, t: nat, ok: bool)
    requires Tied(s) && CanAdvance(s, t, false) && OnRecord(s, t, ok) && !s.threads[t].pc.Waiting?
    ensures Nears(s, Advanced(s, t, false), t, ok)
  {
    assert ThreadOk(s.tasks, s.threads[t]);
  }

  lemma RecordStep(s: State, t: nat, ok: bool) returns (w: Event)
    requires Tied(s) && Waits(s.threads, s.runs) && !s.down && OnRecord(s, t, ok)
    ensures Enabled(s, w) && !w.Dispatch?
    ensures var s' := Apply(s, w);
      HasRead(s, s', t, ok) ||
      (Tied(s') && Waits(s'.threads, s'.runs) && Nears(s, s', t, ok) && Ahead(s', t) < Ahead(s, t))
  {
    w := NextWork(s, t, ok);
    if !w.Advance? {
      ReadsAct(s, t, w);
    } else if s.threads[t].pc.Waiting? {
      ReadsResult(s, t, ok);
    } else {
      ReadsAdvance(s, t, ok);
    }
  }

  lemma ReadsRecord(s: State, t: nat, ok: bool) returns (es: seq<Event>, s': State)
    requires Tied(s) && Waits(s.threads, s.runs) && !s.down && OnRecord(s, t, ok)
    ensures Leads(s, es, s') && HasRead(s, s', t, ok)
    decreases Ahead(s, t)
  {
    var w := RecordStep(s, t, ok);
    var s1 := Apply(s, w);
    One(s, w);
    es, s' := [w], s1;
    if !HasRead(s, s1, t, ok) {
      var rest;
      rest, s' := ReadsRecord(s1, t, ok);
      Then(s, es, s1, rest, s');
      es := es + rest;
    }
  }

  /** With such a record the result is suppressed. */
  lemma IsSuppressed(s: State, t: nat, ok: bool)
    requires Tied(s) && t in s.threads && HasResult(s.threads[t], ok) && RecurringMonitor(s.threads[t].task)
    requires s.threads[t].pc.res.count == Count(s.table, s.threads[t].task.rscid)
    requires !Fine(Recorded(s.table, s.threads[t].task.rscid), ok)
    ensures Suppressed(s.table, s.threads[t].task, s.threads[t].pc.res)
  {
    assert ThreadOk(s.tasks, s.threads[t]);
  }

  lemma OneVerdict(s: State, s': State, t: nat, ok: bool)
    requires HasRead(s, s', t, ok) && VerdictsOf(s.takes, s.threads[t].chain) == []
    ensures var rets := VerdictsOf(s'.takes, s.threads[t].chain); |rets| == 1 && rets[0].ret == RetOf(ok)
  {
    var o := s'.takes[|s.takes|];
    assert s'.takes == s.takes + [o];
    VerdictsSnoc(s.takes, o, s.threads[t].chain);
  }

  lemma JudgedAway(s: State, t: nat, me: nat)
    requires Linear(s.threads, s.timers) && t in s.threads && s.threads[t].chain == me && s.threads[t].pc.Taken?
    requires Suppressed(s.table, s.threads[t].task, s.threads[t].pc.res) && !s.down
    ensures Enabled(s, Advance(t, false))
    ensures var s' := Advanced(s, t, false);
      VerdictsOf(s'.takes, me) == VerdictsOf(s.takes, me) && VerdictsOf(s'.posts, me) == VerdictsOf(s.posts, me) &&
      !JudgingOf(s'.threads, me)
  {
    OwnJudging(s, t, false, me);
    OwnLogs(s, t, false, me);
  }

  lemma InvOfStretch(s: State, es: seq<Event>, s': State)
    requires Inv(s) && Leads(s, es, s')
    ensures Tied(s') && Waits(s'.threads, s'.runs) && Linear(s'.threads, s'.timers)
  {
    InvRun(s, es);
  }

  /** From a record that hides it the result goes by unreported. */
  lemma GoesBy(s: State, t: nat, me: nat, ok: bool) returns (es: seq<Event>, s': State)
    requires Inv(s) && !s.down && OnRecord(s, t, ok) && s.threads[t].chain == me && RecurringMonitor(s.threads[t].task)
    requires !Fine(Recorded(s.table, s.threads[t].task.rscid), ok)
    requires VerdictsOf(s.takes, me) == VerdictsOf(s.posts, me) == []
    ensures Leads(s, es, s') && VerdictsOf(s'.posts, me) == [] && !JudgingOf(s'.threads, me)
    ensures var rets := VerdictsOf(s'.takes, me); |rets| == 1 && rets[0].ret == RetOf(ok)
  {
    var s1;
    es, s1 := ReadsRecord(s, t, ok);
    InvOfStretch(s, es, s1);
    OneVerdict(s, s1, t, ok);
    IsSuppressed(s1, t, ok);
    JudgedAway(s1, t, me);
    One(s1, Advance(t, false));
    s' := Advanced(s1, t, false);
    Then(s, es, s1, [Advance(t, false)], s');
    es := es + [Advance(t, false)];
  }

  /** The monitor as it is when it is dispatched. */
  lemma Dispatching(s: State)
    requires Reachable(s) && Begins(s)
    ensures var s1, t := Dispatched(s), s.next;
      Inv(s1) && !s1.down && t in s1.threads && s1.threads[t].chain == |s.tasks| && s1.threads[t].pc.Enter? &&
      s1.threads[t].task.rscid == Rscid(s) && RecurringMonitor(s1.threads[t].task) &&
      VerdictsOf(s1.takes, |s.tasks|) == VerdictsOf(s1.posts, |s.tasks|) == [] && s1.reports == s.reports
  {
    ReachableInv(s);
    NothingYet(s);
    InvStep(s, Dispatch);
  }

  lemma GoesByAfter(s1: State, a: seq<Event>, s2: State, t: nat, me: nat, ok: bool) returns (es: seq<Event>, s': State)
    requires Inv(s1) && !s1.down && t in s1.threads && s1.threads[t].chain == me && s1.threads[t].pc.Enter?
    requires RecurringMonitor(s1.threads[t].task) && VerdictsOf(s1.takes, me) == VerdictsOf(s1.posts, me) == []
    requires Turns(s1, a, s2, me) && !Fine(Recorded(s2.table, s1.threads[t].task.rscid), ok)
    ensures Leads(s1, es, s') && VerdictsOf(s'.posts, me) == [] && !JudgingOf(s'.threads, me)
    ensures var rets := VerdictsOf(s'.takes, me); |rets| == 1 && rets[0].ret == RetOf(ok)
  {
    InvRun(s1, a);
    var b;
    b, s' := GoesBy(s2, t, me, ok);
    Then(s1, a, s2, b, s');
    es := a + b;
  }

  /** Where the record comes to hide the result while the monitor has not begun, the promise is broken. */
  lemma IsBroken(s: State, a: seq<Event>, s2: State, ok: bool)
    requires Reachable(s) && Begins(s) && Turns(Dispatched(s), a, s2, |s.tasks|)
    requires !Fine(Recorded(s2.table, Rscid(s)), ok)
    ensures !ReportsFirst(s, ok)
  {
    Dispatching(s);
    var es, s3 := GoesByAfter(Dispatched(s), a, s2, s.next, |s.tasks|, ok);
    Repetition.NoDispatchNoRequest(Dispatched(s), es, Rscid(s));
    assert During(s, es) && FirstIs(s, s3, ok) && !FirstIsReported(s, s3);
  }

  // ---- the promise

  lemma DisturbedWhenDispatched(s: State, ok: bool)
    requires Tied(s) && Begins(s) && Disturbed(s, |s.tasks|, Rscid(s), ok)
    ensures Disturbed(Dispatched(s), |s.tasks|, Rscid(s), ok)
  {
    var s', me, rscid := Dispatched(s), |s.tasks|, Rscid(s);
    assert forall t :: Left(s, me, rscid, t) ==> Left(s', me, rscid, t) && s'.threads[t] == s.threads[t];
    assert forall m :: LeftTimer(s, me, rscid, m) ==> LeftTimer(s', me, rscid, m);
  }

  lemma DisturbanceBreaks(s: State, ok: bool)
    requires Reachable(s) && Begins(s) && Disturbed(s, |s.tasks|, Rscid(s), ok) && |s.reports| + 2 <= CHANNEL_CAPACITY
    ensures !ReportsFirst(s, ok)
  {
    ReachableInv(s);
    DisturbedWhenDispatched(s, ok);
    InvStep(s, Dispatch);
    var a, s2 := Hides(Dispatched(s), |s.tasks|, Rscid(s), ok);
    IsBroken(s, a, s2, ok);
  }

  lemma RecordBreaks(s: State, ok: bool)
    requires Reachable(s) && Begins(s) && !Fine(Found(s), ok)
    ensures !ReportsFirst(s, ok)
  {
    ReachableInv(s);
    InvStep(s, Dispatch);
    assert Turns(Dispatched(s), [], Dispatched(s), |s.tasks|);
    IsBroken(s, [], Dispatched(s), ok);
  }

  /**
   A monitor reports its first result - a success, or a failure - in every run without another request for its
   resource exactly when the resource is calm.  Where it is not, the record it finds already breaks the
   promise; or a leftover of an earlier request does, which may need room for two reports.
   */
  lemma FirstResultIsReported(s: State, ok: bool)
    requires Reachable(s) && Begins(s)
    ensures IsCalm(s, ok) ==> ReportsFirst(s, ok)
    ensures !Fine(Found(s), ok) ==> !ReportsFirst(s, ok)
    ensures |s.reports| + 2 <= CHANNEL_CAPACITY ==> (ReportsFirst(s, ok) <==> IsCalm(s, ok))
  {
    if IsCalm(s, ok) {
      forall es | During(s, es) && FirstIs(s, After(Dispatched(s), es), ok)
        ensures FirstIsReported(s, After(Dispatched(s), es))
      {
        PromiseIsKept(s, es, ok);
      }
    } else if !Fine(Found(s), ok) {
      RecordBreaks(s, ok);
    } else if |s.reports| + 2 <= CHANNEL_CAPACITY {
      DisturbanceBreaks(s, ok);
    }
  }

  /** With nothing left that could touch the record, the record it finds decides alone. */
  lemma ClearIsCalm(s: State, ok: bool)
    requires Begins(s) && Clear(s, Rscid(s))
    ensures IsCalm(s, ok) <==> Fine(Found(s), ok)
  {
  }

  // ---- every way to break it is reachable

  /** A monitor that is requested again after a repetition of it failed finds the count of setMonitor. */
  lemma FirstSuccessIsHidden(m: Message) returns (s: State)
    requires Recurring(m) && m.body.request.op == "monitor"
    ensures Reachable(s) && Begins(s) && TaskOf(s.requests[0]) == TaskOf(m) && Clear(s, Rscid(s))
    ensures Found(s) == REPEATING && !ReportsFirst(s, true) && ReportsFirst(s, false)
  {
    var t;
    s, t := RecurringRepeats(m);
    s := AgentRuns(s, t, false);
    s := GoesAway(s, t);
    s := IsQueued(s, m);
    ClearIsCalm(s, true);
    ClearIsCalm(s, false);
    FirstResultIsReported(s, true);
    FirstResultIsReported(s, false);
  }

  /** A monitor that is requested after a stop has finished finds its record terminated: even a failure is lost. */
  lemma FirstFailureIsHidden(q: Message, m: Message) returns (s: State)
    requires Recurring(m) && m.body.request.op == "monitor" && Stop(q, m.body.request.rscid)
    ensures Reachable(s) && Begins(s) && TaskOf(s.requests[0]) == TaskOf(m) && Clear(s, Rscid(s))
    ensures Found(s) == Past(0, true) && !ReportsFirst(s, true) && !ReportsFirst(s, false)
  {
    Initially();
    s := IsDispatched(INIT, q);
    s := AgentRuns(s, INIT.next, true);
    s := GoesAway(s, INIT.next);
    s := IsQueued(s, m);
    FirstResultIsReported(s, true);
    FirstResultIsReported(s, false);
  }

  /** A monitor that is dispatched between the report of an asynchronous stop and its close is overtaken by it. */
  lemma RacingStopHides(q: Message, m: Message) returns (s: State)
    requires Recurring(m) && m.body.request.op == "monitor" && Stop(q, m.body.request.rscid) && q.body.request.async
    ensures Reachable(s) && Begins(s) && TaskOf(s.requests[0]) == TaskOf(m)
    ensures Found(s) == Past(0, false) && !ReportsFirst(s, true) && !ReportsFirst(s, false)
  {
    var t := INIT.next;
    Initially();
    s := IsDispatched(INIT, q);
    s := AgentRuns(s, t, true);
    s := IsQueued(s, m);
    assert Left(s, |s.tasks|, Rscid(s), t);
    FirstResultIsReported(s, true);
    FirstResultIsReported(s, false);
  }

  /** The first success of a second monitor can be hidden by the first one, which may write its count in between. */
  lemma EarlierRunHides(m: Message) returns (s: State)
    requires Recurring(m) && m.body.request.op == "monitor" && m.body.request.async
    ensures Reachable(s) && Begins(s) && TaskOf(s.requests[0]) == TaskOf(m)
    ensures Found(s) == Past(0, false) && !ReportsFirst(s, true)
  {
    var t := INIT.next;
    Initially();
    s := IsDispatched(INIT, m);
    s := AgentRuns(s, t, true);
    s := IsQueued(s, m);
    assert Left(s, |s.tasks|, Rscid(s), t) && MayGoOn(s.runs, s.threads[t]);
    FirstResultIsReported(s, true);
  }
}
