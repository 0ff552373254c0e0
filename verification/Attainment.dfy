/**
 Getting there: as long as no reply is lost, the system can always go on until OPERATIONAL is handled.  A
 corosync callback that tells the node id, agents that exit, time that passes and replies that can be
 written are all it takes.
 */
module Attainment {
  import opened Options
  import opened System
  import opened SystemInvariants
  import opened SystemTheorems
  import opened Progress
  import opened Liveness
  import Engine
  import EngineInvariants
  import EngineAccounts
  import Driving
  import MonitorReports
  import Service

  // ---- replies have somewhere to go

  /** Before its hello is served the controller has been sent nothing, and asks for nothing but hellos. */
  ghost predicate Introduced(g: State) {
    g.lost == 0 && !g.known ==>
      g.toClient == [] && g.mux.rcv_read_ch == [] && g.mux.ipcrecv_ch == [] && !g.mux.loop.Handing? &&
      !g.mux.loop.Queuing? && g.sent == [] && !g.ctl.Posting? && !InCall(g.ctl) &&
      forall i :: 0 <= i < |g.status_ch| ==> g.status_ch[i] == STARTUP
  }

  /** Without requests there are no reports. */
  lemma NoReportsYet(g: State)
    requires Service.Stage(g.engine) && |g.engine.tasks| <= |g.sent| && g.sent == []
    ensures g.engine.reports == []
  {
    Service.ReportsAreFew(g.engine);
    assert |g.engine.replies + EngineAccounts.RepliesTo(g.engine.reports)| == |EngineAccounts.Reported(g.engine.posts)|;
  }

  lemma IntroducedStep(g: State, e: Event)
    requires Introduced(g) && Enabled(g, e) && (g.sent == [] ==> g.engine.reports == [])
    ensures Introduced(Apply(g, e))
  {
  }

  lemma {:induction false} IntroducedRun(g: State, es: seq<Event>)
    requires Inv(g) && Introduced(g) && Runs(g, es)
    ensures Introduced(After(g, es))
    decreases es
  {
    if es != [] {
      if g.sent == [] { NoReportsYet(g); }
      IntroducedStep(g, es[0]);
      InvStep(g, es[0]);
      IntroducedRun(Apply(g, es[0]), es[1..]);
    }
  }

  lemma IntroducedInit()
    ensures Introduced(INIT)
  {
  }

  lemma ReachableIntroduced(g: State)
    requires Reachable(g)
    ensures Introduced(g)
  {
    IntroducedInit();
    var es :| Runs(INIT, es) && After(INIT, es) == g;
    InvInit();
    IntroducedRun(INIT, es);
  }

  // ---- runs that lose nothing

  ghost predicate Going(g: State) {
    Inv(g) && OnItsWay(g) && Introduced(g) && g.nodeid != 0 && g.lost == 0
  }

  lemma GoingStep(g: State, e: Event)
    requires Going(g) && Enabled(g, e) && !Loses(g, e)
    ensures Going(Apply(g, e)) && Rank(Apply(g, e)) <= Rank(g) - (if Move(g, e) then 1 else 0)
  {
    if g.sent == [] { NoReportsYet(g); }
    IntroducedStep(g, e);
    InvStep(g, e);
    OnItsWayStep(g, e);
    RankStep(g, e);
  }

  ghost predicate Leads(g: State, es: seq<Event>, g': State) {
    Runs(g, es) && After(g, es) == g'
  }

  lemma One(g: State, e: Event)
    requires Enabled(g, e)
    ensures Leads(g, [e], Apply(g, e))
  {
    assert [e][1..] == [];
    assert Leads(Apply(g, e), [], Apply(g, e));
  }

  lemma {:induction false} Then(g: State, a: seq<Event>, g1: State, b: seq<Event>, g2: State)
    requires Leads(g, a, g1) && Leads(g1, b, g2)
    ensures Leads(g, a + b, g2)
    decreases a
  {
    if a == [] {
      assert a + b == b;
    } else {
      Then(Apply(g, a[0]), a[1..], g1, b, g2);
      assert (a + b)[1..] == a[1..] + b;
    }
  }

  lemma WorkApplies(g: State, w: Engine.Event)
    requires Engine.Enabled(g.engine, w) && WorkEvent(w)
    ensures Enabled(g, Work(w)) && Apply(g, Work(w)) == g.(engine := Engine.Apply(g.engine, w))
  {
  }

  /** A step of a goroutine, an agent or the clock. */
  lemma OneWork(g: State, w: Engine.Event) returns (g': State)
    requires Going(g) && Engine.Enabled(g.engine, w) && (w.Advance? || w.Process? || w.Tick?)
    ensures Leads(g, [Work(w)], g') && g' == g.(engine := Engine.Apply(g.engine, w)) && Going(g')
    ensures Rank(g') <= Rank(g) - (if Move(g, Work(w)) then 1 else 0)
  {
    WorkApplies(g, w);
    One(g, Work(w));
    GoingStep(g, Work(w));
    g' := Apply(g, Work(w));
  }

  lemma FewReports(g: State)
    requires Going(g)
    ensures |g.engine.reports| < Engine.CHANNEL_CAPACITY && 0 <= Rank(g)
  {
    QueuesStayShort(g);
    RankBound(g);
  }

  /** The resource manager's dispatcher finishes the request it is inside of. */
  lemma EngineReturns(g: State, t: nat) returns (es: seq<Event>, g': State)
    requires Going(g) && g.engine.busy == Some(t) && Driving.HasRoom(g.engine, t)
    ensures Leads(g, es, g') && Going(g') && g'.engine.busy == None && g'.ops == g.ops && Rank(g') <= Rank(g)
    decreases Driving.Ahead(g.engine, t)
  {
    var w := Driving.DispatcherStep(g.engine, t);
    g' := OneWork(g, w);
    es := [Work(w)];
    if g'.engine.busy.Some? {
      var g1, rest := g', [];
      rest, g' := EngineReturns(g1, t);
      Then(g, es, g1, rest, g');
      es := es + rest;
    }
  }

  // ---- a report that is awaited comes

  ghost predicate Reporting(s: Engine.State, t: nat, chain: nat) {
    t in s.threads && s.threads[t].chain == chain && Service.BeforeReport(s.threads[t]) && Service.Posted(s, chain) == 0
  }

  ghost predicate Approaches(s: Engine.State, s': Engine.State, t: nat, chain: nat) {
    EngineInvariants.Waits(s.threads, s.runs) && EngineInvariants.Waits(s'.threads, s'.runs) && t in s.threads &&
    Reporting(s', t, chain) && Driving.Ahead(s', t) < Driving.Ahead(s, t)
  }

  lemma StageIsAudible(s: Engine.State, chain: nat)
    requires Service.Stage(s) && chain < |s.tasks| && Service.Posted(s, chain) == 0
    ensures Service.Audible(s, chain)
  {
    if |s.tasks| == 2 { Service.MonitorIsAudible(s, chain); } else { Service.AloneIsAudible(s, chain); }
  }

  /** One step nearer to the report. */
  lemma ReportStep(s: Engine.State, t: nat, chain: nat) returns (w: Engine.Event)
    requires Service.Stage(s) && Reporting(s, t, chain) && chain < |s.tasks| && |s.reports| < Engine.CHANNEL_CAPACITY
    ensures Engine.Enabled(s, w) && (w.Advance? || w.Process? || w.Tick?)
    ensures s.threads[t].pc.Posting? ==> w.Advance? && w.thread == t
    ensures !s.threads[t].pc.Posting? ==> Approaches(s, Engine.Apply(s, w), t, chain)
  {
    StageIsAudible(s, chain);
    w := Driving.NextWork(s, t, true);
    if !s.threads[t].pc.Posting? {
      StaysReporting(s, w, t, chain);
    }
  }

  lemma StaysReporting(s: Engine.State, w: Engine.Event, t: nat, chain: nat)
    requires Reporting(s, t, chain) && Service.Audible(s, chain) && !s.threads[t].pc.Posting?
    requires Engine.Enabled(s, w) && (w.Advance? || w.Process? || w.Tick?) && (w.Advance? ==> w.thread == t)
    ensures Reporting(Engine.Apply(s, w), t, chain)
  {
    if w.Advance? {
      MonitorReports.OwnLogs(s, t, w.late, chain);
    }
  }

  lemma ReportCome(g: State, t: nat, chain: nat) returns (es: seq<Event>, g': State)
    requires Going(g) && Reporting(g.engine, t, chain) && chain < |g.engine.tasks|
    ensures Leads(g, es, g') && Going(g') && Rank(g') < Rank(g)
    decreases Driving.Ahead(g.engine, t)
  {
    FewReports(g);
    var w := ReportStep(g.engine, t, chain);
    g' := OneWork(g, w);
    es := [Work(w)];
    if !g.engine.threads[t].pc.Posting? {
      var g1, rest := g', [];
      rest, g' := ReportCome(g1, t, chain);
      Then(g, es, g1, rest, g');
      es := es + rest;
    }
  }

  /** Some dispatched request has not been reported. */
  lemma {:induction false} UnreportedIs(s: Engine.State, n: nat) returns (k: nat)
    requires Unreported(s, n) > 0
    ensures k < n && Service.Posted(s, k) == 0
  {
    if Service.Posted(s, n - 1) == 0 {
      k := n - 1;
    } else {
      k := UnreportedIs(s, n - 1);
    }
  }

  lemma StageComes(s: Engine.State, chain: nat)
    requires Service.Stage(s) && chain < |s.tasks|
    ensures Service.ReportComes(s, chain)
  {
  }

  lemma ItsGoroutine(s: Engine.State, chain: nat) returns (t: nat)
    requires Service.ReportComes(s, chain) && Service.Posted(s, chain) == 0
    ensures Reporting(s, t, chain)
  {
    t :| t in s.threads && s.threads[t].chain == chain && Service.BeforeReport(s.threads[t]);
  }

  lemma OwedReportComes(g: State) returns (es: seq<Event>, g': State)
    requires Going(g) && Unreported(g.engine, |g.engine.tasks|) > 0
    ensures Leads(g, es, g') && Going(g') && Rank(g') < Rank(g)
  {
    var chain := UnreportedIs(g.engine, |g.engine.tasks|);
    StageComes(g.engine, chain);
    var t := ItsGoroutine(g.engine, chain);
    es, g' := ReportCome(g, t, chain);
  }

  lemma NextMove(g: State) returns (es: seq<Event>, g': State)
    requires Going(g) && g.ops == 0 && !EngineOwes(g.engine)
    ensures Leads(g, es, g') && Going(g') && Rank(g') < Rank(g)
  {
    var e := SomeMove(g);
    if g.sent == [] { NoReportsYet(g); }
    One(g, e);
    GoingStep(g, e);
    es, g' := [e], Apply(g, e);
  }

  /** Whatever the engine is doing, the system gets on. */
  lemma Onward(g: State) returns (es: seq<Event>, g': State)
    requires Going(g) && g.ops == 0
    ensures Leads(g, es, g') && Going(g') && Rank(g') < Rank(g)
  {
    var g1 := g;
    es := [];
    if g.engine.busy.Some? {
      FewReports(g);
      es, g1 := EngineReturns(g, g.engine.busy.value);
    }
    var rest;
    if Unreported(g1.engine, |g1.engine.tasks|) > 0 {
      rest, g' := OwedReportComes(g1);
    } else {
      rest, g' := NextMove(g1);
    }
    Then(g, es, g1, rest, g');
    es := es + rest;
  }

  lemma {:induction false} GetsThere(g: State) returns (es: seq<Event>, g': State)
    requires Going(g)
    ensures Leads(g, es, g') && g'.ops > 0 && g'.lost == 0
    decreases Rank(g)
  {
    es, g' := [], g;
    if g.ops == 0 {
      FewReports(g);
      var g1;
      es, g1 := Onward(g);
      var rest;
      rest, g' := GetsThere(g1);
      Then(g, es, g1, rest, g');
      es := es + rest;
    }
  }

  // ---- the node id becomes known

  lemma ReachOn(g: State, e: Event)
    requires Reachable(g) && Enabled(g, e)
    ensures Reachable(Apply(g, e))
  {
    var es :| Runs(INIT, es) && After(INIT, es) == g;
    One(g, e);
    Then(INIT, es, g, [e], Apply(g, e));
  }

  /** The dispatcher finishes its handler, so that a corosync callback can run. */
  lemma HandlerEnds(g: State) returns (es: seq<Event>, g': State)
    requires Reachable(g) && g.lost == 0 && g.nodeid == 0
    ensures Leads(g, es, g') && Reachable(g') && g'.lost == 0 && g'.nodeid == 0 && g'.ctl == Polling
  {
    ReachableInv(g);
    es, g' := [], g;
    if g.ctl != Polling {
      NoSendBlocks(g, 0);
      var e := if g.ctl.Greeting? then Greet else Post;
      One(g, e);
      ReachOn(g, e);
      es, g' := [e], Apply(g, e);
    }
  }

  lemma NodeBecomesKnown(g: State) returns (es: seq<Event>, g': State)
    requires Reachable(g) && g.lost == 0
    ensures Leads(g, es, g') && Reachable(g') && g'.lost == 0 && g'.nodeid != 0
  {
    es, g' := [], g;
    if g.nodeid == 0 {
      var g1;
      es, g1 := HandlerEnds(g);
      One(g1, SetNode(1));
      ReachOn(g1, SetNode(1));
      g' := Apply(g1, SetNode(1));
      Then(g, es, g1, [SetNode(1)], g');
      es := es + [SetNode(1)];
    }
  }

  /**
   From every reachable state in which no reply has been lost, some run leads to OPERATIONAL being handled
   without a reply being lost: no step taken so far can have made it impossible.
   */
  lemma OperationalStaysAttainable(g: State)
    requires Reachable(g) && g.lost == 0
    ensures exists es :: Runs(g, es) && After(g, es).ops > 0 && After(g, es).lost == 0
  {
    var a, g1 := NodeBecomesKnown(g);
    ReachableInv(g1);
    ReachableOnItsWay(g1);
    ReachableIntroduced(g1);
    var b, g2 := GetsThere(g1);
    Then(g, a, g1, b, g2);
  }
}
