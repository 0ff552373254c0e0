/** Runs in which the leftovers of a resource's earlier requests do hide the first result of a new monitor. */
module Disturbing {
  import opened Ints
  import opened Messages
  import opened Options
  import opened Records
  import opened Engine
  import opened EngineInvariants
  import opened Driving
  import opened Leftovers
  import opened MonitorReports
  import opened Disturbance

  // ---- what a stretch of one goroutine's work leaves alone

  ghost predicate Adds(a: seq<Outcome>, b: seq<Outcome>, chain: nat) {
    a <= b && forall i :: |a| <= i < |b| ==> b[i].chain == chain
  }

  lemma {:induction false} AddsVerdicts(a: seq<Outcome>, b: seq<Outcome>, chain: nat, me: nat)
    requires Adds(a, b, chain) && chain != me
    ensures VerdictsOf(b, me) == VerdictsOf(a, me)
    decreases |b|
  {
    if |b| == |a| {
      assert a == b;
    } else {
      var n := |b| - 1;
      AddsVerdicts(a, b[..n], chain, me);
      assert b == b[..n] + [b[n]];
      VerdictsSnoc(b[..n], b[n], me);
    }
  }

  /** Of another chain than u's nothing changes: its goroutines, its results, and its timers unless u stops them. */
  ghost predicate Aside(s: State, s': State, u: nat) {
    u in s.threads && s'.tasks == s.tasks && s'.down == s.down &&
    (forall t :: t in s.threads && t != u ==> t in s'.threads && s'.threads[t] == s.threads[t]) &&
    (s.threads[u].task.op != "stop" ==> forall m :: m in s.timers ==> m in s'.timers && s'.timers[m] == s.timers[m]) &&
    Adds(s.takes, s'.takes, s.threads[u].chain) && Adds(s.posts, s'.posts, s.threads[u].chain)
  }

  /** What chain me sees of it. */
  ghost predicate Beside(s: State, s': State, me: nat) {
    s'.tasks == s.tasks && s'.down == s.down &&
    (forall t :: t in s.threads && s.threads[t].chain == me ==> t in s'.threads && s'.threads[t] == s.threads[t]) &&
    VerdictsOf(s'.takes, me) == VerdictsOf(s.takes, me) && VerdictsOf(s'.posts, me) == VerdictsOf(s.posts, me)
  }

  lemma AsideIsBeside(s: State, s': State, u: nat, me: nat)
    requires Aside(s, s', u) && s.threads[u].chain != me
    ensures Beside(s, s', me)
  {
    AddsVerdicts(s.takes, s'.takes, s.threads[u].chain, me);
    AddsVerdicts(s.posts, s'.posts, s.threads[u].chain, me);
  }

  lemma AdvanceAside(s: State, u: nat, ok: bool)
    requires CanAdvance(s, u, false) && Tied(s) && Waits(s.threads, s.runs) && Good(s, Advanced(s, u, false), u, ok)
    ensures Aside(s, Advanced(s, u, false), u)
    ensures |Advanced(s, u, false).reports| == |s.reports| + (if s.threads[u].pc.Posting? then 1 else 0)
  {
  }

  lemma WorkAside(s: State, u: nat, w: Event, ok: bool)
    requires Enabled(s, w) && Tied(s) && Waits(s.threads, s.runs) && u in s.threads && Good(s, Apply(s, w), u, ok)
    requires w == Advance(u, false) || w.Process? || w.Tick?
    ensures Aside(s, Apply(s, w), u)
    ensures |Apply(s, w).reports| == |s.reports| + (if w.Advance? && s.threads[u].pc.Posting? then 1 else 0)
  {
    if w.Advance? { AdvanceAside(s, u, ok); }
  }

  lemma AsideThen(s: State, s1: State, s2: State, u: nat)
    requires Aside(s, s1, u) && u in s1.threads && Aside(s1, s2, u)
    requires s1.threads[u].chain == s.threads[u].chain && s1.threads[u].task == s.threads[u].task
    ensures Aside(s, s2, u)
  {
  }

  /** The reports there are, with the one the goroutine has still to make. */
  ghost function Load(s: State, u: nat): nat
    requires Waits(s.threads, s.runs) && u in s.threads
  {
    |s.reports| + (if Ahead(s, u) >= 5 then 1 else 0)
  }

  // ---- a run that repeats gives the record a count

  /** The goroutine's run is, or can still be, a success that calls setMonitor. */
  ghost predicate Course(runs: map<nat, Run>, th: Thread) {
    th.task.interval > 0 &&
    match th.pc
    case Enter => true
    case Sleep(_) => true
    case Waiting(r) => r in runs && MayEnd(runs[r], true)
    case Taken(_, res) => res.ret == CL_OK
    case Posting(_, res, _) => res.ret == CL_OK
    case Rearm(res) => res.ret == CL_OK
    case Arming => true
    case Armed(_) => true
    case _ => false
  }

  lemma MayGoOnIsCourse(s: State, u: nat)
    requires Tied(s) && Waits(s.threads, s.runs) && u in s.threads && MayGoOn(s.runs, s.threads[u])
    ensures Course(s.runs, s.threads[u])
  {
    assert ThreadOk(s.tasks, s.threads[u]);
    if s.threads[u].pc.Waiting? {
      assert WaitsFor(s.threads, s.runs, u, s.threads[u].pc.run) && RunOk(s.tasks, s.runs[s.threads[u].pc.run]);
    }
  }

  /** Thread u as before but for its place. */
  ghost predicate SameThread(s: State, s': State, u: nat) {
    u in s.threads && u in s'.threads &&
    s'.threads[u].task == s.threads[u].task && s'.threads[u].chain == s.threads[u].chain
  }

  lemma CourseNext(s: State, u: nat)
    requires Tied(s) && CanAdvance(s, u, false) && Course(s.runs, s.threads[u]) && !s.threads[u].pc.Armed?
    requires s.threads[u].pc.Waiting? ==> s.runs[s.threads[u].pc.run].proc == Gone
    ensures var s' := Advanced(s, u, false); SameThread(s, s', u) && Course(s'.runs, s'.threads[u])
  {
    assert NextPc(s, u, false).Some?;
  }

  lemma CourseKept(s: State, u: nat, w: Event)
    requires Tied(s) && Waits(s.threads, s.runs) && u in s.threads && Course(s.runs, s.threads[u])
    requires !s.threads[u].pc.Armed? && Enabled(s, w) && Good(s, Apply(s, w), u, true)
    requires w.Process? || w.Tick?
    requires s.threads[u].pc.Waiting? || s.threads[u].pc.Sleep?
    ensures SameThread(s, Apply(s, w), u) && Course(Apply(s, w).runs, Apply(s, w).threads[u])
  {
  }

  lemma CourseStep(s: State, u: nat) returns (w: Event)
    requires Tied(s) && Waits(s.threads, s.runs) && !s.down && HasRoom(s, u)
    requires Course(s.runs, s.threads[u]) && !s.threads[u].pc.Armed?
    ensures Enabled(s, w) && !w.Dispatch?
    ensures var s' := Apply(s, w);
      Tied(s') && Waits(s'.threads, s'.runs) && Aside(s, s', u) && SameThread(s, s', u) &&
      Course(s'.runs, s'.threads[u]) && HasRoom(s', u) && Ahead(s', u) < Ahead(s, u) && Load(s', u) <= Load(s, u)
  {
    w := NextWork(s, u, true);
    WorkAside(s, u, w, true);
    if w.Advance? { CourseNext(s, u); } else { CourseKept(s, u, w); }
  }

  /** The goroutine has written its second record and is about to close. */
  ghost predicate HasRecorded(s: State, s': State, u: nat) {
    SameThread(s, s', u) && s'.threads[u].pc.Closing? &&
    var task := s'.threads[u].task; exists tm :: task.rscid in s'.table && s'.table[task.rscid] == Record(task, tm, 1)
  }

  lemma ArmedRecords(s: State, u: nat)
    requires Tied(s) && Waits(s.threads, s.runs) && !s.down && u in s.threads && s.threads[u].pc.Armed?
    ensures Enabled(s, Advance(u, false))
    ensures var s' := Advanced(s, u, false);
      Tied(s') && Waits(s'.threads, s'.runs) && Aside(s, s', u) && HasRecorded(s, s', u) && s'.reports == s.reports
  {
    ByAdvance(s, u, true);
    TiedStep(s, Advance(u, false));
    WorkAside(s, u, Advance(u, false), true);
    var th := s.threads[u];
    assert Advanced(s, u, false).table[th.task.rscid] == Record(th.task, Some(th.pc.timer), 1);
  }

  lemma WritesCount(s: State, u: nat) returns (es: seq<Event>, s': State)
    requires Tied(s) && Waits(s.threads, s.runs) && !s.down && HasRoom(s, u) && Course(s.runs, s.threads[u])
    ensures Leads(s, es, s') && Tied(s') && Waits(s'.threads, s'.runs) && Aside(s, s', u) && HasRecorded(s, s', u)
    ensures |s'.reports| <= Load(s, u)
    decreases Ahead(s, u)
  {
    if s.threads[u].pc.Armed? {
      ArmedRecords(s, u);
      One(s, Advance(u, false));
      es, s' := [Advance(u, false)], Advanced(s, u, false);
    } else {
      var w := CourseStep(s, u);
      var s1 := Apply(s, w);
      One(s, w);
      var rest;
      rest, s' := WritesCount(s1, u);
      Then(s, [w], s1, rest, s');
      AsideThen(s, s1, s', u);
      es := [w] + rest;
    }
  }

  // ---- a stop terminates the record

  /** There is a record, or the goroutine is about to enter one. */
  ghost predicate Bound(s: State, u: nat) {
    u in s.threads && (s.threads[u].task.rscid in s.table || Enrols(s.threads[u]))
  }

  lemma BoundKept(s: State, u: nat, w: Event)
    requires Tied(s) && Waits(s.threads, s.runs) && Bound(s, u) && Enabled(s, w) && Good(s, Apply(s, w), u, false)
    requires !s.threads[u].pc.Fired? && !s.threads[u].pc.Closing?
    requires w == Advance(u, false) || w.Process? || w.Tick?
    requires !w.Advance? ==> s.threads[u].pc.Waiting? || s.threads[u].pc.Sleep?
    ensures var s' := Apply(s, w); SameThread(s, s', u) && Bound(s', u) && !s'.threads[u].pc.Fired?
  {
    if w.Advance? { assert NextPc(s, u, false).Some?; }
  }

  lemma BoundStep(s: State, u: nat) returns (w: Event)
    requires Tied(s) && Waits(s.threads, s.runs) && !s.down && HasRoom(s, u) && Bound(s, u)
    requires !s.threads[u].pc.Fired? && !s.threads[u].pc.Closing?
    ensures Enabled(s, w) && !w.Dispatch?
    ensures var s' := Apply(s, w);
      Tied(s') && Waits(s'.threads, s'.runs) && Aside(s, s', u) && SameThread(s, s', u) && Bound(s', u) &&
      !s'.threads[u].pc.Fired? && HasRoom(s', u) && Ahead(s', u) < Ahead(s, u) && Load(s', u) <= Load(s, u)
  {
    w := NextWork(s, u, false);
    WorkAside(s, u, w, false);
    BoundKept(s, u, w);
  }

  lemma Closes(s: State, u: nat)
    requires Tied(s) && Waits(s.threads, s.runs) && !s.down && Bound(s, u) && s.threads[u].pc.Closing?
    requires s.threads[u].task.op == "stop"
    ensures Enabled(s, Advance(u, false))
    ensures var s' := Advanced(s, u, false);
      Tied(s') && Waits(s'.threads, s'.runs) && Aside(s, s', u) && s'.reports == s.reports &&
      Terminated(s'.table, s.threads[u].task.rscid)
  {
    ByAdvance(s, u, false);
    TiedStep(s, Advance(u, false));
    WorkAside(s, u, Advance(u, false), false);
  }

  lemma Terminates(s: State, u: nat) returns (es: seq<Event>, s': State)
    requires Tied(s) && Waits(s.threads, s.runs) && !s.down && HasRoom(s, u) && Bound(s, u)
    requires !s.threads[u].pc.Fired? && s.threads[u].task.op == "stop"
    ensures Leads(s, es, s') && Tied(s') && Waits(s'.threads, s'.runs) && Aside(s, s', u)
    ensures Terminated(s'.table, s.threads[u].task.rscid)
    decreases Ahead(s, u)
  {
    if s.threads[u].pc.Closing? {
      Closes(s, u);
      One(s, Advance(u, false));
      es, s' := [Advance(u, false)], Advanced(s, u, false);
    } else {
      var w := BoundStep(s, u);
      var s1 := Apply(s, w);
      One(s, w);
      var rest;
      rest, s' := Terminates(s1, u);
      Then(s, [w], s1, rest, s');
      AsideThen(s, s1, s', u);
      es := [w] + rest;
    }
  }

  // ---- a request enters its own record

  lemma EnrolStep(s: State, u: nat)
    requires Tied(s) && Waits(s.threads, s.runs) && !s.down && u in s.threads && Enrols(s.threads[u])
    ensures Enabled(s, Advance(u, false))
    ensures var s', task := Advanced(s, u, false), s.threads[u].task;
      Tied(s') && Waits(s'.threads, s'.runs) && Aside(s, s', u) && s'.reports == s.reports && SameThread(s, s', u) &&
      if s.threads[u].pc.Enrol? then s'.table == s.table[task.rscid := Record(task, None, 0)]
      else s'.threads[u].pc.Enrol?
  {
    assert ThreadOk(s.tasks, s.threads[u]);
    ByAdvance(s, u, false);
    TiedStep(s, Advance(u, false));
    WorkAside(s, u, Advance(u, false), false);
  }

  lemma Enters(s: State, u: nat) returns (es: seq<Event>, s': State)
    requires Tied(s) && Waits(s.threads, s.runs) && !s.down && u in s.threads && Enrols(s.threads[u])
    ensures Leads(s, es, s') && Tied(s') && Waits(s'.threads, s'.runs) && Aside(s, s', u) && s'.reports == s.reports
    ensures var task := s.threads[u].task; task.rscid in s'.table && s'.table[task.rscid] == Record(task, None, 0)
  {
    EnrolStep(s, u);
    One(s, Advance(u, false));
    es, s' := [Advance(u, false)], Advanced(s, u, false);
    if s.threads[u].pc.Enter? {
      var s1 := s';
      EnrolStep(s1, u);
      One(s1, Advance(u, false));
      s' := Advanced(s1, u, false);
      Then(s, es, s1, [Advance(u, false)], s');
      AsideThen(s, s1, s', u);
      es := es + [Advance(u, false)];
    }
  }

  // ---- a callback that finds no stop recorded

  /** Chain me and the goroutines past their stop check see nothing of it. */
  ghost predicate Around(s: State, s': State, me: nat) {
    Beside(s, s', me) && s'.table == s.table && s'.reports == s.reports &&
    forall t :: t in s.threads && !s.threads[t].pc.Fired? ==> t in s'.threads && s'.threads[t] == s.threads[t]
  }

  lemma Passes(s: State, u: nat, me: nat)
    requires Tied(s) && Waits(s.threads, s.runs) && !s.down && u in s.threads && s.threads[u].pc.Fired?
    requires s.threads[u].chain != me && !Stopped(s.table, s.threads[u].task.rscid)
    ensures Enabled(s, Advance(u, false))
    ensures var s' := Advanced(s, u, false);
      Tied(s') && Waits(s'.threads, s'.runs) && Around(s, s', me) && SameThread(s, s', u) &&
      Course(s'.runs, s'.threads[u])
  {
    assert ThreadOk(s.tasks, s.threads[u]);
    ByAdvance(s, u, false);
    TiedStep(s, Advance(u, false));
    WorkAside(s, u, Advance(u, false), false);
    AsideIsBeside(s, Advanced(s, u, false), u, me);
  }

  lemma FiresAround(s: State, m: nat, me: nat)
    requires Tied(s) && Waits(s.threads, s.runs) && Enabled(s, Fire(m)) && s.timers[m].chain != me
    ensures var s' := FiredTimer(s, m); Tied(s') && Waits(s'.threads, s'.runs) && Around(s, s', me)
  {
    TiedStep(s, Fire(m));
    WaitsStep(s, Fire(m));
  }

  /** A timer fires, after waiting for it if need be. */
  lemma Wakes(s: State, m: nat, me: nat) returns (es: seq<Event>, s': State)
    requires Tied(s) && Waits(s.threads, s.runs) && !s.down && m in s.timers && s.timers[m].chain != me
    ensures Leads(s, es, s') && Tied(s') && Waits(s'.threads, s'.runs) && Around(s, s', me)
    ensures s.next in s'.threads && s'.threads[s.next].pc.Fired? && s'.threads[s.next].task == s.timers[m].task &&
      s'.threads[s.next].chain == s.timers[m].chain
  {
    var wait := Tick(Max(0, s.timers[m].due - s.now));
    var s1 := Apply(s, wait);
    One(s, wait);
    One(s1, Fire(m));
    FiresAround(s1, m, me);
    s' := FiredTimer(s1, m);
    Then(s, [wait], s1, [Fire(m)], s');
    es := [wait] + [Fire(m)];
  }

  /** A callback of the kind that counts gets past its stop check. */
  ghost predicate Came(s: State, s': State, u: nat, me: nat, rscid: int, all: bool) {
    Tied(s') && Waits(s'.threads, s'.runs) && Around(s, s', me) && Left(s', me, rscid, u) &&
    Course(s'.runs, s'.threads[u]) && (all || s'.threads[u].task.op == "stop") &&
    (u in s.threads ==> s.threads[u].pc.Fired?)
  }

  lemma TimerComes(s: State, m: nat, me: nat, rscid: int, all: bool) returns (es: seq<Event>, s': State, u: nat)
    requires Tied(s) && Waits(s.threads, s.runs) && !s.down && !Stopped(s.table, rscid)
    requires LeftTimer(s, me, rscid, m) && (all || s.timers[m].task.op == "stop")
    ensures Leads(s, es, s') && Came(s, s', u, me, rscid, all)
  {
    u := s.next;
    var s1;
    es, s1 := Wakes(s, m, me);
    Passes(s1, u, me);
    One(s1, Advance(u, false));
    s' := Advanced(s1, u, false);
    Then(s, es, s1, [Advance(u, false)], s');
    es := es + [Advance(u, false)];
  }

  /** One of the callbacks that can still come does. */
  lemma Comes(s: State, me: nat, rscid: int, all: bool) returns (es: seq<Event>, s': State, u: nat)
    requires Tied(s) && Waits(s.threads, s.runs) && !s.down && CanFire(s, me, rscid, all) && !Stopped(s.table, rscid)
    ensures Leads(s, es, s') && Came(s, s', u, me, rscid, all)
  {
    if t :| Left(s, me, rscid, t) && s.threads[t].pc.Fired? && (all || s.threads[t].task.op == "stop") {
      u := t;
      Passes(s, u, me);
      One(s, Advance(u, false));
      es, s' := [Advance(u, false)], Advanced(s, u, false);
    } else {
      var m :| LeftTimer(s, me, rscid, m) && (all || s.timers[m].task.op == "stop");
      es, s', u := TimerComes(s, m, me, rscid, all);
    }
  }

  // ---- every disturbance can happen

  /** A stretch beside chain me. */
  ghost predicate Turns(s: State, es: seq<Event>, s': State, me: nat) {
    Leads(s, es, s') && Tied(s') && Waits(s'.threads, s'.runs) && Beside(s, s', me)
  }

  lemma TurnsThen(s: State, a: seq<Event>, s1: State, b: seq<Event>, s2: State, me: nat)
    requires Turns(s, a, s1, me) && Turns(s1, b, s2, me)
    ensures Turns(s, a + b, s2, me)
  {
    Then(s, a, s1, b, s2);
  }

  lemma CountHides(s: State, me: nat, rscid: int, u: nat) returns (es: seq<Event>, s': State)
    requires Tied(s) && Waits(s.threads, s.runs) && !s.down && |s.reports| < CHANNEL_CAPACITY
    requires Left(s, me, rscid, u) && Course(s.runs, s.threads[u])
    ensures Turns(s, es, s', me) && Recorded(s'.table, rscid) == REPEATING && HasRecorded(s, s', u)
    ensures Aside(s, s', u) && |s'.reports| <= |s.reports| + 1
  {
    es, s' := WritesCount(s, u);
    AsideIsBeside(s, s', u, me);
  }

  lemma StopHides(s: State, me: nat, rscid: int, u: nat) returns (es: seq<Event>, s': State)
    requires Tied(s) && Waits(s.threads, s.runs) && !s.down && HasRoom(s, u) && Left(s, me, rscid, u) && Bound(s, u)
    requires s.threads[u].task.op == "stop" && !s.threads[u].pc.Fired?
    ensures Turns(s, es, s', me) && Recorded(s'.table, rscid).muted
  {
    es, s' := Terminates(s, u);
    AsideIsBeside(s, s', u, me);
  }

  /** A stop that repeats writes its record and then closes. */
  lemma RepeatedStopHides(s: State, me: nat, rscid: int, u: nat) returns (es: seq<Event>, s': State)
    requires Tied(s) && Waits(s.threads, s.runs) && !s.down && |s.reports| < CHANNEL_CAPACITY
    requires Left(s, me, rscid, u) && Course(s.runs, s.threads[u]) && s.threads[u].task.op == "stop"
    ensures Turns(s, es, s', me) && Recorded(s'.table, rscid).muted
  {
    var s1;
    es, s1 := CountHides(s, me, rscid, u);
    var rest;
    rest, s' := StopHides(s1, me, rscid, u);
    TurnsThen(s, es, s1, rest, s', me);
    es := es + rest;
  }

  /** Another goroutine enters a record first, for a stop to terminate. */
  lemma OtherRecords(s: State, me: nat, rscid: int, v: nat) returns (es: seq<Event>, s': State)
    requires Tied(s) && Waits(s.threads, s.runs) && !s.down && |s.reports| < CHANNEL_CAPACITY
    requires Left(s, me, rscid, v) && Writes(s.runs, s.threads[v])
    ensures Turns(s, es, s', me) && Aside(s, s', v) && |s'.reports| <= |s.reports| + 1
    ensures rscid in s'.table && s'.table[rscid].op == s.threads[v].task.op
  {
    if Enrols(s.threads[v]) {
      es, s' := Enters(s, v);
    } else {
      MayGoOnIsCourse(s, v);
      es, s' := WritesCount(s, v);
    }
    AsideIsBeside(s, s', v, me);
  }

  /** A stop that has not closed terminates whatever record there is, or comes to be. */
  lemma StopWithRecord(s: State, me: nat, rscid: int, u: nat) returns (es: seq<Event>, s': State)
    requires Tied(s) && Waits(s.threads, s.runs) && !s.down && |s.reports| + 2 <= CHANNEL_CAPACITY
    requires Left(s, me, rscid, u) && s.threads[u].task.op == "stop" && !s.threads[u].pc.Fired?
    requires Recordable(s, me, rscid)
    ensures Turns(s, es, s', me) && Recorded(s'.table, rscid).muted
  {
    if Bound(s, u) {
      es, s' := StopHides(s, me, rscid, u);
    } else if MayGoOn(s.runs, s.threads[u]) {
      MayGoOnIsCourse(s, u);
      es, s' := RepeatedStopHides(s, me, rscid, u);
    } else {
      var s1;
      es, s1 := SomethingRecords(s, me, rscid, u);
      var rest;
      rest, s' := StopHides(s1, me, rscid, u);
      TurnsThen(s, es, s1, rest, s', me);
      es := es + rest;
    }
  }

  lemma SomethingRecords(s: State, me: nat, rscid: int, u: nat) returns (es: seq<Event>, s': State)
    requires Tied(s) && Waits(s.threads, s.runs) && !s.down && |s.reports| + 2 <= CHANNEL_CAPACITY
    requires Left(s, me, rscid, u) && !s.threads[u].pc.Fired? && !Writes(s.runs, s.threads[u])
    requires rscid !in s.table && Recordable(s, me, rscid)
    ensures Turns(s, es, s', me) && rscid in s'.table && |s'.reports| < CHANNEL_CAPACITY
    ensures u in s'.threads && s'.threads[u] == s.threads[u]
  {
    if v :| Left(s, me, rscid, v) && Writes(s.runs, s.threads[v]) {
      es, s' := OtherRecords(s, me, rscid, v);
    } else {
      var s1, v;
      es, s1, v := Comes(s, me, rscid, true);
      var rest;
      rest, s' := CountHides(s1, me, rscid, v);
      TurnsThen(s, es, s1, rest, s', me);
      es := es + rest;
    }
  }

  /** A callback finds no stop recorded, runs its agent, and hides the result. */
  lemma CallbackHides(s: State, me: nat, rscid: int, ok: bool) returns (es: seq<Event>, s': State)
    requires Tied(s) && Waits(s.threads, s.runs) && !s.down && |s.reports| < CHANNEL_CAPACITY
    requires CanFire(s, me, rscid, ok) && !Stopped(s.table, rscid)
    ensures Turns(s, es, s', me) && !Fine(Recorded(s'.table, rscid), ok)
  {
    var s1, u;
    es, s1, u := Comes(s, me, rscid, ok);
    var rest;
    if ok {
      rest, s' := CountHides(s1, me, rscid, u);
    } else {
      rest, s' := RepeatedStopHides(s1, me, rscid, u);
    }
    TurnsThen(s, es, s1, rest, s', me);
    es := es + rest;
  }

  lemma StillFires(s: State, s': State, v: nat, me: nat, rscid: int, all: bool)
    requires CanFire(s, me, rscid, all) && Aside(s, s', v) && v in s.threads && !s.threads[v].pc.Fired?
    requires s.threads[v].task.op != "stop"
    ensures CanFire(s', me, rscid, all)
  {
    if t :| Left(s, me, rscid, t) && s.threads[t].pc.Fired? && (all || s.threads[t].task.op == "stop") {
      assert Left(s', me, rscid, t);
    } else {
      var m :| LeftTimer(s, me, rscid, m) && (all || s.timers[m].task.op == "stop");
      assert LeftTimer(s', me, rscid, m);
    }
  }

  /** ... or after another record has taken the stop's place. */
  lemma RevivedHides(s: State, me: nat, rscid: int, ok: bool) returns (es: seq<Event>, s': State)
    requires Tied(s) && Waits(s.threads, s.runs) && !s.down && |s.reports| + 2 <= CHANNEL_CAPACITY
    requires CanFire(s, me, rscid, ok) && Revives(s, me, rscid)
    ensures Turns(s, es, s', me) && !Fine(Recorded(s'.table, rscid), ok)
  {
    var v :| Left(s, me, rscid, v) && s.threads[v].task.op != "stop" && Writes(s.runs, s.threads[v]);
    var s1;
    es, s1 := OtherRecords(s, me, rscid, v);
    StillFires(s, s1, v, me, rscid, ok);
    var rest;
    rest, s' := CallbackHides(s1, me, rscid, ok);
    TurnsThen(s, es, s1, rest, s', me);
    es := es + rest;
  }

  /** What can disturb, does in some run. */
  lemma Hides(s: State, me: nat, rscid: int, ok: bool) returns (es: seq<Event>, s': State)
    requires Tied(s) && Waits(s.threads, s.runs) && !s.down && |s.reports| + 2 <= CHANNEL_CAPACITY
    requires Disturbed(s, me, rscid, ok)
    ensures Turns(s, es, s', me) && !Fine(Recorded(s'.table, rscid), ok)
  {
    if StopLeft(s, me, rscid) && Recordable(s, me, rscid) {
      var u :| Left(s, me, rscid, u) && s.threads[u].task.op == "stop" && !s.threads[u].pc.Fired?;
      es, s' := StopWithRecord(s, me, rscid, u);
    } else if ok && GoesOnLeft(s, me, rscid) {
      var u :| Left(s, me, rscid, u) && MayGoOn(s.runs, s.threads[u]);
      MayGoOnIsCourse(s, u);
      es, s' := CountHides(s, me, rscid, u);
    } else if !Stopped(s.table, rscid) {
      es, s' := CallbackHides(s, me, rscid, ok);
    } else {
      es, s' := RevivedHides(s, me, rscid, ok);
    }
  }
}
