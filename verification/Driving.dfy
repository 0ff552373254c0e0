/**
 Building runs of the engine: what one goroutine and its process do next, until an agent has run, its
 result is judged, and the goroutine is gone.
 */
module Driving {
  import opened Messages
  import opened Options
  import opened Records
  import opened Engine
  import opened EngineInvariants
  import opened EngineAccounts
  import opened EngineTheorems

  // ---- putting runs together

  ghost predicate NoDispatch(es: seq<Event>) {
    forall i :: 0 <= i < |es| ==> !es[i].Dispatch?
  }

  ghost predicate Leads(s: State, es: seq<Event>, s': State) {
    NoDispatch(es) && Runs(s, es) && After(s, es) == s'
  }

  lemma Cons(s: State, e: Event, es: seq<Event>)
    requires Enabled(s, e) && Runs(Apply(s, e), es)
    ensures Runs(s, [e] + es) && After(s, [e] + es) == After(Apply(s, e), es)
  {
    assert ([e] + es)[1..] == es;
  }

  lemma One(s: State, e: Event)
    requires Enabled(s, e) && !e.Dispatch?
    ensures Leads(s, [e], Apply(s, e))
  {
    assert After(Apply(s, e), []) == Apply(s, e);
    Cons(s, e, []);
    assert [e] + [] == [e];
  }

  lemma {:induction false} Concat(s: State, a: seq<Event>, b: seq<Event>)
    requires Runs(s, a) && Runs(After(s, a), b)
    ensures Runs(s, a + b) && After(s, a + b) == After(After(s, a), b)
    decreases a
  {
    if a == [] {
      assert a + b == b;
    } else {
      Concat(Apply(s, a[0]), a[1..], b);
      assert (a + b)[1..] == a[1..] + b;
    }
  }

  lemma Then(s: State, a: seq<Event>, s1: State, b: seq<Event>, s2: State)
    requires Leads(s, a, s1) && Leads(s1, b, s2)
    ensures Leads(s, a + b, s2)
  {
    Concat(s, a, b);
  }

  lemma Reach(s: State, e: Event) returns (s': State)
    requires Reachable(s) && Enabled(s, e)
    ensures s' == Apply(s, e) && Reachable(s')
  {
    var es :| Runs(INIT, es) && After(INIT, es) == s;
    s' := Apply(s, e);
    assert After(s', []) == s';
    Cons(s, e, []);
    Concat(INIT, es, [e] + []);
  }

  lemma ReachAll(s: State, es: seq<Event>, s': State)
    requires Reachable(s) && Leads(s, es, s')
    ensures Reachable(s')
  {
    var before :| Runs(INIT, before) && After(INIT, before) == s;
    Concat(INIT, before, es);
  }

  /** The launch of goroutine th's agent in run r, under process id 0. */
  function LaunchBy(th: Thread, r: nat, at: int): Launch {
    Launch(r, th.chain, th.rep, th.task.rscid, AgentOf(th.task), 0, at)
  }

  // ---- one goroutine at a time

  /** Steps the run's process goroutine has still to make. */
  ghost function ToGo(run: Run): nat {
    match run.proc
    case Spawned => 6
    case Started => 5
    case Running => 4
    case Exited(_) => 3
    case Reaped(_) => 2
    case Counted(_, _) => 1
    case Gone => 0
  }

  /** Steps the goroutine has still to make, with those of the run it waits for. */
  ghost function Ahead(s: State, t: nat): nat
    requires Waits(s.threads, s.runs) && t in s.threads
  {
    match s.threads[t].pc
    case Fired => 20
    case Enter => 19
    case Enrol => 18
    case Sleep(until) => if until > s.now then 17 else 16
    case Waiting(r) => assert WaitsFor(s.threads, s.runs, t, r); 8 + ToGo(s.runs[r])
    case Taken(_, _) => 6
    case Posting(_, _, _) => 5
    case Rearm(_) => 4
    case Arming => 3
    case Armed(_) => 2
    case Closing => 1
  }

  // ---- the result an agent is to have

  function RetOf(ok: bool): int {
    if ok then CL_OK else CL_ERROR
  }

  /** The run's process has this result, or can still have it. */
  ghost predicate MayEnd(run: Run, ok: bool) {
    match run.proc
    case Exited(ret) => ret == RetOf(ok)
    case Reaped(ret) => ret == RetOf(ok)
    case Counted(ret, _) => ret == RetOf(ok)
    case Gone => run.fin != [] && run.fin[0].ret == RetOf(ok)
    case _ => true
  }

  /** The goroutine's next finish result is this one, or can still be. */
  ghost predicate Heading(runs: map<nat, Run>, th: Thread, ok: bool) {
    match th.pc
    case Enter => true
    case Enrol => true
    case Sleep(_) => true
    case Waiting(r) => r in runs && MayEnd(runs[r], ok)
    case _ => false
  }

  ghost predicate HasResult(th: Thread, ok: bool) {
    th.pc.Taken? && th.pc.res.ret == RetOf(ok)
  }

  // ---- one step

  /** Thread t alone has moved, and is nearer to its end. */
  ghost predicate Nearer(s: State, s': State, t: nat)
    requires Waits(s.threads, s.runs)
  {
    t in s.threads && Waits(s'.threads, s'.runs) &&
    (t in s'.threads ==> Ahead(s', t) < Ahead(s, t) && s'.threads[t] == s.threads[t].(pc := s'.threads[t].pc)) &&
    (forall u :: u in s.threads && u != t ==> u in s'.threads && s'.threads[u] == s.threads[u])
  }

  /** What a step short of sending a report leaves alone. */
  ghost predicate Leaves(s: State, s': State, t: nat) {
    s'.requests == s.requests && s'.tasks == s.tasks && s'.replies == s.replies &&
    s'.held == s.held && s'.down == s.down &&
    (s'.busy == s.busy || s'.busy == None) &&
    (t in s.threads && !s.threads[t].pc.Posting? ==> s'.reports == s.reports)
  }

  /** One result has been received. */
  ghost predicate Takes(s: State, s': State) {
    |s'.takes| == |s.takes| + 1 && s.takes <= s'.takes
  }

  /** A goroutine heading for a result keeps heading for it, or has it. */
  ghost predicate StaysOn(s: State, s': State, t: nat, ok: bool)
    requires t in s.threads
  {
    Heading(s.runs, s.threads[t], ok) ==>
      t in s'.threads &&
      ((Heading(s'.runs, s'.threads[t], ok) && s'.takes == s.takes) || (HasResult(s'.threads[t], ok) && Takes(s, s')))
  }

  ghost predicate Good(s: State, s': State, t: nat, ok: bool)
    requires Waits(s.threads, s.runs)
  {
    Nearer(s, s', t) && Leaves(s, s', t) && StaysOn(s, s', t, ok)
  }

  lemma ByAdvance(s: State, t: nat, ok: bool)
    requires Tied(s) && Waits(s.threads, s.runs) && CanAdvance(s, t, false)
    requires s.threads[t].pc.Waiting? ==> s.runs[s.threads[t].pc.run].proc == Gone
    ensures Good(s, Advanced(s, t, false), t, ok)
  {
    WaitsAdvance(s, t, false);
    AdvanceNearer(s, t);
    AdvanceStays(s, t, ok);
  }

  lemma AdvanceNearer(s: State, t: nat)
    requires Waits(s.threads, s.runs) && CanAdvance(s, t, false)
    requires var s' := Advanced(s, t, false); Waits(s'.threads, s'.runs)
    ensures Nearer(s, Advanced(s, t, false), t)
  {
    var s' := Advanced(s, t, false);
    if t in s'.threads {
      assert s'.threads[t].pc == NextPc(s, t, false).value;
    }
  }

  lemma AdvanceStays(s: State, t: nat, ok: bool)
    requires Tied(s) && CanAdvance(s, t, false)
    requires s.threads[t].pc.Waiting? ==> s.runs[s.threads[t].pc.run].proc == Gone
    ensures StaysOn(s, Advanced(s, t, false), t, ok)
  {
    var s' := Advanced(s, t, false);
    if t in s'.threads {
      assert s'.threads[t].pc == NextPc(s, t, false).value;
    }
  }

  /** What the process goroutine of a run does next; ok is how the agent exits. */
  function NextAct(run: Run, ok: bool): Act {
    match run.proc
    case Spawned => Start(0)
    case Started => SetTimeout
    case Running => Exit(ok)
    case Exited(_) => CancelTimeout
    case Reaped(_) => ReadCount
    case _ => Finish
  }

  lemma NextActHelps(run: Run, now: int, table: Table, ok: bool)
    requires run.proc != Gone && run.fin == []
    ensures CanAct(run, now, NextAct(run, ok))
    ensures var run' := ActOn(run, now, table, NextAct(run, ok));
      ToGo(run') < ToGo(run) && (MayEnd(run, ok) ==> MayEnd(run', ok))
  {
  }

  lemma ByAct(s: State, t: nat, r: nat, ok: bool)
    requires Tied(s) && Waits(s.threads, s.runs) && t in s.threads && s.threads[t].pc == Waiting(r) && !s.down
    requires r in s.runs && s.runs[r].proc != Gone
    ensures Enabled(s, Process(r, NextAct(s.runs[r], ok)))
    ensures Good(s, Processed(s, r, NextAct(s.runs[r], ok)), t, ok)
  {
    assert RunOk(s.tasks, s.runs[r]);
    NextActHelps(s.runs[r], s.now, s.table, ok);
    WaitsProcess(s, r, NextAct(s.runs[r], ok));
  }

  /**
   What the goroutine, its run's process or the clock can do next, with ok for how the agent exits; it
   brings the goroutine nearer to its end.
   */
  lemma NextWork(s: State, t: nat, ok: bool) returns (w: Event)
    requires Tied(s) && Waits(s.threads, s.runs) && t in s.threads && !s.down
    requires s.threads[t].pc.Posting? ==> |s.reports| < CHANNEL_CAPACITY
    ensures Enabled(s, w) && (w.Advance? || w.Process? || w.Tick?)
    ensures w.Advance? ==> w == Advance(t, false)
    ensures !w.Advance? ==> s.threads[t].pc.Waiting? || s.threads[t].pc.Sleep?
    ensures w.Advance? && s.threads[t].pc.Waiting? ==> s.runs[s.threads[t].pc.run].proc == Gone
    ensures Tied(Apply(s, w)) && Good(s, Apply(s, w), t, ok)
  {
    var pc := s.threads[t].pc;
    if pc.Waiting? && (assert WaitsFor(s.threads, s.runs, t, pc.run); s.runs[pc.run].proc != Gone) {
      w := Process(pc.run, NextAct(s.runs[pc.run], ok));
      ByAct(s, t, pc.run, ok);
    } else if pc.Sleep? && pc.until > s.now {
      w := Tick(pc.until - s.now);
    } else {
      w := Advance(t, false);
      ByAdvance(s, t, ok);
    }
    TiedStep(s, w);
  }

  // ---- whole runs

  /** What a stretch leaves alone that brings thread t to its result. */
  ghost predicate Brings(s: State, s': State, t: nat, ok: bool) {
    t in s.threads && t in s'.threads && HasResult(s'.threads[t], ok) && Takes(s, s') &&
    s'.threads[t] == s.threads[t].(pc := s'.threads[t].pc) &&
    s'.requests == s.requests && s'.tasks == s.tasks && s'.reports == s.reports && s'.down == s.down &&
    (s.busy == None ==> s'.busy == None)
  }

  lemma OneNearer(s: State, t: nat, ok: bool) returns (w: Event)
    requires Tied(s) && Waits(s.threads, s.runs) && t in s.threads && Heading(s.runs, s.threads[t], ok) && !s.down
    ensures Enabled(s, w) && !w.Dispatch?
    ensures var s' := Apply(s, w);
      Tied(s') && Waits(s'.threads, s'.runs) &&
      (Brings(s, s', t, ok) ||
       (t in s'.threads && Heading(s'.runs, s'.threads[t], ok) && Ahead(s', t) < Ahead(s, t) &&
        s'.threads[t] == s.threads[t].(pc := s'.threads[t].pc) && s'.takes == s.takes && s'.requests == s.requests &&
        s'.tasks == s.tasks && s'.reports == s.reports && s'.down == s.down && (s.busy == None ==> s'.busy == None)))
  {
    w := NextWork(s, t, ok);
  }

  /** The agent runs, and its waiter receives the result. */
  lemma GetsResult(s: State, t: nat, ok: bool) returns (es: seq<Event>, s': State)
    requires Tied(s) && Waits(s.threads, s.runs) && t in s.threads && Heading(s.runs, s.threads[t], ok) && !s.down
    ensures Leads(s, es, s') && Brings(s, s', t, ok)
    decreases Ahead(s, t)
  {
    var w := OneNearer(s, t, ok);
    var s1 := Apply(s, w);
    One(s, w);
    es, s' := [w], s1;
    if !Brings(s, s1, t, ok) {
      var rest;
      rest, s' := GetsResult(s1, t, ok);
      Then(s, es, s1, rest, s');
      es := es + rest;
    }
  }

  /** The goroutine is past its report, or there is room for it. */
  ghost predicate HasRoom(s: State, t: nat)
    requires Waits(s.threads, s.runs)
  {
    t in s.threads && (Ahead(s, t) < 5 || |s.reports| < CHANNEL_CAPACITY)
  }

  /** One step of the goroutine the dispatcher is inside of. */
  lemma DispatcherStep(s: State, t: nat) returns (w: Event)
    requires Inv(s) && s.busy == Some(t) && HasRoom(s, t)
    ensures Enabled(s, w) && (w.Advance? || w.Process? || w.Tick?) && Inv(Apply(s, w))
    ensures Apply(s, w).held == s.held && Apply(s, w).down == s.down
    ensures var s' := Apply(s, w);
      s'.busy == None || (s'.busy == Some(t) && HasRoom(s', t) && Ahead(s', t) < Ahead(s, t))
  {
    w := NextWork(s, t, true);
    InvStep(s, w);
  }

  /** With room for its report, a dispatcher that is inside a run gets out of it. */
  lemma DispatcherReturns(s: State, t: nat) returns (es: seq<Event>, s': State)
    requires Inv(s) && s.busy == Some(t) && HasRoom(s, t)
    ensures Leads(s, es, s') && Inv(s') && Free(s') && !s'.down
    decreases Ahead(s, t)
  {
    var w := DispatcherStep(s, t);
    s' := Apply(s, w);
    One(s, w);
    es := [w];
    if s'.busy.Some? {
      var s1, rest := s', [];
      rest, s' := DispatcherReturns(s1, t);
      Then(s, es, s1, rest, s');
      es := es + rest;
    }
  }
}
