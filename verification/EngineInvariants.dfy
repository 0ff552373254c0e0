/** What every step of the resource-operation engine keeps. */
module EngineInvariants {
  import opened Messages
  import opened Options
  import opened Records
  import opened Engine

  // ---- everything in the engine carries its own request

  ghost predicate ResultOf(task: Task, res: Execrsc) {
    res.seqno == task.seqno && res.rscid == task.rscid && res.rsc == task.rsc && res.param == task.param &&
    res.op == task.op && (res.ret == CL_OK || res.ret == CL_ERROR)
  }

  ghost predicate Of(tasks: seq<Task>, chain: nat, task: Task) {
    chain < |tasks| && task == tasks[chain]
  }

  ghost predicate ThreadOk(tasks: seq<Task>, th: Thread) {
    Of(tasks, th.chain, th.task) && (th.rep > 0 ==> th.task.interval > 0) &&
    match th.pc
    case Fired => th.task.interval > 0
    case Enrol => th.task.interval == 0
    case Arming => th.task.interval > 0
    case Armed(_) => th.task.interval > 0
    case Taken(_, res) => ResultOf(th.task, res)
    case Posting(_, res, late) => ResultOf(th.task, res) && (late ==> res.ret == CL_ERROR)
    case Rearm(res) => ResultOf(th.task, res)
    case _ => true
  }

  ghost predicate RunOk(tasks: seq<Task>, run: Run) {
    Of(tasks, run.chain, run.task) &&
    (run.proc == Spawned || run.proc == Started ==> run.timeout == Unset && run.late == []) &&
    (run.proc != Gone ==> run.fin == []) && |run.fin| <= 1 &&
    (run.proc.Exited? || run.proc.Reaped? || run.proc.Counted? ==> run.proc.ret == CL_OK || run.proc.ret == CL_ERROR) &&
    (forall m :: m in run.fin ==> ResultOf(run.task, m)) &&
    (forall m :: m in run.late ==> ResultOf(run.task, m) && m.ret == CL_ERROR)
  }

  ghost predicate ThreadsOk(tasks: seq<Task>, next: nat, threads: map<nat, Thread>) {
    forall t :: t in threads ==> t < next && ThreadOk(tasks, threads[t])
  }

  ghost predicate TimersOk(tasks: seq<Task>, next: nat, timers: map<nat, Timer>) {
    forall m :: m in timers ==> m < next && Of(tasks, timers[m].chain, timers[m].task) && timers[m].task.interval > 0
  }

  ghost predicate RunsOk(tasks: seq<Task>, next: nat, runs: map<nat, Run>) {
    forall r :: r in runs ==> r < next && RunOk(tasks, runs[r])
  }

  ghost predicate Tied(s: State) {
    ThreadsOk(s.tasks, s.next, s.threads) && TimersOk(s.tasks, s.next, s.timers) && RunsOk(s.tasks, s.next, s.runs)
  }

  /** Thread t waits for run r of its own chain and repetition, and will get its result. */
  ghost predicate WaitsFor(threads: map<nat, Thread>, runs: map<nat, Run>, t: nat, r: nat) {
    t in threads && threads[t].pc == Waiting(r) && r in runs && runs[r].waiter == t &&
    runs[r].chain == threads[t].chain && runs[r].rep == threads[t].rep && (runs[r].proc == Gone ==> runs[r].fin != [])
  }

  ghost predicate Waits(threads: map<nat, Thread>, runs: map<nat, Run>) {
    (forall t :: t in threads && threads[t].pc.Waiting? ==> WaitsFor(threads, runs, t, threads[t].pc.run)) &&
    (forall r :: r in runs && runs[r].proc == Spawned ==> WaitsFor(threads, runs, runs[r].waiter, r))
  }

  // ---- a chain is one thing at a time

  /** The goroutine holds its chain: the chain's next launch, result or re-arming is up to it. */
  ghost predicate Owns(th: Thread) {
    !th.pc.Armed? && !th.pc.Closing?
  }

  ghost predicate Owner(threads: map<nat, Thread>, t: nat, chain: nat) {
    t in threads && Owns(threads[t]) && threads[t].chain == chain
  }

  ghost predicate ArmedFor(timers: map<nat, Timer>, m: nat, chain: nat) {
    m in timers && timers[m].chain == chain
  }

  /** A chain is held by at most one goroutine or armed timer. */
  ghost predicate Linear(threads: map<nat, Thread>, timers: map<nat, Timer>) {
    (forall t, u, c :: Owner(threads, t, c) && Owner(threads, u, c) ==> t == u) &&
    (forall t, m, c :: Owner(threads, t, c) ==> !ArmedFor(timers, m, c)) &&
    (forall m, n, c :: ArmedFor(timers, m, c) && ArmedFor(timers, n, c) ==> m == n)
  }

  lemma NextPcOk(s: State, t: nat, late: bool)
    requires Tied(s) && Waits(s.threads, s.runs) && CanAdvance(s, t, late)
    ensures NextPc(s, t, late).Some? ==> ThreadOk(s.tasks, s.threads[t].(pc := NextPc(s, t, late).value))
  {
    var th := s.threads[t];
    assert ThreadOk(s.tasks, th);
    if th.pc.Waiting? {
      var run := s.runs[th.pc.run];
      assert RunOk(s.tasks, run);
      assert Received(run, late) in (if late then run.late else run.fin);
    }
  }

  lemma ThreadsAdvance(s: State, t: nat, late: bool)
    requires Tied(s) && Waits(s.threads, s.runs) && CanAdvance(s, t, late)
    ensures ThreadsOk(s.tasks, s.next, NextThreads(s, t, late))
  {
    NextPcOk(s, t, late);
  }

  lemma TimersAdvance(s: State, t: nat, late: bool)
    requires Tied(s) && CanAdvance(s, t, late)
    ensures TimersOk(s.tasks, s.next + 1, NextTimers(s, s.threads[t]))
    ensures !s.threads[t].pc.Arming? ==> TimersOk(s.tasks, s.next, NextTimers(s, s.threads[t]))
  {
    assert ThreadOk(s.tasks, s.threads[t]);
  }

  lemma RunsAdvance(s: State, t: nat, late: bool)
    requires Tied(s) && CanAdvance(s, t, late)
    ensures RunsOk(s.tasks, s.next + 1, NextRuns(s, t, late))
    ensures !s.threads[t].pc.Sleep? ==> RunsOk(s.tasks, s.next, NextRuns(s, t, late))
  {
    assert ThreadOk(s.tasks, s.threads[t]);
    if s.threads[t].pc.Waiting? {
      assert RunOk(s.tasks, s.runs[s.threads[t].pc.run]);
    }
  }

  lemma TiedAdvance(s: State, t: nat, late: bool)
    requires Tied(s) && Waits(s.threads, s.runs) && CanAdvance(s, t, late)
    ensures Tied(Advanced(s, t, late))
  {
    ThreadsAdvance(s, t, late);
    TimersAdvance(s, t, late);
    RunsAdvance(s, t, late);
  }

  lemma TiedProcess(s: State, r: nat, act: Act)
    requires Tied(s) && Enabled(s, Process(r, act))
    ensures Tied(Processed(s, r, act))
  {
    assert RunOk(s.tasks, s.runs[r]);
    assert RunOk(s.tasks, ActOn(s.runs[r], s.now, s.table, act));
  }

  lemma TiedStep(s: State, e: Event)
    requires Tied(s) && Waits(s.threads, s.runs) && Enabled(s, e)
    ensures Tied(Apply(s, e))
  {
    match e
    case Advance(t, late) => TiedAdvance(s, t, late);
    case Process(r, act) => TiedProcess(s, r, act);
    case _ =>
  }

  lemma WaitsAdvance(s: State, t: nat, late: bool)
    requires Tied(s) && Waits(s.threads, s.runs) && CanAdvance(s, t, late)
    ensures Waits(Advanced(s, t, late).threads, Advanced(s, t, late).runs)
  {
    var threads', runs' := Advanced(s, t, late).threads, Advanced(s, t, late).runs;
    forall u | u in threads' && threads'[u].pc.Waiting? ensures WaitsFor(threads', runs', u, threads'[u].pc.run) {
      if u != t {
        assert WaitsFor(s.threads, s.runs, u, s.threads[u].pc.run);
      }
    }
    forall r | r in runs' && runs'[r].proc == Spawned ensures WaitsFor(threads', runs', runs'[r].waiter, r) {
      if r in s.runs {
        assert WaitsFor(s.threads, s.runs, s.runs[r].waiter, r) && RunOk(s.tasks, s.runs[r]);
      }
    }
  }

  lemma WaitsProcess(s: State, r: nat, act: Act)
    requires Waits(s.threads, s.runs) && Enabled(s, Process(r, act))
    ensures Waits(s.threads, Processed(s, r, act).runs)
  {
    var runs' := Processed(s, r, act).runs;
    forall t | t in s.threads && s.threads[t].pc.Waiting? ensures WaitsFor(s.threads, runs', t, s.threads[t].pc.run) {
      assert WaitsFor(s.threads, s.runs, t, s.threads[t].pc.run);
    }
    forall q | q in runs' && runs'[q].proc == Spawned ensures WaitsFor(s.threads, runs', runs'[q].waiter, q) {
      assert WaitsFor(s.threads, s.runs, s.runs[q].waiter, q);
    }
  }

  lemma WaitsStep(s: State, e: Event)
    requires Tied(s) && Waits(s.threads, s.runs) && Enabled(s, e)
    ensures Waits(Apply(s, e).threads, Apply(s, e).runs)
  {
    match e
    case Advance(t, late) => WaitsAdvance(s, t, late);
    case Process(r, act) => WaitsProcess(s, r, act);
    case Dispatch => WaitsSpawn(s.threads, s.runs, s.next, Dispatched(s).threads[s.next]);
    case Fire(m) => WaitsSpawn(s.threads, s.runs, s.next, FiredTimer(s, m).threads[s.next]);
    case _ =>
  }

  lemma WaitsSpawn(threads: map<nat, Thread>, runs: map<nat, Run>, t: nat, th: Thread)
    requires Waits(threads, runs) && t !in threads && !th.pc.Waiting?
    ensures Waits(threads[t := th], runs)
  {
    forall u | u in threads && threads[u].pc.Waiting? ensures WaitsFor(threads[t := th], runs, u, threads[u].pc.run) {
      assert WaitsFor(threads, runs, u, threads[u].pc.run);
    }
    forall r | r in runs && runs[r].proc == Spawned ensures WaitsFor(threads[t := th], runs, runs[r].waiter, r) {
      assert WaitsFor(threads, runs, runs[r].waiter, r);
    }
  }

  lemma OwnersAdvance(s: State, t: nat, late: bool)
    requires Tied(s) && CanAdvance(s, t, late)
    ensures forall u, c :: Owner(NextThreads(s, t, late), u, c) ==>
      Owner(s.threads, u, c) && (s.threads[t].pc.Arming? ==> u != t)
  {
  }

  lemma ArmedAdvance(s: State, t: nat)
    requires t in s.threads
    ensures forall m, c :: ArmedFor(NextTimers(s, s.threads[t]), m, c) ==>
      ArmedFor(s.timers, m, c) || (m == s.next && s.threads[t].pc.Arming? && Owner(s.threads, t, c))
  {
  }

  lemma LinearAdvance(s: State, t: nat, late: bool)
    requires Tied(s) && Linear(s.threads, s.timers) && CanAdvance(s, t, late)
    ensures Linear(Advanced(s, t, late).threads, Advanced(s, t, late).timers)
  {
    OwnersAdvance(s, t, late);
    ArmedAdvance(s, t);
  }

  lemma LinearStep(s: State, e: Event)
    requires Tied(s) && Linear(s.threads, s.timers) && Enabled(s, e)
    ensures Linear(Apply(s, e).threads, Apply(s, e).timers)
  {
    var s' := Apply(s, e);
    match e
    case Advance(t, late) => LinearAdvance(s, t, late);
    case Dispatch =>
      assert forall u, c: nat :: Owner(s'.threads, u, c) ==>
        (Owner(s.threads, u, c) && c < |s.tasks|) || (u == s.next && c == |s.tasks|);
      assert forall m, c: nat :: ArmedFor(s.timers, m, c) ==> c < |s.tasks|;
    case Fire(m) =>
      var chain := s.timers[m].chain;
      assert ArmedFor(s.timers, m, chain);
      assert forall u, c :: Owner(s'.threads, u, c) ==> Owner(s.threads, u, c) || (u == s.next && c == chain);
      assert forall n, c :: ArmedFor(s'.timers, n, c) ==> ArmedFor(s.timers, n, c) && n != m;
    case _ =>
  }
}
