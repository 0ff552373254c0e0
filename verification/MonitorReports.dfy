/**
 What a recurring monitor reports (rmanager/rman.go, waitChildFunc and setMonitor): its first result, unless
 what is recorded of the resource hides it, and then nothing until it fails.
 */
module MonitorReports {
  import opened Messages
  import opened Records
  import opened Engine
  import opened EngineInvariants
  import opened EngineAccounts
  import opened StopBarrier
  import opened Leftovers

  // ---- the specification

  /** A result's return code, and whether it was the timeout result. */
  datatype Verdict = Verdict(ret: int, late: bool)

  /** The chain's outcomes, in order. */
  ghost function VerdictsOf(outcomes: seq<Outcome>, chain: nat): seq<Verdict> {
    if outcomes == [] then []
    else
      var o := outcomes[|outcomes| - 1];
      VerdictsOf(outcomes[..|outcomes| - 1], chain) + (if o.chain == chain then [Verdict(o.res.ret, o.late)] else [])
  }

  /** Successes only, except perhaps the last. */
  ghost predicate OkButLast(rets: seq<Verdict>) {
    forall i :: 0 <= i < |rets| - 1 ==> rets[i].ret == CL_OK
  }

  /** What is recorded of a resource, as far as reports depend on it; muted: a finished stop terminated it. */
  datatype Past = Past(count: int, muted: bool)

  ghost function Recorded(table: Table, rscid: int): Past {
    Past(Count(table, rscid), Terminated(table, rscid))
  }

  /** What setMonitor records. */
  const REPEATING: Past := Past(1, false)

  /** The first success is reported when nothing recorded before hides it. */
  ghost predicate Heard(base: Past) {
    !base.muted && base.count <= 0
  }

  /**
   Whether result n is reported: of the successes the first one, if it is heard; of the failures every one,
   except a first result that is not a timeout, on a terminated record.
   */
  ghost predicate Reports(n: int, a: Verdict, base: Past) {
    if a.ret == CL_OK then n == 0 && Heard(base) else n > 0 || a.late || !base.muted
  }

  ghost function Expected(rets: seq<Verdict>, base: Past): seq<Verdict> {
    if rets == [] then []
    else
      var n := |rets| - 1;
      Expected(rets[..n], base) + (if Reports(n, rets[n], base) then [rets[n]] else [])
  }

  lemma {:induction false} ExpectedOks(rets: seq<Verdict>, base: Past)
    requires forall i :: 0 <= i < |rets| ==> rets[i].ret == CL_OK
    ensures Expected(rets, base) == if rets != [] && Heard(base) then [rets[0]] else []
  {
    if |rets| > 1 {
      ExpectedOks(rets[..|rets| - 1], base);
    }
  }

  // ---- the invariant

  ghost predicate RecurringMonitor(task: Task) {
    task.op == "monitor" && task.interval > 0
  }

  /** The record a run finds: what the chain's first run found, and setMonitor's for every repetition. */
  ghost function Seen(base: Past, n: int): Past {
    if n == 0 then base else REPEATING
  }

  ghost predicate CountIs(run: Run, k: int) {
    (run.proc.Counted? ==> run.proc.count == k) && (forall m :: m in run.fin ==> m.count == k)
  }

  /** rets are the results received so far, past is what is recorded of the resource. */
  ghost predicate MonitorThread(th: Thread, runs: map<nat, Run>, rets: seq<Verdict>, base: Past, past: Past) {
    var n := |rets|;
    match th.pc
    case Enrol => false
    case Waiting(r) => past == Seen(base, n) && r in runs && CountIs(runs[r], past.count)
    case Taken(_, res) =>
      n > 0 && past == Seen(base, n - 1) && rets[n - 1] == Verdict(res.ret, false) && res.count == past.count
    case Posting(_, res, late) =>
      n > 0 && past == Seen(base, n - 1) && rets[n - 1] == Verdict(res.ret, late) && Reports(n - 1, rets[n - 1], base)
    case Rearm(res) => n > 0 && past == Seen(base, n - 1) && rets[n - 1].ret == res.ret
    case Arming => n > 0 && past == REPEATING
    case Armed(_) => n > 0 && past == REPEATING
    case Closing => true
    case _ => past == Seen(base, n)
  }

  /** A goroutine of the resource is the monitor's own, or one that will never touch the record. */
  ghost predicate Fits(th: Thread, runs: map<nat, Run>, chain: nat, rets: seq<Verdict>, base: Past, past: Past) {
    if th.chain == chain then MonitorThread(th, runs, rets, base, past) else Harmless(runs, th)
  }

  ghost predicate OnlyMonitor(threads: map<nat, Thread>, timers: map<nat, Timer>, runs: map<nat, Run>,
                              chain: nat, rscid: int, rets: seq<Verdict>, base: Past, past: Past)
  {
    (forall t :: t in threads && threads[t].task.rscid == rscid ==>
      Fits(threads[t], runs, chain, rets, base, past)) &&
    (forall m :: m in timers && timers[m].task.rscid == rscid ==>
      timers[m].chain == chain && rets != [] && past == REPEATING)
  }

  ghost predicate JudgingOf(threads: map<nat, Thread>, chain: nat) {
    exists t :: t in threads && threads[t].chain == chain && Judging(threads[t])
  }

  /** The results whose fate is decided: all but the one in the hands of a judging goroutine. */
  ghost function Decided(judging: bool, rets: seq<Verdict>): seq<Verdict> {
    if judging && rets != [] then rets[..|rets| - 1] else rets
  }

  ghost predicate MonitorInv(s: State, chain: nat, base: Past) {
    chain < |s.tasks| && RecurringMonitor(s.tasks[chain]) &&
    var rscid := s.tasks[chain].rscid;
    var rets := VerdictsOf(s.takes, chain);
    OnlyMonitor(s.threads, s.timers, s.runs, chain, rscid, rets, base, Recorded(s.table, rscid)) &&
    OkButLast(rets) &&
    VerdictsOf(s.posts, chain) == Expected(Decided(JudgingOf(s.threads, chain), rets), base)
  }

  // ---- preservation

  lemma VerdictsSnoc(outcomes: seq<Outcome>, o: Outcome, chain: nat)
    ensures VerdictsOf(outcomes + [o], chain) ==
      VerdictsOf(outcomes, chain) + (if o.chain == chain then [Verdict(o.res.ret, o.late)] else [])
  {
    assert (outcomes + [o])[..|outcomes|] == outcomes;
  }

  /** A result in the list comes from one of the outcomes. */
  lemma {:induction false} VerdictsFrom(outcomes: seq<Outcome>, chain: nat, i: nat) returns (o: Outcome)
    requires i < |VerdictsOf(outcomes, chain)|
    ensures o in outcomes && o.chain == chain && Verdict(o.res.ret, o.late) == VerdictsOf(outcomes, chain)[i]
  {
    var n := |outcomes| - 1;
    var init := VerdictsOf(outcomes[..n], chain);
    if i < |init| {
      o := VerdictsFrom(outcomes[..n], chain, i);
    } else {
      o := outcomes[n];
    }
  }

  /** While a run of the chain is still waited for, all its results so far were successes. */
  lemma AllOk(s: State, t: nat, chain: nat)
    requires Ended(s) && chain < |s.tasks| && t in s.threads && s.threads[t].chain == chain && s.threads[t].pc.Waiting?
    ensures forall i :: 0 <= i < |VerdictsOf(s.takes, chain)| ==> VerdictsOf(s.takes, chain)[i].ret == CL_OK
  {
    forall i | 0 <= i < |VerdictsOf(s.takes, chain)| ensures VerdictsOf(s.takes, chain)[i].ret == CL_OK {
      var o := VerdictsFrom(s.takes, chain, i);
      assert Owner(s.threads, t, chain);
    }
  }

  lemma ForeignTable(s: State, t: nat, late: bool, chain: nat, base: Past)
    requires Tied(s) && Waits(s.threads, s.runs) && MonitorInv(s, chain, base) && CanAdvance(s, t, late)
    requires s.threads[t].chain != chain
    ensures var s' := Advanced(s, t, late); var rscid := s.tasks[chain].rscid;
      Recorded(s'.table, rscid) == Recorded(s.table, rscid) &&
      (s.threads[t].task.rscid == rscid ==>
        s'.timers == s.timers && (t in s'.threads ==> Harmless(s'.runs, s'.threads[t])))
  {
    var rscid := s.tasks[chain].rscid;
    if s.threads[t].task.rscid == rscid {
      assert Fits(s.threads[t], s.runs, chain, VerdictsOf(s.takes, chain), base, Recorded(s.table, rscid));
      HarmlessAdvance(s, t, late);
    }
  }

  lemma ForeignRuns(s: State, t: nat, late: bool, u: nat)
    requires Tied(s) && Waits(s.threads, s.runs) && CanAdvance(s, t, late) && u in s.threads && u != t
    ensures var s' := Advanced(s, t, late);
      u in s'.threads && s'.threads[u] == s.threads[u] &&
      (s.threads[u].pc.Waiting? ==>
        var r := s.threads[u].pc.run; r in s.runs && r in s'.runs && s'.runs[r] == s.runs[r])
  {
    if s.threads[u].pc.Waiting? {
      assert WaitsFor(s.threads, s.runs, u, s.threads[u].pc.run);
      assert s.threads[t].pc.Waiting? ==> WaitsFor(s.threads, s.runs, t, s.threads[t].pc.run);
    }
  }

  lemma ForeignFits(s: State, t: nat, late: bool, u: nat, chain: nat, rets: seq<Verdict>, base: Past, past: Past)
    requires Tied(s) && Waits(s.threads, s.runs) && CanAdvance(s, t, late) && u in s.threads && u != t
    requires Fits(s.threads[u], s.runs, chain, rets, base, past)
    ensures var s' := Advanced(s, t, late);
      u in s'.threads && s'.threads[u] == s.threads[u] && Fits(s.threads[u], s'.runs, chain, rets, base, past)
  {
    ForeignRuns(s, t, late, u);
    OthersWrite(s, t, late, u);
  }

  /** Goroutines of other chains work on other resources or are harmless: they leave the monitor alone. */
  lemma ForeignThreads(s: State, t: nat, late: bool, chain: nat, base: Past)
    requires Tied(s) && Waits(s.threads, s.runs) && MonitorInv(s, chain, base) && CanAdvance(s, t, late)
    requires s.threads[t].chain != chain
    ensures var s' := Advanced(s, t, late); var rscid := s.tasks[chain].rscid;
      OnlyMonitor(s'.threads, s'.timers, s'.runs, chain, rscid, VerdictsOf(s.takes, chain), base,
        Recorded(s.table, rscid))
  {
    var s' := Advanced(s, t, late);
    var rscid := s.tasks[chain].rscid;
    var rets, past := VerdictsOf(s.takes, chain), Recorded(s.table, rscid);
    ForeignTable(s, t, late, chain, base);
    forall u | u in s'.threads && s'.threads[u].task.rscid == rscid
      ensures Fits(s'.threads[u], s'.runs, chain, rets, base, past)
    {
      if u != t {
        assert Fits(s.threads[u], s.runs, chain, rets, base, past);
        ForeignFits(s, t, late, u, chain, rets, base, past);
      }
    }
  }

  lemma ForeignJudging(s: State, t: nat, late: bool, chain: nat)
    requires CanAdvance(s, t, late) && s.threads[t].chain != chain
    ensures JudgingOf(Advanced(s, t, late).threads, chain) == JudgingOf(s.threads, chain)
  {
    var threads' := Advanced(s, t, late).threads;
    if JudgingOf(s.threads, chain) {
      var u :| u in s.threads && s.threads[u].chain == chain && Judging(s.threads[u]);
      assert u in threads' && threads'[u] == s.threads[u];
    }
    if JudgingOf(threads', chain) {
      var u :| u in threads' && threads'[u].chain == chain && Judging(threads'[u]);
      assert u in s.threads && threads'[u] == s.threads[u];
    }
  }

  lemma ForeignLogs(s: State, t: nat, late: bool, chain: nat)
    requires CanAdvance(s, t, late) && s.threads[t].chain != chain
    ensures VerdictsOf(Advanced(s, t, late).takes, chain) == VerdictsOf(s.takes, chain)
    ensures VerdictsOf(Advanced(s, t, late).posts, chain) == VerdictsOf(s.posts, chain)
  {
    var th := s.threads[t];
    if th.pc.Waiting? {
      VerdictsSnoc(s.takes, Outcome(th.chain, th.pc.run, Received(s.runs[th.pc.run], late), late), chain);
    }
    if th.pc.Posting? {
      VerdictsSnoc(s.posts, Outcome(th.chain, th.pc.run, th.pc.res, th.pc.late), chain);
    }
  }

  lemma ForeignAdvance(s: State, t: nat, late: bool, chain: nat, base: Past)
    requires Tied(s) && Waits(s.threads, s.runs) && MonitorInv(s, chain, base) && CanAdvance(s, t, late)
    requires s.threads[t].chain != chain
    ensures MonitorInv(Advanced(s, t, late), chain, base)
  {
    ForeignTable(s, t, late, chain, base);
    ForeignThreads(s, t, late, chain, base);
    ForeignJudging(s, t, late, chain);
    ForeignLogs(s, t, late, chain);
  }

  /** What a step of the monitor itself does to the results and the recorded count. */
  lemma OwnTable(s: State, t: nat, late: bool, chain: nat, base: Past)
    requires Tied(s) && MonitorInv(s, chain, base) && CanAdvance(s, t, late) && s.threads[t].chain == chain
    ensures var s' := Advanced(s, t, late); var rscid := s.tasks[chain].rscid; var th := s.threads[t];
      Recorded(s'.table, rscid) ==
        if th.pc.Rearm? && Repeats(th.task, th.pc.res) then REPEATING else Recorded(s.table, rscid)
  {
    assert ThreadOk(s.tasks, s.threads[t]);
    assert MonitorThread(s.threads[t], s.runs, VerdictsOf(s.takes, chain), base,
      Recorded(s.table, s.tasks[chain].rscid));
  }

  /** The result a waiter receives fits in. */
  lemma ResultFits(th: Thread, run: Run, late: bool, runs: map<nat, Run>, rets: seq<Verdict>, base: Past, past: Past)
    requires (if late then run.late else run.fin) != [] && th.pc.Waiting?
    requires past == Seen(base, |rets|) && CountIs(run, past.count)
    requires forall m :: m in run.late ==> m.ret == CL_ERROR
    ensures var res := Received(run, late);
      MonitorThread(th.(pc := if late then Posting(th.pc.run, res, true) else Taken(th.pc.run, res)), runs,
        rets + [Verdict(res.ret, late)], base, past)
  {
    assert Received(run, late) in (if late then run.late else run.fin);
  }

  /** The waiter receives its result. */
  lemma OwnTakes(s: State, t: nat, late: bool, chain: nat, base: Past)
    requires Tied(s) && Waits(s.threads, s.runs) && MonitorInv(s, chain, base) && CanAdvance(s, t, late)
    requires s.threads[t].chain == chain && s.threads[t].pc.Waiting?
    ensures var s' := Advanced(s, t, late);
      t in s'.threads && MonitorThread(s'.threads[t], s'.runs, VerdictsOf(s'.takes, chain), base,
        Recorded(s.table, s.tasks[chain].rscid))
  {
    var th, rets, past := s.threads[t], VerdictsOf(s.takes, chain), Recorded(s.table, s.tasks[chain].rscid);
    var run := s.runs[th.pc.run];
    assert ThreadOk(s.tasks, th) && MonitorThread(th, s.runs, rets, base, past);
    assert WaitsFor(s.threads, s.runs, t, th.pc.run) && RunOk(s.tasks, run);
    OwnLogs(s, t, late, chain);
    ResultFits(th, run, late, Advanced(s, t, late).runs, rets, base, past);
  }

  lemma OwnThread(s: State, t: nat, late: bool, chain: nat, base: Past)
    requires Tied(s) && Waits(s.threads, s.runs) && MonitorInv(s, chain, base) && CanAdvance(s, t, late)
    requires s.threads[t].chain == chain
    ensures var s' := Advanced(s, t, late);
      t in s'.threads ==> MonitorThread(s'.threads[t], s'.runs, VerdictsOf(s'.takes, chain), base,
        Recorded(s'.table, s.tasks[chain].rscid))
  {
    var th := s.threads[t];
    OwnTable(s, t, late, chain, base);
    if th.pc.Waiting? {
      OwnTakes(s, t, late, chain, base);
    } else {
      assert ThreadOk(s.tasks, th);
      assert MonitorThread(th, s.runs, VerdictsOf(s.takes, chain), base, Recorded(s.table, s.tasks[chain].rscid));
    }
  }

  /** Results are only added. */
  lemma OwnMore(s: State, t: nat, late: bool, chain: nat)
    requires CanAdvance(s, t, late) && s.threads[t].chain == chain
    ensures |VerdictsOf(Advanced(s, t, late).takes, chain)| >= |VerdictsOf(s.takes, chain)|
    ensures !s.threads[t].pc.Waiting? ==> Advanced(s, t, late).takes == s.takes
  {
    var th := s.threads[t];
    if th.pc.Waiting? {
      VerdictsSnoc(s.takes, Outcome(th.chain, th.pc.run, Received(s.runs[th.pc.run], late), late), chain);
    }
  }

  /** While a goroutine of the monitor makes a step, another one that holds the chain sees nothing change. */
  lemma OwnHolder(s: State, t: nat, late: bool, chain: nat, u: nat)
    requires Linear(s.threads, s.timers) && CanAdvance(s, t, late) && s.threads[t].chain == chain
    requires u != t && Owner(s.threads, u, chain)
    ensures var s' := Advanced(s, t, late);
      s'.runs == s.runs && s'.takes == s.takes && (s.threads[t].pc.Armed? || s.threads[t].pc.Closing?)
  {
    assert Owner(s.threads, t, chain) <==> Owns(s.threads[t]);
  }

  /** What a goroutine that makes no step has to see. */
  lemma StillFits(th: Thread, runs: map<nat, Run>, runs': map<nat, Run>, rets: seq<Verdict>, rets': seq<Verdict>,
                  base: Past, past: Past, past': Past)
    requires MonitorThread(th, runs, rets, base, past)
    requires if Owns(th) then runs' == runs && rets' == rets && past' == past
      else |rets'| >= |rets| && (past' == past || past' == REPEATING)
    ensures MonitorThread(th, runs', rets', base, past')
  {
  }

  /** Another goroutine of the monitor has not moved, and may see more results and the record of setMonitor. */
  lemma OwnOthers(s: State, t: nat, late: bool, chain: nat, base: Past, u: nat)
    requires Tied(s) && Linear(s.threads, s.timers) && MonitorInv(s, chain, base) && CanAdvance(s, t, late)
    requires s.threads[t].chain == chain
    requires u in s.threads && u != t && s.threads[u].chain == chain
    ensures var s', rscid := Advanced(s, t, late), s.tasks[chain].rscid;
      u in s'.threads && s'.threads[u] == s.threads[u] &&
      (Owns(s.threads[u]) ==>
        s'.runs == s.runs && s'.takes == s.takes && Recorded(s'.table, rscid) == Recorded(s.table, rscid)) &&
      |VerdictsOf(s'.takes, chain)| >= |VerdictsOf(s.takes, chain)| &&
      (Recorded(s'.table, rscid) == Recorded(s.table, rscid) || Recorded(s'.table, rscid) == REPEATING)
  {
    OwnTable(s, t, late, chain, base);
    OwnMore(s, t, late, chain);
    if Owns(s.threads[u]) {
      assert Owner(s.threads, u, chain);
      OwnHolder(s, t, late, chain, u);
    }
  }

  lemma OwnTimers(s: State, t: nat, late: bool, chain: nat, base: Past)
    requires Tied(s) && Linear(s.threads, s.timers) && MonitorInv(s, chain, base) && CanAdvance(s, t, late)
    requires s.threads[t].chain == chain
    ensures var s' := Advanced(s, t, late); var rscid := s.tasks[chain].rscid;
      forall m :: m in s'.timers && s'.timers[m].task.rscid == rscid ==>
        s'.timers[m].chain == chain && VerdictsOf(s'.takes, chain) != [] && Recorded(s'.table, rscid) == REPEATING
  {
    var th := s.threads[t];
    var rscid := s.tasks[chain].rscid;
    OwnTable(s, t, late, chain, base);
    assert ThreadOk(s.tasks, th);
    assert MonitorThread(th, s.runs, VerdictsOf(s.takes, chain), base, Recorded(s.table, rscid));
    if th.pc.Waiting? {
      VerdictsSnoc(s.takes, Outcome(th.chain, th.pc.run, Received(s.runs[th.pc.run], late), late), chain);
    }
  }

  lemma OwnOnlyMonitor(s: State, t: nat, late: bool, chain: nat, base: Past)
    requires Tied(s) && Waits(s.threads, s.runs) && Linear(s.threads, s.timers)
    requires MonitorInv(s, chain, base) && CanAdvance(s, t, late) && s.threads[t].chain == chain
    ensures var s' := Advanced(s, t, late); var rscid := s.tasks[chain].rscid;
      OnlyMonitor(s'.threads, s'.timers, s'.runs, chain, rscid, VerdictsOf(s'.takes, chain), base,
        Recorded(s'.table, rscid))
  {
    var s' := Advanced(s, t, late);
    var rscid := s.tasks[chain].rscid;
    OwnTimers(s, t, late, chain, base);
    forall u | u in s'.threads && s'.threads[u].task.rscid == rscid
      ensures Fits(s'.threads[u], s'.runs, chain, VerdictsOf(s'.takes, chain), base, Recorded(s'.table, rscid))
    {
      if u == t {
        OwnThread(s, t, late, chain, base);
      } else if s.threads[u].chain != chain {
        assert Fits(s.threads[u], s.runs, chain, VerdictsOf(s.takes, chain), base, Recorded(s.table, rscid));
        OthersWrite(s, t, late, u);
      } else {
        assert Fits(s.threads[u], s.runs, chain, VerdictsOf(s.takes, chain), base, Recorded(s.table, rscid));
        OwnOthers(s, t, late, chain, base, u);
        StillFits(s.threads[u], s.runs, s'.runs, VerdictsOf(s.takes, chain), VerdictsOf(s'.takes, chain), base,
          Recorded(s.table, rscid), Recorded(s'.table, rscid));
      }
    }
  }

  /** Whether the chain has a judging goroutine is decided by its holder. */
  lemma OwnJudging(s: State, t: nat, late: bool, chain: nat)
    requires Linear(s.threads, s.timers) && CanAdvance(s, t, late) && s.threads[t].chain == chain
    ensures var s' := Advanced(s, t, late);
      if Owns(s.threads[t])
      then JudgingOf(s.threads, chain) == Judging(s.threads[t]) &&
           JudgingOf(s'.threads, chain) == (t in s'.threads && Judging(s'.threads[t]))
      else JudgingOf(s'.threads, chain) == JudgingOf(s.threads, chain)
  {
    var threads' := Advanced(s, t, late).threads;
    if JudgingOf(s.threads, chain) {
      var u :| u in s.threads && s.threads[u].chain == chain && Judging(s.threads[u]);
      assert Owner(s.threads, u, chain);
      assert Owns(s.threads[t]) ==> Owner(s.threads, t, chain);
      assert u != t ==> u in threads' && threads'[u] == s.threads[u];
    }
    if JudgingOf(threads', chain) {
      var u :| u in threads' && threads'[u].chain == chain && Judging(threads'[u]);
      assert Owner(s.threads, u, chain);
      assert Owns(s.threads[t]) ==> Owner(s.threads, t, chain);
      assert u != t ==> threads'[u] == s.threads[u];
    }
  }

  lemma OwnLogs(s: State, t: nat, late: bool, chain: nat)
    requires CanAdvance(s, t, late) && s.threads[t].chain == chain
    ensures var s' := Advanced(s, t, late); var pc := s.threads[t].pc;
      VerdictsOf(s'.takes, chain) == VerdictsOf(s.takes, chain) +
        (if pc.Waiting? then [Verdict(Received(s.runs[pc.run], late).ret, late)] else []) &&
      VerdictsOf(s'.posts, chain) == VerdictsOf(s.posts, chain) +
        (if pc.Posting? then [Verdict(pc.res.ret, pc.late)] else [])
  {
    var th := s.threads[t];
    if th.pc.Waiting? {
      VerdictsSnoc(s.takes, Outcome(th.chain, th.pc.run, Received(s.runs[th.pc.run], late), late), chain);
    } else if th.pc.Posting? {
      VerdictsSnoc(s.posts, Outcome(th.chain, th.pc.run, th.pc.res, th.pc.late), chain);
    }
  }

  /** Deciding a finish result: it is expected as a report exactly when it is not suppressed. */
  lemma LastDecided(rets: seq<Verdict>, base: Past, past: Past, task: Task, res: Execrsc)
    requires rets != [] && past == Seen(base, |rets| - 1) && res.count == past.count
    requires rets[|rets| - 1] == Verdict(res.ret, false) && RecurringMonitor(task) && ResultOf(task, res)
    ensures Expected(rets, base) ==
      Expected(rets[..|rets| - 1], base) +
      (if past.muted || Repeated(res, task.interval) then [] else [Verdict(res.ret, false)])
    ensures Reports(|rets| - 1, rets[|rets| - 1], base) <==> !past.muted && !Repeated(res, task.interval)
  {
  }

  /** Every judged result is treated as expected. */
  lemma JudgedRight(s: State, t: nat, late: bool, chain: nat, base: Past)
    requires Tied(s) && Linear(s.threads, s.timers) && MonitorInv(s, chain, base)
    requires CanAdvance(s, t, late) && s.threads[t].chain == chain && Judging(s.threads[t])
    ensures var s' := Advanced(s, t, late);
      VerdictsOf(s'.posts, chain) == Expected(Decided(JudgingOf(s'.threads, chain), VerdictsOf(s.takes, chain)), base)
  {
    var th := s.threads[t];
    var rets := VerdictsOf(s.takes, chain);
    var past := Recorded(s.table, s.tasks[chain].rscid);
    OwnJudging(s, t, late, chain);
    OwnLogs(s, t, late, chain);
    assert ThreadOk(s.tasks, th) && MonitorThread(th, s.runs, rets, base, past);
    if th.pc.Taken? {
      LastDecided(rets, base, past, th.task, th.pc.res);
    }
  }

  lemma OwnPosts(s: State, t: nat, late: bool, chain: nat, base: Past)
    requires Tied(s) && Linear(s.threads, s.timers) && MonitorInv(s, chain, base) && CanAdvance(s, t, late)
    requires s.threads[t].chain == chain
    ensures var s' := Advanced(s, t, late);
      VerdictsOf(s'.posts, chain) == Expected(Decided(JudgingOf(s'.threads, chain), VerdictsOf(s'.takes, chain)), base)
  {
    if Judging(s.threads[t]) {
      OwnLogs(s, t, late, chain);
      JudgedRight(s, t, late, chain, base);
    } else {
      UnjudgedPosts(s, t, late, chain);
    }
  }

  /** A goroutine that is not judging settles nothing. */
  lemma UnjudgedPosts(s: State, t: nat, late: bool, chain: nat)
    requires Linear(s.threads, s.timers) && CanAdvance(s, t, late) && s.threads[t].chain == chain
    requires !Judging(s.threads[t])
    ensures var s' := Advanced(s, t, late);
      VerdictsOf(s'.posts, chain) == VerdictsOf(s.posts, chain) &&
      Decided(JudgingOf(s'.threads, chain), VerdictsOf(s'.takes, chain)) ==
        Decided(JudgingOf(s.threads, chain), VerdictsOf(s.takes, chain))
  {
    OwnLogs(s, t, late, chain);
    OwnJudging(s, t, late, chain);
  }

  lemma OwnAdvance(s: State, t: nat, late: bool, chain: nat, base: Past)
    requires Inv(s) && MonitorInv(s, chain, base) && CanAdvance(s, t, late) && s.threads[t].chain == chain
    ensures MonitorInv(Advanced(s, t, late), chain, base)
  {
    OwnOnlyMonitor(s, t, late, chain, base);
    OwnTable(s, t, late, chain, base);
    OwnPosts(s, t, late, chain, base);
    var th := s.threads[t];
    if th.pc.Waiting? {
      AllOk(s, t, chain);
      VerdictsSnoc(s.takes, Outcome(th.chain, th.pc.run, Received(s.runs[th.pc.run], late), late), chain);
    }
  }

  /** The count a run reads is the one recorded for its resource. */
  lemma CountKept(run: Run, now: int, table: Table, act: Act)
    requires CanAct(run, now, act) && CountIs(run, Count(table, run.task.rscid))
    ensures CountIs(ActOn(run, now, table, act), Count(table, run.task.rscid))
  {
  }

  lemma ProcessKeepsThread(s: State, r: nat, act: Act, t: nat, rets: seq<Verdict>, base: Past)
    requires Tied(s) && Waits(s.threads, s.runs) && Enabled(s, Process(r, act)) && t in s.threads
    requires MonitorThread(s.threads[t], s.runs, rets, base, Recorded(s.table, s.threads[t].task.rscid))
    ensures MonitorThread(s.threads[t], Processed(s, r, act).runs, rets, base,
      Recorded(s.table, s.threads[t].task.rscid))
  {
    if s.threads[t].pc == Waiting(r) {
      assert WaitsFor(s.threads, s.runs, t, r) && RunOk(s.tasks, s.runs[r]) && ThreadOk(s.tasks, s.threads[t]);
      CountKept(s.runs[r], s.now, s.table, act);
    }
  }

  lemma ProcessKeeps(s: State, r: nat, act: Act, chain: nat, base: Past)
    requires Tied(s) && Waits(s.threads, s.runs) && MonitorInv(s, chain, base) && Enabled(s, Process(r, act))
    ensures MonitorInv(Processed(s, r, act), chain, base)
  {
    var s' := Processed(s, r, act);
    var rscid := s.tasks[chain].rscid;
    var rets, past := VerdictsOf(s.takes, chain), Recorded(s.table, rscid);
    forall t | t in s.threads && s.threads[t].task.rscid == rscid
      ensures Fits(s.threads[t], s'.runs, chain, rets, base, past)
    {
      assert Fits(s.threads[t], s.runs, chain, rets, base, past);
      if s.threads[t].chain == chain {
        ProcessKeepsThread(s, r, act, t, rets, base);
      } else {
        ProcessWrites(s, r, act, t);
      }
    }
  }

  lemma SpawnJudging(threads: map<nat, Thread>, t: nat, th: Thread, chain: nat)
    requires t !in threads && !Judging(th)
    ensures JudgingOf(threads[t := th], chain) == JudgingOf(threads, chain)
  {
    var threads' := threads[t := th];
    if JudgingOf(threads, chain) {
      var u :| u in threads && threads[u].chain == chain && Judging(threads[u]);
      assert u in threads' && threads'[u] == threads[u];
    }
    if JudgingOf(threads', chain) {
      var u :| u in threads' && threads'[u].chain == chain && Judging(threads'[u]);
      assert u in threads && threads'[u] == threads[u];
    }
  }

  lemma SpawnOnly(threads: map<nat, Thread>, timers: map<nat, Timer>, timers': map<nat, Timer>, runs: map<nat, Run>,
                  t: nat, th: Thread, chain: nat, rscid: int, rets: seq<Verdict>, base: Past, past: Past)
    requires OnlyMonitor(threads, timers, runs, chain, rscid, rets, base, past) && t !in threads
    requires th.task.rscid == rscid ==> th.chain == chain && MonitorThread(th, runs, rets, base, past)
    requires forall m :: m in timers' ==> m in timers && timers'[m] == timers[m]
    ensures OnlyMonitor(threads[t := th], timers', runs, chain, rscid, rets, base, past)
  {
  }

  lemma DispatchKeeps(s: State, chain: nat, base: Past)
    requires Tied(s) && MonitorInv(s, chain, base) && Enabled(s, Dispatch)
    requires s.requests[0].body.request.rscid != s.tasks[chain].rscid
    ensures MonitorInv(Dispatched(s), chain, base)
  {
    var th := Dispatched(s).threads[s.next];
    var rscid := s.tasks[chain].rscid;
    SpawnJudging(s.threads, s.next, th, chain);
    SpawnOnly(s.threads, s.timers, s.timers, s.runs, s.next, th, chain, rscid, VerdictsOf(s.takes, chain), base,
      Recorded(s.table, rscid));
  }

  lemma FireKeeps(s: State, m: nat, chain: nat, base: Past)
    requires Tied(s) && MonitorInv(s, chain, base) && Enabled(s, Fire(m))
    ensures MonitorInv(FiredTimer(s, m), chain, base)
  {
    var th := FiredTimer(s, m).threads[s.next];
    var rscid := s.tasks[chain].rscid;
    SpawnJudging(s.threads, s.next, th, chain);
    SpawnOnly(s.threads, s.timers, s.timers - {m}, s.runs, s.next, th, chain, rscid, VerdictsOf(s.takes, chain), base,
      Recorded(s.table, rscid));
  }

  lemma MonitorStep(s: State, e: Event, chain: nat, base: Past)
    requires Inv(s) && MonitorInv(s, chain, base) && Enabled(s, e)
    requires e.Dispatch? ==> s.requests[0].body.request.rscid != s.tasks[chain].rscid
    ensures MonitorInv(Apply(s, e), chain, base)
  {
    match e
    case Advance(t, late) =>
      if s.threads[t].chain == chain {
        OwnAdvance(s, t, late, chain, base);
      } else {
        ForeignAdvance(s, t, late, chain, base);
      }
    case Process(r, act) => ProcessKeeps(s, r, act, chain, base);
    case Dispatch => DispatchKeeps(s, chain, base);
    case Fire(m) => FireKeeps(s, m, chain, base);
    case _ =>
  }

  lemma {:induction false} MonitorRun(s: State, es: seq<Event>, chain: nat, base: Past)
    requires Inv(s) && MonitorInv(s, chain, base) && Runs(s, es) && NoRequest(s, es, s.tasks[chain].rscid)
    ensures Inv(After(s, es)) && MonitorInv(After(s, es), chain, base)
    decreases es
  {
    if es != [] {
      InvStep(s, es[0]);
      MonitorStep(s, es[0], chain, base);
      assert Apply(s, es[0]).tasks[chain] == s.tasks[chain];
      MonitorRun(Apply(s, es[0]), es[1..], chain, base);
    }
  }

  // ---- the report trace

  /** Nothing is left of the resource's earlier requests that could touch its record. */
  ghost predicate Clear(s: State, rscid: int) {
    (forall t :: t in s.threads && s.threads[t].task.rscid == rscid ==> Harmless(s.runs, s.threads[t])) &&
    (forall m :: m in s.timers ==> s.timers[m].task.rscid != rscid)
  }

  /** A chain that has not been dispatched has no outcomes. */
  lemma {:induction false} NoVerdicts(tasks: seq<Task>, outcomes: seq<Outcome>, chain: nat)
    requires forall o :: o in outcomes ==> OutcomeOk(tasks, o)
    requires chain >= |tasks|
    ensures VerdictsOf(outcomes, chain) == []
  {
    if outcomes != [] {
      var n := |outcomes| - 1;
      assert outcomes[n] in outcomes;
      forall o | o in outcomes[..n] ensures OutcomeOk(tasks, o) { assert o in outcomes; }
      NoVerdicts(tasks, outcomes[..n], chain);
    }
  }

  lemma NothingYet(s: State)
    requires Logged(s) && Balanced(s)
    ensures VerdictsOf(s.takes, |s.tasks|) == VerdictsOf(s.posts, |s.tasks|) == []
  {
    NoVerdicts(s.tasks, s.takes, |s.tasks|);
    forall o | o in s.posts ensures o in s.takes { assert o in multiset(s.posts) && o in multiset(s.takes); }
    NoVerdicts(s.tasks, s.posts, |s.tasks|);
  }

  lemma MonitorBegins(s: State)
    requires Tied(s) && Enabled(s, Dispatch) && RecurringMonitor(TaskOf(s.requests[0]))
    requires Clear(s, s.requests[0].body.request.rscid)
    requires VerdictsOf(s.takes, |s.tasks|) == VerdictsOf(s.posts, |s.tasks|) == []
    ensures MonitorInv(Dispatched(s), |s.tasks|, Recorded(s.table, s.requests[0].body.request.rscid))
  {
    var chain, rscid := |s.tasks|, s.requests[0].body.request.rscid;
    var s' := Dispatched(s);
    var past := Recorded(s.table, rscid);
    assert OnlyMonitor(s'.threads, s'.timers, s'.runs, chain, rscid, [], past, past);
    assert Decided(JudgingOf(s'.threads, chain), []) == [];
  }

  /** k successes, then perhaps a failure. */
  ghost predicate Trace(rets: seq<Verdict>, k: nat, failed: bool) {
    |rets| == k + (if failed then 1 else 0) && (forall i :: 0 <= i < k ==> rets[i] == Verdict(CL_OK, false)) &&
    (failed ==> rets[k].ret == CL_ERROR)
  }

  /** Of such results, the reports: the first success if it is heard, and the failure unless it is muted. */
  ghost function ReportTrace(rets: seq<Verdict>, k: nat, failed: bool, base: Past): seq<Verdict>
    requires Trace(rets, k, failed)
  {
    (if k > 0 && Heard(base) then [Verdict(CL_OK, false)] else []) +
    (if failed && (k > 0 || rets[k].late || !base.muted) then [rets[k]] else [])
  }

  lemma ExpectedTrace(rets: seq<Verdict>, k: nat, failed: bool, base: Past)
    requires Trace(rets, k, failed)
    ensures Expected(rets, base) == ReportTrace(rets, k, failed, base)
  {
    if failed {
      ExpectedOks(rets[..k], base);
    } else {
      ExpectedOks(rets, base);
    }
  }

  lemma VerdictsAreOk(s: State, chain: nat)
    requires Logged(s)
    ensures forall i :: 0 <= i < |VerdictsOf(s.takes, chain)| ==>
      VerdictsOf(s.takes, chain)[i].ret == CL_ERROR || VerdictsOf(s.takes, chain)[i] == Verdict(CL_OK, false)
  {
    forall i | 0 <= i < |VerdictsOf(s.takes, chain)|
      ensures VerdictsOf(s.takes, chain)[i].ret == CL_ERROR || VerdictsOf(s.takes, chain)[i] == Verdict(CL_OK, false)
    {
      var o := VerdictsFrom(s.takes, chain, i);
      assert OutcomeOk(s.tasks, o);
    }
  }

  lemma TraceOf(s: State, chain: nat, base: Past) returns (k: nat, failed: bool)
    requires Logged(s) && MonitorInv(s, chain, base)
    ensures Trace(VerdictsOf(s.takes, chain), k, failed)
    ensures !JudgingOf(s.threads, chain) ==>
      VerdictsOf(s.posts, chain) == ReportTrace(VerdictsOf(s.takes, chain), k, failed, base)
  {
    var rets := VerdictsOf(s.takes, chain);
    failed := rets != [] && rets[|rets| - 1].ret != CL_OK;
    k := |rets| - (if failed then 1 else 0);
    VerdictsAreOk(s, chain);
    ExpectedTrace(rets, k, failed, base);
  }

  /**
   In every run that begins by dispatching a recurring monitor of a clear resource and dispatches no other
   request for that resource, the results received are k successes, possibly followed by one failure.  The
   reports sent - apart from a result still being judged - are one success exactly when there was one and
   the record found is neither terminated nor counted, and the failure, unless it is the first result, no
   timeout, and the record found is terminated.
   */
  lemma MonitorTrace(s: State, es: seq<Event>) returns (k: nat, failed: bool)
    requires Inv(s) && Enabled(s, Dispatch) && RecurringMonitor(TaskOf(s.requests[0]))
    requires Clear(s, s.requests[0].body.request.rscid)
    requires Runs(Dispatched(s), es) && NoRequest(Dispatched(s), es, s.requests[0].body.request.rscid)
    ensures var s' := After(Dispatched(s), es); var chain := |s.tasks|;
      Trace(VerdictsOf(s'.takes, chain), k, failed) &&
      (!JudgingOf(s'.threads, chain) ==>
        VerdictsOf(s'.posts, chain) ==
          ReportTrace(VerdictsOf(s'.takes, chain), k, failed, Recorded(s.table, s.requests[0].body.request.rscid)))
  {
    var base := Recorded(s.table, s.requests[0].body.request.rscid);
    NothingYet(s);
    MonitorBegins(s);
    InvStep(s, Dispatch);
    MonitorRun(Dispatched(s), es, |s.tasks|, base);
    k, failed := TraceOf(After(Dispatched(s), es), |s.tasks|, base);
  }
}
