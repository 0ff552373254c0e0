/**
 What the count of a record stands for (rmanager/rman.go, getCount and setMonitor): a result with a positive
 count comes after a success of a recurring request for the resource, so no first success is ever suppressed.
 */
module Counting {
  import opened Messages
  import opened Engine
  import opened EngineInvariants
  import opened EngineAccounts
  import opened EngineTheorems
  import opened Reporting

  /** The outcome is a success of a recurring request for the resource. */
  ghost predicate Counts(tasks: seq<Task>, o: Outcome, rscid: int) {
    o.chain < |tasks| && tasks[o.chain].rscid == rscid && tasks[o.chain].interval > 0 && o.res.ret == CL_OK
  }

  ghost predicate Succeeded(tasks: seq<Task>, takes: seq<Outcome>, rscid: int) {
    exists o :: o in takes && Counts(tasks, o, rscid)
  }

  /** A positive count is earned by a success. */
  ghost predicate Earned(s: State, rscid: int, count: int) {
    count > 0 ==> Succeeded(s.tasks, s.takes, rscid)
  }

  ghost predicate RunEarned(s: State, run: Run) {
    (run.proc.Counted? ==> Earned(s, run.task.rscid, run.proc.count)) &&
    (forall res :: res in run.fin ==> Earned(s, run.task.rscid, res.count)) &&
    (forall res :: res in run.late ==> res.count == 0)
  }

  ghost predicate ThreadEarned(s: State, th: Thread) {
    match th.pc
    case Taken(_, res) => Repeats(th.task, res) ==> Succeeded(s.tasks, s.takes, th.task.rscid)
    case Posting(_, res, _) => Repeats(th.task, res) ==> Succeeded(s.tasks, s.takes, th.task.rscid)
    case Rearm(res) => Repeats(th.task, res) ==> Succeeded(s.tasks, s.takes, th.task.rscid)
    case Arming => Succeeded(s.tasks, s.takes, th.task.rscid)
    case Armed(_) => Succeeded(s.tasks, s.takes, th.task.rscid)
    case _ => true
  }

  ghost predicate StateEarned(s: State) {
    (forall rscid :: rscid in s.table ==> Earned(s, rscid, s.table[rscid].count)) &&
    (forall r :: r in s.runs ==> RunEarned(s, s.runs[r])) &&
    (forall t :: t in s.threads ==> ThreadEarned(s, s.threads[t]))
  }

  ghost predicate TakeEarned(tasks: seq<Task>, takes: seq<Outcome>, i: int)
    requires 0 <= i < |takes|
  {
    takes[i].res.count > 0 ==>
      takes[i].chain < |tasks| && Succeeded(tasks, takes[..i], tasks[takes[i].chain].rscid)
  }

  ghost predicate TakesEarned(s: State) {
    forall i :: 0 <= i < |s.takes| ==> TakeEarned(s.tasks, s.takes, i)
  }

  lemma StaysSucceeded(s: State, e: Event, rscid: int)
    requires Enabled(s, e) && Succeeded(s.tasks, s.takes, rscid)
    ensures Succeeded(Apply(s, e).tasks, Apply(s, e).takes, rscid)
  {
    var o :| o in s.takes && Counts(s.tasks, o, rscid);
    assert o in Apply(s, e).takes && Counts(Apply(s, e).tasks, o, rscid);
  }

  /** A step takes no success back. */
  ghost predicate KeepsSuccess(s: State, s': State) {
    forall rscid :: Succeeded(s.tasks, s.takes, rscid) ==> Succeeded(s'.tasks, s'.takes, rscid)
  }

  lemma TableEarned(s: State, t: nat, late: bool)
    requires Tied(s) && StateEarned(s) && CanAdvance(s, t, late) && KeepsSuccess(s, Advanced(s, t, late))
    ensures var s' := Advanced(s, t, late);
      forall rscid :: rscid in s'.table ==> Earned(s', rscid, s'.table[rscid].count)
  {
    assert ThreadOk(s.tasks, s.threads[t]) && ThreadEarned(s, s.threads[t]);
  }

  lemma OwnEarned(s: State, t: nat, late: bool)
    requires Tied(s) && StateEarned(s) && CanAdvance(s, t, late) && KeepsSuccess(s, Advanced(s, t, late))
    ensures var s' := Advanced(s, t, late); t in s'.threads ==> ThreadEarned(s', s'.threads[t])
  {
    var s', th := Advanced(s, t, late), s.threads[t];
    assert ThreadOk(s.tasks, th) && ThreadEarned(s, th);
    if th.pc.Waiting? && Repeats(th.task, Received(s.runs[th.pc.run], late)) {
      assert s'.takes[|s.takes|] in s'.takes && Counts(s.tasks, s'.takes[|s.takes|], th.task.rscid);
    }
  }

  lemma RunsEarned(s: State, t: nat, late: bool)
    requires Tied(s) && StateEarned(s) && CanAdvance(s, t, late) && KeepsSuccess(s, Advanced(s, t, late))
    ensures var s' := Advanced(s, t, late); forall r :: r in s'.runs ==> RunEarned(s', s'.runs[r])
  {
    var s' := Advanced(s, t, late);
    forall r | r in s'.runs ensures RunEarned(s', s'.runs[r]) {
      if r in s.runs { assert RunEarned(s, s.runs[r]); }
    }
  }

  lemma AdvanceEarned(s: State, t: nat, late: bool)
    requires Tied(s) && StateEarned(s) && CanAdvance(s, t, late) && KeepsSuccess(s, Advanced(s, t, late))
    ensures StateEarned(Advanced(s, t, late))
  {
    var s' := Advanced(s, t, late);
    TableEarned(s, t, late);
    RunsEarned(s, t, late);
    forall u | u in s'.threads ensures ThreadEarned(s', s'.threads[u]) {
      if u == t { OwnEarned(s, t, late); } else { assert ThreadEarned(s, s.threads[u]); }
    }
  }

  lemma ProcessEarned(s: State, r: nat, act: Act)
    requires Tied(s) && StateEarned(s) && Enabled(s, Process(r, act))
    ensures StateEarned(Processed(s, r, act))
  {
    var s' := Processed(s, r, act);
    ActEarned(s, r, act);
    forall q | q in s.runs ensures RunEarned(s', s'.runs[q]) {
      if q != r { assert RunEarned(s, s.runs[q]); }
    }
    forall t | t in s.threads ensures ThreadEarned(s', s.threads[t]) {
      assert ThreadEarned(s, s.threads[t]);
    }
  }

  lemma ActEarned(s: State, r: nat, act: Act)
    requires Tied(s) && StateEarned(s) && Enabled(s, Process(r, act))
    ensures RunEarned(Processed(s, r, act), Processed(s, r, act).runs[r])
  {
    assert RunOk(s.tasks, s.runs[r]) && RunEarned(s, s.runs[r]);
  }

  lemma OtherEarned(s: State, e: Event)
    requires StateEarned(s) && Enabled(s, e) && !e.Advance? && !e.Process? && KeepsSuccess(s, Apply(s, e))
    ensures StateEarned(Apply(s, e))
  {
    var s' := Apply(s, e);
    forall r | r in s.runs ensures RunEarned(s', s.runs[r]) {
      assert RunEarned(s, s.runs[r]);
    }
    forall t | t in s'.threads ensures ThreadEarned(s', s'.threads[t]) {
      if t in s.threads && s'.threads[t] == s.threads[t] { assert ThreadEarned(s, s.threads[t]); }
    }
  }

  lemma EarnedStep(s: State, e: Event)
    requires Tied(s) && StateEarned(s) && Enabled(s, e)
    ensures StateEarned(Apply(s, e))
  {
    var s' := Apply(s, e);
    forall rscid | Succeeded(s.tasks, s.takes, rscid) ensures Succeeded(s'.tasks, s'.takes, rscid) {
      StaysSucceeded(s, e, rscid);
    }
    if e.Advance? {
      AdvanceEarned(s, e.thread, e.late);
    } else if e.Process? {
      ProcessEarned(s, e.run, e.act);
    } else {
      OtherEarned(s, e);
    }
  }

  lemma ReceivedEarned(s: State, r: nat, late: bool)
    requires StateEarned(s) && r in s.runs && (if late then s.runs[r].late != [] else s.runs[r].fin != [])
    ensures Earned(s, s.runs[r].task.rscid, Received(s.runs[r], late).count)
  {
    assert RunEarned(s, s.runs[r]);
    if late {
      assert s.runs[r].late[0] in s.runs[r].late;
    } else {
      assert s.runs[r].fin[0] in s.runs[r].fin;
    }
  }

  /** The result received now. */
  lemma TakenEarned(s: State, t: nat, late: bool)
    requires Tied(s) && Waits(s.threads, s.runs) && StateEarned(s) && CanAdvance(s, t, late)
    requires s.threads[t].pc.Waiting?
    ensures TakeEarned(s.tasks, Advanced(s, t, late).takes, |s.takes|)
  {
    var r, takes' := s.threads[t].pc.run, Advanced(s, t, late).takes;
    assert WaitsFor(s.threads, s.runs, t, r) && RunOk(s.tasks, s.runs[r]);
    ReceivedEarned(s, r, late);
    assert takes'[..|s.takes|] == s.takes;
  }

  /** Those received before. */
  lemma TakeStaysEarned(s: State, e: Event, i: nat)
    requires Enabled(s, e) && i < |s.takes| && TakeEarned(s.tasks, s.takes, i)
    ensures TakeEarned(Apply(s, e).tasks, Apply(s, e).takes, i)
  {
    var s' := Apply(s, e);
    assert s'.takes[..i] == s.takes[..i] && s'.takes[i] == s.takes[i];
    if s.takes[i].res.count > 0 {
      var rscid := s.tasks[s.takes[i].chain].rscid;
      var o :| o in s.takes[..i] && Counts(s.tasks, o, rscid);
      assert Counts(s'.tasks, o, rscid);
    }
  }

  lemma TakesStep(s: State, e: Event)
    requires Tied(s) && Waits(s.threads, s.runs) && StateEarned(s) && TakesEarned(s) && Enabled(s, e)
    ensures TakesEarned(Apply(s, e))
  {
    var s' := Apply(s, e);
    forall i | 0 <= i < |s'.takes| ensures TakeEarned(s'.tasks, s'.takes, i) {
      if i < |s.takes| { TakeStaysEarned(s, e, i); } else { TakenEarned(s, e.thread, e.late); }
    }
  }

  lemma {:induction false} TakesRun(s: State, es: seq<Event>)
    requires Inv(s) && StateEarned(s) && TakesEarned(s) && Runs(s, es)
    ensures TakesEarned(After(s, es))
    decreases es
  {
    if es != [] {
      TakesStep(s, es[0]);
      EarnedStep(s, es[0]);
      InvStep(s, es[0]);
      TakesRun(Apply(s, es[0]), es[1..]);
    }
  }

  /** A result with a positive count comes after a success of a recurring request for the same resource. */
  lemma CountsAreEarned(s: State, i: nat)
    requires Reachable(s) && i < |s.takes| && s.takes[i].res.count > 0
    ensures s.takes[i].chain < |s.tasks|
    ensures Succeeded(s.tasks, s.takes[..i], s.tasks[s.takes[i].chain].rscid)
  {
    var es :| Runs(INIT, es) && After(INIT, es) == s;
    InvInit();
    TakesRun(INIT, es);
    assert TakeEarned(s.tasks, s.takes, i);
  }

  /**
   A result that is suppressed while no stop of its resource has been reported is a monitor's success after an
   earlier success of the resource: a first success is always reported then.
   */
  lemma FirstSuccessIsReported(s: State, i: nat)
    requires Reachable(s) && i < |s.takes| && s.takes[i] in s.drops
    ensures var o := s.takes[i];
      o.chain < |s.tasks| &&
      (!StopReported(s.tasks, s.posts, s.tasks[o.chain].rscid) ==>
        RepeatedSuccess(s.tasks[o.chain], o.res) && Succeeded(s.tasks, s.takes[..i], s.tasks[o.chain].rscid))
  {
    ReachableSends(s);
    if s.takes[i].res.count > 0 { CountsAreEarned(s, i); }
  }
}
