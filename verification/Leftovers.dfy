/**
 What is left of a resource's earlier requests when a new one is dispatched: goroutines and timers that may
 still write its record.
 */
module Leftovers {
  import opened Options
  import opened Engine
  import opened EngineInvariants
  import opened StopBarrier

  /** The goroutine is about to enter its own request in the table. */
  ghost predicate Enrols(th: Thread) {
    th.pc.Enrol? || (th.pc.Enter? && th.task.interval == 0)
  }

  /** The goroutine may still call setMonitor, or is inside it. */
  ghost predicate MayGoOn(runs: map<nat, Run>, th: Thread) {
    th.task.interval > 0 && (BeforeLaunch(runs, th) || MayRepeat(runs, th))
  }

  ghost predicate Writes(runs: map<nat, Run>, th: Thread) {
    Enrols(th) || MayGoOn(runs, th)
  }

  /** A goroutine that will never touch the record. */
  ghost predicate Harmless(runs: map<nat, Run>, th: Thread) {
    !th.pc.Fired? && th.task.op != "stop" && !Writes(runs, th)
  }

  lemma HarmlessNext(s: State, t: nat, late: bool, runs: map<nat, Run>)
    requires Tied(s) && Waits(s.threads, s.runs) && CanAdvance(s, t, late) && Harmless(s.runs, s.threads[t])
    ensures var pc := NextPc(s, t, late); pc.Some? ==> Harmless(runs, s.threads[t].(pc := pc.value))
  {
    assert ThreadOk(s.tasks, s.threads[t]);
    if s.threads[t].pc.Waiting? {
      SpentResult(s, t, late);
    }
  }

  lemma HarmlessWritesNothing(s: State, t: nat, late: bool)
    requires Tied(s) && CanAdvance(s, t, late) && Harmless(s.runs, s.threads[t])
    ensures NextTable(s.table, s.threads[t]) == s.table && NextTimers(s, s.threads[t]) == s.timers
  {
    assert ThreadOk(s.tasks, s.threads[t]);
  }

  lemma HarmlessAdvance(s: State, t: nat, late: bool)
    requires Tied(s) && Waits(s.threads, s.runs) && CanAdvance(s, t, late) && Harmless(s.runs, s.threads[t])
    ensures var s' := Advanced(s, t, late);
      s'.table == s.table && s'.timers == s.timers && (t in s'.threads ==> Harmless(s'.runs, s'.threads[t]))
  {
    HarmlessNext(s, t, late, Advanced(s, t, late).runs);
    HarmlessWritesNothing(s, t, late);
  }

  /** A step of one goroutine leaves what the others may write as it is. */
  lemma OthersWrite(s: State, t: nat, late: bool, u: nat)
    requires Tied(s) && Waits(s.threads, s.runs) && CanAdvance(s, t, late) && u in s.threads && u != t
    ensures var s' := Advanced(s, t, late);
      u in s'.threads && s'.threads[u] == s.threads[u] &&
      MayGoOn(s'.runs, s.threads[u]) == MayGoOn(s.runs, s.threads[u])
  {
    OthersAdvance(s, t, late, u);
  }

  /** A step of a process goroutine gives no goroutine more to do. */
  lemma ProcessWrites(s: State, r: nat, act: Act, t: nat)
    requires Tied(s) && Waits(s.threads, s.runs) && Enabled(s, Process(r, act)) && t in s.threads
    ensures MayGoOn(Processed(s, r, act).runs, s.threads[t]) ==> MayGoOn(s.runs, s.threads[t])
  {
    if s.threads[t].pc == Waiting(r) && MaySucceed(ActOn(s.runs[r], s.now, s.table, act)) {
      assert RunOk(s.tasks, s.runs[r]);
      SuccessFades(s.runs[r], s.now, s.table, act);
    }
  }
}
