/**
 What the leftovers of a resource's earlier requests can do to the first result of a new monitor of it:
 make the record terminated, or give it a count, before that result is judged.
 */
module Disturbance {
  import opened Options
  import opened Records
  import opened Engine
  import opened EngineInvariants
  import opened StopBarrier
  import opened Leftovers
  import opened MonitorReports

  ghost predicate Left(s: State, me: nat, rscid: int, t: nat) {
    t in s.threads && s.threads[t].task.rscid == rscid && s.threads[t].chain != me
  }

  ghost predicate LeftTimer(s: State, me: nat, rscid: int, m: nat) {
    m in s.timers && s.timers[m].task.rscid == rscid && s.timers[m].chain != me
  }

  /** A callback still to make its stop check, now or when its timer fires; all: not only those of a stop. */
  ghost predicate CanFire(s: State, me: nat, rscid: int, all: bool) {
    (exists t :: Left(s, me, rscid, t) && s.threads[t].pc.Fired? && (all || s.threads[t].task.op == "stop")) ||
    (exists m :: LeftTimer(s, me, rscid, m) && (all || s.timers[m].task.op == "stop"))
  }

  ghost predicate SomeWrite(s: State, me: nat, rscid: int) {
    exists t :: Left(s, me, rscid, t) && Writes(s.runs, s.threads[t])
  }

  /** A record that is no stop may still be written. */
  ghost predicate Revives(s: State, me: nat, rscid: int) {
    exists t :: Left(s, me, rscid, t) && s.threads[t].task.op != "stop" && Writes(s.runs, s.threads[t])
  }

  /** There is a record, or there may be one. */
  ghost predicate Recordable(s: State, me: nat, rscid: int) {
    rscid in s.table || SomeWrite(s, me, rscid) || CanFire(s, me, rscid, true)
  }

  ghost predicate StopLeft(s: State, me: nat, rscid: int) {
    exists t :: Left(s, me, rscid, t) && s.threads[t].task.op == "stop" && !s.threads[t].pc.Fired?
  }

  ghost predicate GoesOnLeft(s: State, me: nat, rscid: int) {
    exists t :: Left(s, me, rscid, t) && MayGoOn(s.runs, s.threads[t])
  }

  /**
   The leftovers can hide a first success (ok) or a first failure (not ok): a stop that has not closed can
   terminate the record; a callback that finds no stop recorded, or for which the recorded stop can be
   overwritten, runs its agent and then does what its request does; and another run that may repeat can
   give the record a count, which hides a success only.
   */
  ghost predicate Disturbed(s: State, me: nat, rscid: int, ok: bool) {
    (StopLeft(s, me, rscid) && Recordable(s, me, rscid)) ||
    (CanFire(s, me, rscid, ok) && (!Stopped(s.table, rscid) || Revives(s, me, rscid))) ||
    (ok && GoesOnLeft(s, me, rscid))
  }

  /** The record lets a first success, or a first failure, be reported. */
  ghost predicate Fine(past: Past, ok: bool) {
    if ok then Heard(past) else !past.muted
  }

  /** Nothing hides the first result, now or later. */
  ghost predicate Calm(s: State, me: nat, rscid: int, ok: bool) {
    Fine(Recorded(s.table, rscid), ok) && !Disturbed(s, me, rscid, ok)
  }

  // ---- what is calm stays calm

  /** Nothing new: every leftover of s' was one of s, and could write if it can. */
  ghost predicate NoMore(s: State, s': State, me: nat, rscid: int) {
    (forall t :: Left(s', me, rscid, t) ==>
      Left(s, me, rscid, t) && s'.threads[t].task == s.threads[t].task &&
      (s.threads[t].pc.Fired? <==> s'.threads[t].pc.Fired?) &&
      (Enrols(s'.threads[t]) ==> Enrols(s.threads[t])) &&
      (MayGoOn(s'.runs, s'.threads[t]) ==> MayGoOn(s.runs, s.threads[t])))
  }

  ghost predicate NoMoreTimers(s: State, s': State, me: nat, rscid: int) {
    forall m :: LeftTimer(s', me, rscid, m) ==> LeftTimer(s, me, rscid, m) && s'.timers[m] == s.timers[m]
  }

  lemma FewerLeft(s: State, s': State, me: nat, rscid: int)
    requires NoMore(s, s', me, rscid)
    ensures SomeWrite(s', me, rscid) ==> SomeWrite(s, me, rscid)
    ensures Revives(s', me, rscid) ==> Revives(s, me, rscid)
    ensures StopLeft(s', me, rscid) ==> StopLeft(s, me, rscid)
    ensures GoesOnLeft(s', me, rscid) ==> GoesOnLeft(s, me, rscid)
  {
  }

  lemma FewerFire(s: State, s': State, me: nat, rscid: int, all: bool)
    requires NoMore(s, s', me, rscid) && NoMoreTimers(s, s', me, rscid)
    ensures CanFire(s', me, rscid, all) ==> CanFire(s, me, rscid, all)
  {
  }

  /** A step that adds nothing and leaves the record alone. */
  lemma CalmWithFewer(s: State, s': State, me: nat, rscid: int, ok: bool)
    requires Calm(s, me, rscid, ok) && NoMore(s, s', me, rscid) && NoMoreTimers(s, s', me, rscid)
    requires Recorded(s'.table, rscid) == Recorded(s.table, rscid)
    requires Stopped(s'.table, rscid) == Stopped(s.table, rscid)
    requires rscid in s'.table ==> rscid in s.table
    ensures Calm(s', me, rscid, ok)
  {
    FewerLeft(s, s', me, rscid);
    FewerFire(s, s', me, rscid, ok);
    FewerFire(s, s', me, rscid, true);
  }

  lemma NoMoreProcess(s: State, r: nat, act: Act, me: nat, rscid: int)
    requires Tied(s) && Waits(s.threads, s.runs) && Enabled(s, Process(r, act))
    ensures NoMore(s, Processed(s, r, act), me, rscid)
  {
    var s' := Processed(s, r, act);
    forall t | Left(s', me, rscid, t) ensures MayGoOn(s'.runs, s'.threads[t]) ==> MayGoOn(s.runs, s.threads[t]) {
      ProcessWrites(s, r, act, t);
    }
  }

  /** A step of a goroutine that is none of the leftovers. */
  lemma NoMoreElsewhere(s: State, t: nat, late: bool, me: nat, rscid: int)
    requires Tied(s) && Waits(s.threads, s.runs) && CanAdvance(s, t, late) && !Left(s, me, rscid, t)
    ensures NoMore(s, Advanced(s, t, late), me, rscid) && NoMoreTimers(s, Advanced(s, t, late), me, rscid)
  {
    var s' := Advanced(s, t, late);
    forall u | Left(s', me, rscid, u) ensures Left(s, me, rscid, u) && s'.threads[u] == s.threads[u] &&
      MayGoOn(s'.runs, s'.threads[u]) == MayGoOn(s.runs, s.threads[u])
    {
      assert u != t;
      OthersWrite(s, t, late, u);
    }
  }

  /** A step of a leftover goroutine that is past its stop check. */
  lemma NoMoreHere(s: State, t: nat, late: bool, me: nat, rscid: int)
    requires Tied(s) && Waits(s.threads, s.runs) && CanAdvance(s, t, late) && Left(s, me, rscid, t)
    requires !s.threads[t].pc.Fired?
    ensures NoMore(s, Advanced(s, t, late), me, rscid)
  {
    var s' := Advanced(s, t, late);
    forall u | Left(s', me, rscid, u) && u != t
      ensures s'.threads[u] == s.threads[u] && MayGoOn(s'.runs, s'.threads[u]) == MayGoOn(s.runs, s.threads[u])
    {
      OthersWrite(s, t, late, u);
    }
    if t in s'.threads { NoMoreOwn(s, t, late, s'.runs); }
  }

  lemma NoMoreOwn(s: State, t: nat, late: bool, runs: map<nat, Run>)
    requires Tied(s) && Waits(s.threads, s.runs) && CanAdvance(s, t, late) && !s.threads[t].pc.Fired?
    ensures var pc := NextPc(s, t, late);
      pc.Some? ==>
        var th' := s.threads[t].(pc := pc.value);
        !pc.value.Fired? && (Enrols(th') ==> Enrols(s.threads[t])) &&
        (MayGoOn(runs, th') ==> MayGoOn(s.runs, s.threads[t]))
  {
    assert ThreadOk(s.tasks, s.threads[t]);
    if s.threads[t].pc.Waiting? {
      SpentResult(s, t, late);
    }
  }

  /** What a goroutine past its stop check does to the record. */
  lemma RecordHere(s: State, t: nat, late: bool)
    requires Tied(s) && CanAdvance(s, t, late) && !s.threads[t].pc.Fired?
    ensures var th, rscid := s.threads[t], s.threads[t].task.rscid;
      if !Writes(s.runs, th) then
        NextTimers(s, th) == s.timers &&
        ((th.task.op == "stop" ==> rscid !in s.table) ==> NextTable(s.table, th) == s.table)
      else
        Recorded(NextTable(s.table, th), rscid) == Recorded(s.table, rscid) ||
        Recorded(NextTable(s.table, th), rscid) == (if Enrols(th) then Past(0, false) else REPEATING)
    ensures forall m :: m in NextTimers(s, s.threads[t]) ==>
      (m in s.timers && NextTimers(s, s.threads[t])[m] == s.timers[m]) ||
      NextTimers(s, s.threads[t])[m].task == s.threads[t].task
  {
    assert ThreadOk(s.tasks, s.threads[t]);
  }

  /** A leftover that writes a record without disturbing is no stop, and leaves nothing that could be revived. */
  lemma CalmWrite(s: State, t: nat, late: bool, me: nat, rscid: int, ok: bool)
    requires Tied(s) && Waits(s.threads, s.runs) && CanAdvance(s, t, late) && Left(s, me, rscid, t)
    requires !s.threads[t].pc.Fired? && Writes(s.runs, s.threads[t]) && Calm(s, me, rscid, ok)
    ensures Calm(Advanced(s, t, late), me, rscid, ok)
  {
    var s', th := Advanced(s, t, late), s.threads[t];
    assert SomeWrite(s, me, rscid) && Recordable(s, me, rscid);
    assert !StopLeft(s, me, rscid) && th.task.op != "stop";
    assert Revives(s, me, rscid) && !CanFire(s, me, rscid, ok);
    assert ok ==> !MayGoOn(s.runs, th);
    NoMoreHere(s, t, late, me, rscid);
    FewerLeft(s, s', me, rscid);
    RecordHere(s, t, late);
    NothingFires(s, t, late, me, rscid, ok);
  }

  lemma NothingFires(s: State, t: nat, late: bool, me: nat, rscid: int, ok: bool)
    requires Tied(s) && CanAdvance(s, t, late) && !s.threads[t].pc.Fired? && Left(s, me, rscid, t)
    requires !CanFire(s, me, rscid, ok) && NoMore(s, Advanced(s, t, late), me, rscid)
    requires s.threads[t].task.op != "stop" && (ok ==> !MayGoOn(s.runs, s.threads[t]))
    ensures !CanFire(Advanced(s, t, late), me, rscid, ok)
  {
    var s' := Advanced(s, t, late);
    assert ThreadOk(s.tasks, s.threads[t]);
    forall m | LeftTimer(s', me, rscid, m) ensures !ok && s'.timers[m].task.op != "stop" {
      RecordHere(s, t, late);
      if m in s.timers && s'.timers[m] == s.timers[m] {
        assert LeftTimer(s, me, rscid, m);
      }
    }
  }

  /** A leftover past its stop check. */
  lemma CalmHere(s: State, t: nat, late: bool, me: nat, rscid: int, ok: bool)
    requires Tied(s) && Waits(s.threads, s.runs) && CanAdvance(s, t, late) && Left(s, me, rscid, t)
    requires !s.threads[t].pc.Fired? && Calm(s, me, rscid, ok)
    ensures Calm(Advanced(s, t, late), me, rscid, ok)
  {
    if Writes(s.runs, s.threads[t]) {
      CalmWrite(s, t, late, me, rscid, ok);
    } else {
      assert rscid in s.table ==> Recordable(s, me, rscid);
      RecordHere(s, t, late);
      NoMoreHere(s, t, late, me, rscid);
      CalmWithFewer(s, Advanced(s, t, late), me, rscid, ok);
    }
  }

  /** A leftover callback makes its stop check. */
  lemma CalmCallback(s: State, t: nat, late: bool, me: nat, rscid: int, ok: bool)
    requires Tied(s) && Waits(s.threads, s.runs) && CanAdvance(s, t, late) && Left(s, me, rscid, t)
    requires s.threads[t].pc.Fired? && Calm(s, me, rscid, ok)
    ensures Calm(Advanced(s, t, late), me, rscid, ok)
  {
    var s' := Advanced(s, t, late);
    assert CanFire(s, me, rscid, true);
    forall u | Left(s', me, rscid, u) && u != t
      ensures Left(s, me, rscid, u) && s'.threads[u] == s.threads[u] &&
        MayGoOn(s'.runs, s'.threads[u]) == MayGoOn(s.runs, s.threads[u])
    {
      OthersWrite(s, t, late, u);
    }
    if Stopped(s.table, rscid) {
      CalmWithFewer(s, s', me, rscid, ok);
    } else {
      assert !CanFire(s, me, rscid, ok);
      assert !StopLeft(s, me, rscid) && !StopLeft(s', me, rscid);
      assert !CanFire(s', me, rscid, ok);
    }
  }

  lemma FireLeaves(s: State, m: nat, me: nat, rscid: int)
    requires Tied(s) && m in s.timers
    ensures var s' := FiredTimer(s, m);
      (SomeWrite(s', me, rscid) ==> SomeWrite(s, me, rscid)) && (Revives(s', me, rscid) ==> Revives(s, me, rscid)) &&
      (StopLeft(s', me, rscid) ==> StopLeft(s, me, rscid)) && (GoesOnLeft(s', me, rscid) ==> GoesOnLeft(s, me, rscid))
  {
    var s' := FiredTimer(s, m);
    assert forall t :: Left(s', me, rscid, t) ==>
      (Left(s, me, rscid, t) && s'.threads[t] == s.threads[t]) || s'.threads[t].pc.Fired?;
  }

  lemma FireCounts(s: State, m: nat, me: nat, rscid: int, all: bool)
    requires Tied(s) && m in s.timers && CanFire(FiredTimer(s, m), me, rscid, all)
    ensures CanFire(s, me, rscid, all)
  {
    var s' := FiredTimer(s, m);
    if t :| Left(s', me, rscid, t) && s'.threads[t].pc.Fired? && (all || s'.threads[t].task.op == "stop") {
      if t == s.next { assert LeftTimer(s, me, rscid, m); } else { assert Left(s, me, rscid, t); }
    } else {
      var k :| LeftTimer(s', me, rscid, k) && (all || s'.timers[k].task.op == "stop");
      assert LeftTimer(s, me, rscid, k);
    }
  }

  /** A timer fires. */
  lemma CalmFire(s: State, m: nat, me: nat, rscid: int, ok: bool)
    requires Tied(s) && Enabled(s, Fire(m)) && Calm(s, me, rscid, ok)
    ensures Calm(FiredTimer(s, m), me, rscid, ok)
  {
    FireLeaves(s, m, me, rscid);
    if CanFire(FiredTimer(s, m), me, rscid, ok) { FireCounts(s, m, me, rscid, ok); }
    if CanFire(FiredTimer(s, m), me, rscid, true) { FireCounts(s, m, me, rscid, true); }
  }

  lemma CalmDispatch(s: State, me: nat, rscid: int, ok: bool)
    requires Tied(s) && Enabled(s, Dispatch) && Calm(s, me, rscid, ok) && s.requests[0].body.request.rscid != rscid
    ensures Calm(Dispatched(s), me, rscid, ok)
  {
    CalmWithFewer(s, Dispatched(s), me, rscid, ok);
  }

  /** A goroutine that leaves the record alone, or works for another resource. */
  lemma CalmElsewhere(s: State, t: nat, late: bool, me: nat, rscid: int, ok: bool)
    requires Tied(s) && Waits(s.threads, s.runs) && CanAdvance(s, t, late) && !Left(s, me, rscid, t)
    requires Calm(s, me, rscid, ok)
    requires s.threads[t].task.rscid == rscid ==>
      NextTable(s.table, s.threads[t]) == s.table && NextTimers(s, s.threads[t]) == s.timers
    ensures Calm(Advanced(s, t, late), me, rscid, ok)
  {
    NoMoreElsewhere(s, t, late, me, rscid);
    CalmWithFewer(s, Advanced(s, t, late), me, rscid, ok);
  }

  lemma CalmProcess(s: State, r: nat, act: Act, me: nat, rscid: int, ok: bool)
    requires Tied(s) && Waits(s.threads, s.runs) && Enabled(s, Process(r, act)) && Calm(s, me, rscid, ok)
    ensures Calm(Processed(s, r, act), me, rscid, ok)
  {
    NoMoreProcess(s, r, act, me, rscid);
    CalmWithFewer(s, Processed(s, r, act), me, rscid, ok);
  }
}
