/**
 When the resource manager's dispatcher is taken (rmanager/rman.go, ExecRscOp): the first run of an asynchronous
 request keeps it until its agent is spawned, that of a synchronous one until it is over, and no repetition does.
 */
module Occupation {
  import opened Options
  import opened Engine
  import opened EngineInvariants
  import opened EngineAccounts
  import opened EngineTheorems

  ghost predicate Occupies(th: Thread) {
    th.rep == 0 && (!th.task.async || th.pc.Enter? || th.pc.Enrol? || th.pc.Sleep?)
  }

  ghost predicate Occupied(s: State) {
    (forall t :: t in s.threads ==> (s.busy == Some(t) <==> Occupies(s.threads[t]))) &&
    (forall t :: t in s.threads && s.threads[t].pc.Fired? ==> s.threads[t].rep > 0) &&
    (forall m :: m in s.timers ==> s.timers[m].rep > 0)
  }

  lemma OccupiedAdvance(s: State, t: nat, late: bool)
    requires Occupied(s) && CanAdvance(s, t, late)
    ensures Occupied(Advanced(s, t, late))
  {
    var s' := Advanced(s, t, late);
    assert forall u :: u in s'.threads && u != t ==> s'.threads[u] == s.threads[u];
  }

  lemma OccupiedStep(s: State, e: Event)
    requires Tied(s) && Sane(s) && Occupied(s) && Enabled(s, e)
    ensures Occupied(Apply(s, e))
  {
    match e
    case Advance(t, late) => OccupiedAdvance(s, t, late);
    case _ =>
  }

  lemma {:induction false} OccupiedRun(s: State, es: seq<Event>)
    requires Inv(s) && Occupied(s) && Runs(s, es)
    ensures Occupied(After(s, es))
    decreases es
  {
    if es != [] {
      OccupiedStep(s, es[0]);
      InvStep(s, es[0]);
      OccupiedRun(Apply(s, es[0]), es[1..]);
    }
  }

  /**
   The dispatcher is inside exactly the goroutine that is in the first run of a request, if that is synchronous
   or its agent is not spawned yet; so there is one at most, and none while it polls.
   */
  lemma DispatcherIsInsideTheFirstRun(s: State)
    requires Reachable(s)
    ensures forall t :: t in s.threads ==> (s.busy == Some(t) <==> Occupies(s.threads[t]))
    ensures s.busy.Some? ==> s.busy.value in s.threads
    ensures forall t, u ::
      t in s.threads && u in s.threads && Occupies(s.threads[t]) && Occupies(s.threads[u]) ==> t == u
  {
    ReachableInv(s);
    var es :| Runs(INIT, es) && After(INIT, es) == s;
    InvInit();
    OccupiedRun(INIT, es);
  }
}
