/** Which results the resource manager reports (rmanager/rman.go, waitChildFunc), whatever the operation. */
module Reporting {
  import opened Messages
  import opened Records
  import opened Engine
  import opened EngineInvariants
  import opened EngineAccounts
  import opened EngineTheorems

  /** A recurring monitor has succeeded, and its resource had succeeded in a recurring operation before. */
  ghost predicate RepeatedSuccess(task: Task, res: Execrsc) {
    task.op == "monitor" && task.interval > 0 && res.ret == CL_OK && res.count > 0
  }

  /** The post is the report of a stop of the resource. */
  ghost predicate IsStopReport(tasks: seq<Task>, o: Outcome, rscid: int) {
    o.chain < |tasks| && tasks[o.chain].op == "stop" && tasks[o.chain].rscid == rscid
  }

  /** A stop of the resource has been reported. */
  ghost predicate StopReported(tasks: seq<Task>, posts: seq<Outcome>, rscid: int) {
    exists o :: o in posts && IsStopReport(tasks, o, rscid)
  }

  ghost predicate PastJudgement(pc: Pc) {
    pc.Rearm? || pc.Arming? || pc.Armed? || pc.Closing?
  }

  /** Only a stop that has been reported, or one after it, terminates a record. */
  ghost predicate Terminates(s: State) {
    (forall rscid :: Terminated(s.table, rscid) ==> StopReported(s.tasks, s.posts, rscid)) &&
    (forall t :: t in s.threads && PastJudgement(s.threads[t].pc) && s.threads[t].task.op == "stop" ==>
      StopReported(s.tasks, s.posts, s.threads[t].task.rscid))
  }

  ghost predicate Sends(s: State) {
    (forall t :: t in s.threads && s.threads[t].pc.Posting? && !s.threads[t].pc.late ==>
      !RepeatedSuccess(s.threads[t].task, s.threads[t].pc.res)) &&
    (forall o :: o in s.posts && !o.late ==> o.chain < |s.tasks| && !RepeatedSuccess(s.tasks[o.chain], o.res)) &&
    (forall o :: o in s.drops ==>
      !o.late && o.chain < |s.tasks| &&
      (RepeatedSuccess(s.tasks[o.chain], o.res) || StopReported(s.tasks, s.posts, s.tasks[o.chain].rscid)))
  }

  lemma StopStaysReported(s: State, e: Event, rscid: int)
    requires Enabled(s, e) && StopReported(s.tasks, s.posts, rscid)
    ensures StopReported(Apply(s, e).tasks, Apply(s, e).posts, rscid)
  {
    var o :| o in s.posts && IsStopReport(s.tasks, o, rscid);
    assert o in Apply(s, e).posts && IsStopReport(Apply(s, e).tasks, o, rscid);
  }

  lemma TerminatesPost(s: State, t: nat, late: bool)
    requires Tied(s) && CanAdvance(s, t, late) && s.threads[t].pc.Posting? && s.threads[t].task.op == "stop"
    ensures StopReported(s.tasks, Advanced(s, t, late).posts, s.threads[t].task.rscid)
  {
    var s' := Advanced(s, t, late);
    assert ThreadOk(s.tasks, s.threads[t]);
    assert s'.posts[|s.posts|] in s'.posts && IsStopReport(s.tasks, s'.posts[|s.posts|], s.threads[t].task.rscid);
  }

  /** What the goroutine itself does. */
  lemma TerminatesOwn(s: State, t: nat, late: bool)
    requires Tied(s) && Terminates(s) && CanAdvance(s, t, late) && s.threads[t].task.op == "stop"
    ensures t in Advanced(s, t, late).threads && PastJudgement(Advanced(s, t, late).threads[t].pc) ==>
      StopReported(s.tasks, Advanced(s, t, late).posts, s.threads[t].task.rscid)
  {
    assert ThreadOk(s.tasks, s.threads[t]);
    if s.threads[t].pc.Posting? { TerminatesPost(s, t, late); }
  }

  lemma TerminatesTable(s: State, e: Event, rscid: int)
    requires Tied(s) && Terminates(s) && Enabled(s, e) && Terminated(Apply(s, e).table, rscid)
    ensures StopReported(s.tasks, s.posts, rscid)
  {
  }

  lemma TerminatesStep(s: State, e: Event)
    requires Tied(s) && Terminates(s) && Enabled(s, e)
    ensures Terminates(Apply(s, e))
  {
    var s' := Apply(s, e);
    forall rscid | Terminated(s'.table, rscid) ensures StopReported(s'.tasks, s'.posts, rscid) {
      TerminatesTable(s, e, rscid);
      StopStaysReported(s, e, rscid);
    }
    forall t | t in s'.threads && PastJudgement(s'.threads[t].pc) && s'.threads[t].task.op == "stop"
      ensures StopReported(s'.tasks, s'.posts, s'.threads[t].task.rscid)
    {
      if e.Advance? && e.thread == t {
        TerminatesOwn(s, t, e.late);
      } else {
        StopStaysReported(s, e, s.threads[t].task.rscid);
      }
    }
  }

  lemma SendsAdvance(s: State, t: nat, late: bool)
    requires Tied(s) && Terminates(s) && Sends(s) && CanAdvance(s, t, late)
    requires forall rscid :: StopReported(s.tasks, s.posts, rscid) ==>
      StopReported(s.tasks, Advanced(s, t, late).posts, rscid)
    ensures Sends(Advanced(s, t, late))
  {
    assert ThreadOk(s.tasks, s.threads[t]);
  }

  lemma SendsStep(s: State, e: Event)
    requires Tied(s) && Terminates(s) && Sends(s) && Enabled(s, e)
    ensures Sends(Apply(s, e))
  {
    forall rscid | StopReported(s.tasks, s.posts, rscid)
      ensures StopReported(Apply(s, e).tasks, Apply(s, e).posts, rscid)
    {
      StopStaysReported(s, e, rscid);
    }
    if e.Advance? { SendsAdvance(s, e.thread, e.late); }
  }

  lemma {:induction false} SendsRun(s: State, es: seq<Event>)
    requires Inv(s) && Terminates(s) && Sends(s) && Runs(s, es)
    ensures Sends(After(s, es))
    decreases es
  {
    if es != [] {
      TerminatesStep(s, es[0]);
      SendsStep(s, es[0]);
      InvStep(s, es[0]);
      SendsRun(Apply(s, es[0]), es[1..]);
    }
  }

  lemma ReachableSends(s: State)
    requires Reachable(s)
    ensures Inv(s) && Sends(s)
  {
    ReachableInv(s);
    var es :| Runs(INIT, es) && After(INIT, es) == s;
    InvInit();
    SendsRun(INIT, es);
  }

  /**
   A result that has been judged: a timeout is always reported, a repeated success of a recurring monitor never
   is, and while no stop of the resource has been reported anything else is.
   */
  lemma ReportedExactlyUnlessRepeated(s: State, o: Outcome)
    requires Reachable(s) && o in s.takes && o !in Undecided(s.threads)
    ensures o.chain < |s.tasks| && (o in s.posts <==> o !in s.drops)
    ensures o.late ==> o in s.posts
    ensures !o.late && RepeatedSuccess(s.tasks[o.chain], o.res) ==> o !in s.posts
    ensures !StopReported(s.tasks, s.posts, s.tasks[o.chain].rscid) ==>
      (o in s.posts <==> o.late || !RepeatedSuccess(s.tasks[o.chain], o.res))
  {
    ReachableSends(s);
    ExactlyOneAnswer(s);
    assert OutcomeOk(s.tasks, o);
    assert multiset(s.posts)[o] + multiset(s.drops)[o] + multiset(Undecided(s.threads))[o] == 1;
    assert multiset(Undecided(s.threads))[o] == 0;
    assert o in s.posts <==> multiset(s.posts)[o] > 0;
    assert o in s.drops <==> multiset(s.drops)[o] > 0;
  }
}
