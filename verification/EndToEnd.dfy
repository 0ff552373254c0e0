/**
 The theorems about the multiplexer and the engine hold inside the composed system, and together they tell
 where every answer goes: from the request through launch, repetition and socket back to its caller.
 */
module EndToEnd {
  import opened Messages
  import opened Options
  import opened System
  import opened SystemInvariants
  import opened SystemTheorems
  import Engine
  import Mux
  import EngineTheorems
  import Driving
  import MuxTheorems

  // ---- the components make runs of their own

  /** What the components do is a run of theirs, and an orderly one of the multiplexer. */
  ghost predicate Runnable(g: State) {
    MuxTheorems.ReachableInOrder(g.mux) && EngineTheorems.Reachable(g.engine)
  }

  lemma RunnableStep(g: State, e: Event)
    requires Inv(g) && Runnable(g) && Enabled(g, e)
    ensures Runnable(Apply(g, e))
  {
    var m, w := MuxEvent(g, e), EngineEvent(g, e);
    if m.Some? {
      MuxIsOrderly(g, e);
      MuxTheorems.InOrderNext(g.mux, m.value);
    }
    if w.Some? {
      var s' := Driving.Reach(g.engine, w.value);
    }
  }

  lemma {:induction false} RunnableRun(g: State, es: seq<Event>)
    requires Inv(g) && Runnable(g) && Runs(g, es)
    ensures Runnable(After(g, es))
    decreases es
  {
    if es != [] {
      RunnableStep(g, es[0]);
      InvStep(g, es[0]);
      RunnableRun(Apply(g, es[0]), es[1..]);
    }
  }

  lemma RunnableInit()
    ensures Runnable(INIT)
  {
    assert Mux.Runs(Mux.INIT, []) && Mux.AllOrderly(Mux.INIT, []) && Mux.After(Mux.INIT, []) == Mux.INIT;
    assert Engine.Runs(Engine.INIT, []) && Engine.After(Engine.INIT, []) == Engine.INIT;
  }

  lemma ReachableRunnable(g: State)
    requires Reachable(g)
    ensures Runnable(g)
  {
    var es :| Runs(INIT, es) && After(INIT, es) == g;
    RunnableInit();
    InvInit();
    RunnableRun(INIT, es);
  }

  /** All that is proved of the two alone is true of them here. */
  lemma ComponentsAreReachable(g: State)
    requires Reachable(g)
    ensures MuxTheorems.ReachableInOrder(g.mux) && MuxTheorems.Reachable(g.mux) && EngineTheorems.Reachable(g.engine)
  {
    ReachableRunnable(g);
    MuxTheorems.InOrderIsReachable(g.mux);
  }

  // ---- where an answer goes

  /** The answer to request n: numbered, and about its resource, operation and agent. */
  lemma RepliesAnswerRequests(g: State, i: nat)
    requires Reachable(g) && i < |g.engine.replies|
    ensures var n := g.engine.replies[i].head.seqno; 1 <= n <= |g.sent| && Answers(g.engine.replies[i], g.sent[n - 1])
  {
    MessagesAreOk(g);
    ComponentsAreReachable(g);
    ReplyAnswers(g, i);
  }

  lemma ReplyAnswers(g: State, i: nat)
    requires Flow(g) && EngineTheorems.Reachable(g.engine) && i < |g.engine.replies|
    ensures var n := g.engine.replies[i].head.seqno; 1 <= n <= |g.sent| && Answers(g.engine.replies[i], g.sent[n - 1])
  {
    EngineTheorems.ReplyCarriesItsNumber(g.engine, i);
    var chain := g.engine.posts[i].chain;
    assert g.engine.tasks[chain] == Engine.TaskOf(RequestOf(chain + 1, chain + 1));
    assert g.sent[chain] == RequestOf(chain + 1, chain + 1);
  }

  /**
   The multiplexer takes a message: a hello reply is queued.  Any other one answers one of the requests sent;
   it wakes the caller of that request if the caller still waits, and is queued if the request has been
   answered before - as a monitor's later failure is.
   */
  lemma AnswersFindTheirCallers(g: State)
    requires Reachable(g) && Enabled(g, Loop(Mux.LoopRecv))
    ensures var m, d := g.mux.rcv_read_ch[0], Mux.Routed(g.mux).incoming[|g.mux.incoming|]; var n := m.head.seqno;
      d.msg == m &&
      (n == 0 ==> d.to == None && m.head.types == MESSAGE_ID_HELLO) &&
      (n != 0 ==>
        n <= |g.sent| && Answers(m, g.sent[n - 1]) && n in g.mux.calls &&
        d.to == (if g.mux.calls[n].phase == Mux.Sent then Some(n) else None) &&
        (n <= |g.answered| ==> d.to == None))
  {
    MessagesAreOk(g);
    ReachableRunnable(g);
    RoutedTo(g.mux, g.ctl, g.step);
    var m := g.mux.rcv_read_ch[0];
    assert MsgOk(g.engine.tasks, m);
    if m.head.seqno != 0 {
      MessageAnswers(g, m);
    }
  }

  lemma MessagesAreOk(g: State)
    requires Reachable(g)
    ensures Flow(g) && AllOk(g.engine.tasks, g.mux.rcv_read_ch) && CallsOk(g.mux, g.ctl, g.step) && CountsOk(g)
  {
    ReachableInv(g);
  }

  lemma RoutedTo(m: Mux.State, ctl: Ctl, step: nat)
    requires MuxTheorems.ReachableInOrder(m) && Mux.Enabled(m, Mux.LoopRecv) && CallsOk(m, ctl, step)
    ensures var d := Mux.Routed(m).incoming[|m.incoming|]; var n := m.rcv_read_ch[0].head.seqno;
      d.msg == m.rcv_read_ch[0] && (n == 0 ==> d.to == None) &&
      (n != 0 ==>
        n in m.calls && d.to == (if m.calls[n].phase == Mux.Sent then Some(n) else None) && (n < step ==> d.to == None))
  {
    var c := MuxTheorems.RepliesAreRouted(m);
  }

  lemma MessageAnswers(g: State, m: Message)
    requires Flow(g) && MsgOk(g.engine.tasks, m) && m.head.seqno != 0
    ensures m.head.seqno <= |g.sent| && Answers(m, g.sent[m.head.seqno - 1])
  {
    var n := m.head.seqno;
    assert g.engine.tasks[n - 1] == Engine.TaskOf(RequestOf(n, n));
    assert g.sent[n - 1] == RequestOf(n, n);
  }

  // ---- each caller is woken once

  /** What SendRecv has passed on is what woke it. */
  ghost predicate PassedOn(g: State) {
    forall k :: 0 <= k < |g.answered| ==> Mux.Delivery(g.answered[k], Some(k + 1)) in g.mux.placed
  }

  lemma PassedOnStep(g: State, e: Event)
    requires Enabled(g, e) && PassedOn(g) && CallsOk(g.mux, g.ctl, g.step) && CountsOk(g)
    ensures PassedOn(Apply(g, e))
  {
    var g' := Apply(g, e);
    assert g.mux.placed <= g'.mux.placed;
    forall k | 0 <= k < |g'.answered| ensures Mux.Delivery(g'.answered[k], Some(k + 1)) in g'.mux.placed {
      if k < |g.answered| {
        assert Mux.Delivery(g.answered[k], Some(k + 1)) in g.mux.placed;
      } else {
        assert g'.mux.placed[|g.mux.placed|] == Mux.Delivery(g'.answered[k], Some(k + 1));
      }
    }
  }

  lemma {:induction false} PassedOnRun(g: State, es: seq<Event>)
    requires Inv(g) && PassedOn(g) && Runs(g, es)
    ensures PassedOn(After(g, es))
    decreases es
  {
    if es != [] {
      PassedOnStep(g, es[0]);
      InvStep(g, es[0]);
      PassedOnRun(Apply(g, es[0]), es[1..]);
    }
  }

  /** Message i was read for the caller of request n. */
  ghost predicate Wakes(g: State, i: int, n: int) {
    0 <= i < |g.mux.incoming| && g.mux.incoming[i].to == Some(n)
  }

  lemma ReachablePassedOn(g: State)
    requires Reachable(g)
    ensures PassedOn(g)
  {
    var es :| Runs(INIT, es) && After(INIT, es) == g;
    assert PassedOn(INIT);
    InvInit();
    PassedOnRun(INIT, es);
  }

  /**
   Every request the controller got an answer to was answered by exactly one of the messages read: the one
   that woke its caller, the answer to that very request.
   */
  lemma EachCallerIsWokenOnce(g: State, n: nat) returns (i: nat)
    requires Reachable(g) && 1 <= n <= |g.answered|
    ensures n <= |g.sent| && Answers(g.answered[n - 1], g.sent[n - 1])
    ensures Wakes(g, i, n) && g.mux.incoming[i].msg == g.answered[n - 1]
    ensures forall j :: Wakes(g, j, n) ==> j == i
  {
    ReachablePassedOn(g);
    ComponentsAreReachable(g);
    RequestsAreSequenced(g);
    i := Read(g.mux, Mux.Delivery(g.answered[n - 1], Some(n)));
    forall j | Wakes(g, j, n) ensures j == i {
      MuxTheorems.WokenOnceByItsOwnReply(g.mux, i, j);
    }
  }

  lemma Read(m: Mux.State, d: Mux.Delivery) returns (i: nat)
    requires MuxTheorems.Reachable(m) && d in m.placed
    ensures i < |m.incoming| && m.incoming[i] == d
  {
    MuxTheorems.NothingIsLost(m);
    assert d in multiset(m.placed) && d in multiset(m.incoming);
    i :| i < |m.incoming| && m.incoming[i] == d;
  }
}
