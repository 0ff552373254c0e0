/**
 The system does not stop short: the reply of a blocked SendRecv is always on its way, and until OPERATIONAL
 is handled some move can be made unless the engine owes a report.
 */
module Liveness {
  import opened Messages
  import opened Options
  import opened Records
  import opened System
  import opened SystemInvariants
  import opened SystemTheorems
  import opened Progress
  import Engine
  import Mux
  import EngineInvariants
  import EngineAccounts
  import MonitorReports
  import Service
  import MuxInvariants
  import MuxTheorems

  // ---- the reply of a blocked SendRecv is on its way

  ghost predicate HasReport(reports: seq<Execrsc>, n: nat) {
    exists i :: 0 <= i < |reports| && reports[i].seqno == n
  }

  ghost predicate HasNumber(ms: seq<Message>, n: nat) {
    exists i :: 0 <= i < |ms| && ms[i].head.seqno == n
  }

  /** Request n has not been dispatched, not been reported, or its report is in rscOp_ch. */
  ghost predicate WithEngine(s: Engine.State, n: nat) {
    n > 0 && (|s.tasks| < n || Service.Posted(s, n - 1) == 0 || HasReport(s.reports, n))
  }

  ghost predicate WithMux(m: Mux.State, n: nat) {
    HasNumber(m.rcv_read_ch, n) || MuxInvariants.HandingTo(m.loop, n)
  }

  ghost predicate Waiting(m: Mux.State, ctl: Ctl) {
    ctl.Blocked? && MuxInvariants.InPhaseSent(m.calls, ctl.call)
  }

  ghost predicate OnItsWay(g: State) {
    Waiting(g.mux, g.ctl) && g.lost == 0 ==>
      WithEngine(g.engine, g.ctl.call) || HasNumber(g.toClient, g.ctl.call) || WithMux(g.mux, g.ctl.call)
  }

  lemma EnginePosts(s: Engine.State, t: nat, late: bool, n: nat)
    requires Engine.CanAdvance(s, t, late) && WithEngine(s, n)
    requires EngineInvariants.ThreadsOk(s.tasks, s.next, s.threads)
    requires forall i :: 0 <= i < |s.tasks| ==> s.tasks[i].seqno == i + 1
    ensures WithEngine(Engine.Advanced(s, t, late), n)
  {
    var s' := Engine.Advanced(s, t, late);
    var th := s.threads[t];
    if th.pc.Posting? {
      assert EngineInvariants.ThreadOk(s.tasks, th);
      assert s'.reports[|s.reports|].seqno == th.chain + 1;
      if th.chain != n - 1 {
        MonitorReports.ForeignLogs(s, t, late, n - 1);
        if HasReport(s.reports, n) {
          var i :| 0 <= i < |s.reports| && s.reports[i].seqno == n;
          assert s'.reports[i].seqno == n;
        }
      }
    }
  }

  lemma EngineKeeps(s: Engine.State, w: Engine.Event, n: nat)
    requires Engine.Enabled(s, w) && WithEngine(s, n) && !w.Answer?
    requires EngineInvariants.ThreadsOk(s.tasks, s.next, s.threads)
    requires forall i :: 0 <= i < |s.tasks| ==> s.tasks[i].seqno == i + 1
    requires Service.Posted(s, |s.tasks|) == 0
    ensures WithEngine(Engine.Apply(s, w), n)
  {
    if w.Advance? {
      EnginePosts(s, w.thread, w.late, n);
    }
  }

  /** Answering moves the report to the socket, unless the reply is lost. */
  lemma EngineAnswers(g: State, ok: bool, n: nat)
    requires Enabled(g, Reply(ok)) && WithEngine(g.engine, n) && g.known && ok
    ensures WithEngine(NextEngine(g, Reply(ok)), n) || HasNumber(NextToClient(g, Reply(ok)), n)
  {
    var s, s' := g.engine, NextEngine(g, Reply(ok));
    var to := NextToClient(g, Reply(ok));
    assert to[|g.toClient|].head.seqno == s.reports[0].seqno;
    if i :| 0 <= i < |s.reports| && s.reports[i].seqno == n {
      if i > 0 { assert s'.reports[i - 1].seqno == n; }
    }
  }

  /** The reply of a blocked call that the loop reads is handed to it. */
  lemma LoopKeeps(m: Mux.State, n: nat)
    requires MuxInvariants.Inv(m) && Mux.Enabled(m, Mux.LoopRecv) && MuxInvariants.InPhaseSent(m.calls, n)
    requires WithMux(m, n)
    requires forall c :: c in m.calls ==> m.calls[c].seqno == c
    requires n > 0
    ensures WithMux(Mux.Routed(m), n)
  {
    var m' := Mux.Routed(m);
    if m.rcv_read_ch[0].head.seqno == n {
      assert Mux.Causal(m, m.rcv_read_ch[0]);
      MuxTheorems.RegisteredWhenDelivered(m, n);
    } else if i :| 0 <= i < |m.rcv_read_ch| && m.rcv_read_ch[i].head.seqno == n {
      assert m'.rcv_read_ch[i - 1].head.seqno == n;
    }
  }

  lemma MuxKeeps(m: Mux.State, e: Mux.Event, n: nat)
    requires Mux.Enabled(m, e) && WithMux(m, n) && !e.LoopRecv?
    requires !(e.HandOver? && MuxInvariants.HandingTo(m.loop, n))
    ensures WithMux(Mux.Apply(m, e), n)
  {
    if i :| 0 <= i < |m.rcv_read_ch| && m.rcv_read_ch[i].head.seqno == n {
      assert Mux.Apply(m, e).rcv_read_ch[i].head.seqno == n;
    }
  }

  lemma ClientKeeps(g: State, e: Event, n: nat)
    requires Enabled(g, e) && HasNumber(g.toClient, n)
    ensures HasNumber(NextToClient(g, e), n) || WithMux(NextMux(g, e), n)
  {
    var i :| 0 <= i < |g.toClient| && g.toClient[i].head.seqno == n;
    if e.ReceiverRead? {
      if i == 0 {
        assert NextMux(g, e).rcv_read_ch[|g.mux.rcv_read_ch|].head.seqno == n;
      } else {
        assert NextToClient(g, e)[i - 1].head.seqno == n;
      }
    } else {
      assert NextToClient(g, e)[i].head.seqno == n;
    }
  }

  /** A call that waits after the step and waited before it is the same call. */
  lemma StillWaiting(g: State, e: Event)
    requires Enabled(g, e) && CallsOk(g.mux, g.ctl, g.step) && Waiting(NextMux(g, e), NextCtl(g, e)) && !e.Call?
    ensures Waiting(g.mux, g.ctl) && NextCtl(g, e) == g.ctl
    ensures !(e == Loop(Mux.HandOver) && MuxInvariants.HandingTo(g.mux.loop, g.ctl.call))
  {
  }

  lemma TaskNumbers(tasks: seq<Engine.Task>, sent: seq<Message>)
    requires TasksOk(tasks, sent)
    ensures forall i :: 0 <= i < |tasks| ==> tasks[i].seqno == i + 1
  {
  }

  lemma NothingPostedYet(s: Engine.State)
    requires EngineAccounts.Logged(s) && EngineAccounts.Balanced(s)
    ensures Service.Posted(s, |s.tasks|) == 0
  {
    MonitorReports.NothingYet(s);
  }

  lemma EnginePlace(g: State, e: Event, n: nat)
    requires Enabled(g, e) && WithEngine(g.engine, n) && !Loses(g, e)
    requires EngineInvariants.ThreadsOk(g.engine.tasks, g.engine.next, g.engine.threads)
    requires forall i :: 0 <= i < |g.engine.tasks| ==> g.engine.tasks[i].seqno == i + 1
    requires Service.Posted(g.engine, |g.engine.tasks|) == 0
    ensures WithEngine(NextEngine(g, e), n) || HasNumber(NextToClient(g, e), n)
  {
    var w := EngineEvent(g, e);
    if e.Reply? {
      EngineAnswers(g, e.ok, n);
    } else if w.Some? {
      EngineKeeps(g.engine, w.value, n);
    }
  }

  lemma MuxPlace(g: State, e: Event, n: nat)
    requires Enabled(g, e) && WithMux(g.mux, n) && MuxInvariants.Inv(g.mux) && n > 0
    requires MuxInvariants.InPhaseSent(g.mux.calls, n) && forall c :: c in g.mux.calls ==> g.mux.calls[c].seqno == c
    requires !(e == Loop(Mux.HandOver) && MuxInvariants.HandingTo(g.mux.loop, n))
    ensures WithMux(NextMux(g, e), n)
  {
    var m := MuxEvent(g, e);
    if m.Some? {
      if m.value.LoopRecv? { LoopKeeps(g.mux, n); } else { MuxKeeps(g.mux, m.value, n); }
    }
  }

  lemma OnItsWayCall(g: State)
    requires Enabled(g, Call) && CallsOk(g.mux, g.ctl, g.step) && CountsOk(g) && |g.engine.tasks| <= |g.sent|
    ensures WithEngine(g.engine, g.ctl.call)
  {
  }

  lemma OnItsWayStep(g: State, e: Event)
    requires Inv(g) && OnItsWay(g) && Enabled(g, e)
    ensures OnItsWay(Apply(g, e))
  {
    var lost' := if Loses(g, e) then g.lost + 1 else g.lost;
    if Waiting(NextMux(g, e), NextCtl(g, e)) && lost' == 0 {
      if e.Call? {
        OnItsWayCall(g);
      } else {
        StillWaiting(g, e);
        var n := g.ctl.call;
        TaskNumbers(g.engine.tasks, g.sent);
        NothingPostedYet(g.engine);
        if WithEngine(g.engine, n) {
          EnginePlace(g, e, n);
        } else if HasNumber(g.toClient, n) {
          ClientKeeps(g, e, n);
        } else {
          MuxPlace(g, e, n);
        }
      }
    }
  }

  lemma {:induction false} OnItsWayRun(g: State, es: seq<Event>)
    requires Inv(g) && OnItsWay(g) && Runs(g, es)
    ensures OnItsWay(After(g, es))
    decreases es
  {
    if es != [] {
      InvStep(g, es[0]);
      OnItsWayStep(g, es[0]);
      OnItsWayRun(Apply(g, es[0]), es[1..]);
    }
  }

  // ---- something can always be done

  /** The resource manager's dispatcher is inside a request, or a dispatched request has no report yet. */
  ghost predicate EngineOwes(s: Engine.State) {
    s.busy.Some? || Unreported(s, |s.tasks|) > 0
  }

  ghost predicate Possible(g: State, e: Event) {
    Move(g, e) && Enabled(g, e)
  }

  lemma MuxMoves(g: State) returns (e: Event)
    requires Short(g) && MuxInvariants.HandOk(g.mux.calls, g.mux.loop)
    requires g.mux.loop != Mux.Idle || g.mux.call_send_ch != [] || g.mux.rcv_read_ch != [] || g.mux.snd_write_ch != []
    ensures Possible(g, e) && (e.Serve? || e.Reply? ==> e.ok)
  {
    MultiplexerSends(g);
    match g.mux.loop
    case Writing(_) => e := Loop(Mux.LoopWrite);
    case Handing(_, _) => e := Loop(Mux.HandOver);
    case Queuing(_) => e := Loop(Mux.LoopQueue);
    case Idle =>
      e := if g.mux.call_send_ch != [] then Loop(Mux.LoopSend)
           else if g.mux.rcv_read_ch != [] then Loop(Mux.LoopRecv)
           else SenderWrite;
  }

  lemma {:induction false} UnreportedHas(s: Engine.State, k: nat, n: nat)
    requires k < n && Service.Posted(s, k) == 0
    ensures Unreported(s, n) > 0
  {
    if k < n - 1 {
      UnreportedHas(s, k, n - 1);
    }
  }

  /** Nothing is in the multiplexer, on the sockets or in the engine's channels. */
  ghost predicate Drained(g: State) {
    g.mux.loop == Mux.Idle && g.mux.call_send_ch == [] && g.mux.rcv_read_ch == [] && g.mux.snd_write_ch == [] &&
    g.toClient == [] && g.toServer == [] && TakenIn(g.engine) == [] && g.engine.reports == []
  }

  lemma ServerMoves(g: State) returns (e: Event)
    requires Short(g) && Flow(g) && CallsOk(g.mux, g.ctl, g.step) && CountsOk(g) && AllOk(g.engine.tasks, g.toClient)
    requires g.engine.busy == None
    requires g.toClient != [] || g.toServer != [] || TakenIn(g.engine) != [] || g.engine.reports != []
    ensures Possible(g, e) && (e.Serve? || e.Reply? ==> e.ok)
  {
    ReceiverSends(g);
    EngineTakesIn(g);
    if Engine.Free(g.engine) { EngineServes(g); }
    e := if g.toClient != [] then ReceiverRead
         else if g.engine.held.Some? then Work(Engine.Put)
         else if g.toServer != [] then Serve(true)
         else if g.engine.requests != [] then Work(Engine.Dispatch)
         else Reply(true);
  }

  /** With everything drained, a blocked SendRecv waits for a report the engine owes. */
  lemma BlockedMeansOwed(g: State)
    requires Drained(g) && Waiting(g.mux, g.ctl) && OnItsWay(g) && g.lost == 0
    requires Flow(g) && CallsOk(g.mux, g.ctl, g.step) && CountsOk(g)
    ensures EngineOwes(g.engine)
  {
    var n := g.ctl.call;
    var out := Outbound(g.toServer, g.mux);
    assert out == [];
    assert TakenIn(g.engine) + Controls(out) == [];
    assert |g.sent[|g.engine.tasks|..]| == 0;
    UnreportedHas(g.engine, n - 1, |g.engine.tasks|);
  }

  lemma ControllerMoves(g: State) returns (e: Event)
    requires Short(g) && CallsOk(g.mux, g.ctl, g.step) && !Waiting(g.mux, g.ctl)
    requires g.ctl != Polling || g.starting || g.status_ch != [] || g.mux.ipcrecv_ch != []
    ensures Possible(g, e) && (e.Serve? || e.Reply? ==> e.ok)
  {
    ControllerSends(g);
    if g.starting {
      e := Main;
    } else {
      match g.ctl
      case Greeting => e := Greet;
      case Calling(_, _) => e := Call;
      case Posting(_) => e := Post;
      case Blocked(_) => e := Return;
      case Polling =>
        HandlersRun(g);
        e := if g.status_ch != [] then TakeStatus else TakeMessage;
    }
  }

  lemma SomeMove(g: State) returns (e: Event)
    requires Inv(g) && OnItsWay(g) && g.ops == 0 && g.lost == 0 && !EngineOwes(g.engine)
    ensures Possible(g, e) && (e.Serve? || e.Reply? ==> e.ok)
  {
    QueuesStayShort(g);
    EngineTokens(g.engine);
    if g.mux.loop != Mux.Idle || g.mux.call_send_ch != [] || g.mux.rcv_read_ch != [] || g.mux.snd_write_ch != [] {
      e := MuxMoves(g);
    } else if !Drained(g) {
      e := ServerMoves(g);
    } else {
      if Waiting(g.mux, g.ctl) {
        BlockedMeansOwed(g);
      }
      e := ControllerMoves(g);
    }
  }

  lemma ReachableOnItsWay(g: State)
    requires Reachable(g)
    ensures OnItsWay(g)
  {
    var es :| Runs(INIT, es) && After(INIT, es) == g;
    assert OnItsWay(INIT);
    InvInit();
    OnItsWayRun(INIT, es);
  }

  /**
   No deadlock: until OPERATIONAL has been handled, and unless a reply was lost, some move can be made -
   or it is the engine's turn.  Attainment takes the engine's turn, too.
   */
  lemma NoDeadlock(g: State)
    requires Reachable(g) && g.ops == 0 && g.lost == 0
    ensures EngineOwes(g.engine) || exists e :: Possible(g, e)
  {
    if !EngineOwes(g.engine) {
      ReachableInv(g);
      ReachableOnItsWay(g);
      var e := SomeMove(g);
    }
  }
}
