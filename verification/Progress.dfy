/**
 How far the system is from rest.  Once the node id is known, every step of the controller, the multiplexer
 and the sockets, and every dispatch and report of the engine, uses up some of a bounded amount of work.
 */
module Progress {
  import opened System
  import opened SystemInvariants
  import opened SystemTheorems
  import Engine
  import Mux
  import Service
  import MuxInvariants

  // ---- the measure

  ghost function StatusRank(v: int): nat {
    if v == STARTUP then 31 else if v == CONTROL_RESOURCE then 14 else 1
  }

  ghost function StatusRanks(vs: seq<int>): nat {
    if vs == [] then 0 else StatusRank(vs[0]) + StatusRanks(vs[1..])
  }

  ghost function CtlRank(ctl: Ctl): nat {
    match ctl
    case Greeting => 30
    case Calling(_, _) => 29
    case Posting(v) => StatusRank(v) + 1
    case _ => 0
  }

  ghost function LoopRank(loop: Mux.Loop): nat {
    if loop.Writing? then 27 else if loop == Mux.Idle then 0 else 18
  }

  /** The calls still to be made count, too. */
  ghost function MuxRank(m: Mux.State): int {
    28 * |m.call_send_ch| + LoopRank(m.loop) + 26 * |m.snd_write_ch| + 19 * |m.rcv_read_ch| + 16 * |m.ipcrecv_ch| +
    16 * (2 - m.count)
  }

  /** And so do the reports still to come, three at most. */
  ghost function EngineRank(s: Engine.State): int {
    (if s.held.Some? then 24 else 0) + 23 * |s.requests| + 21 * |s.reports| + 22 * (3 - |s.posts|)
  }

  ghost function LocalRank(g: State): int {
    (if g.starting then 32 else 0) + StatusRanks(g.status_ch) + CtlRank(g.ctl) + 25 * |g.toServer| + 20 * |g.toClient|
  }

  ghost function Rank(g: State): int {
    LocalRank(g) + MuxRank(g.mux) + 17 * Held(g.mux, g.ctl) + EngineRank(g.engine)
  }

  /** Everything but the clock, timers, agents and goroutines of the engine, and corosync's callbacks. */
  ghost predicate Move(g: State, e: Event) {
    match e
    case SetNode(_) => false
    case Work(w) => w.Dispatch? || w.Put? ||
      (w.Advance? && w.thread in g.engine.threads && g.engine.threads[w.thread].pc.Posting?)
    case _ => true
  }

  // ---- every move uses it up

  ghost function MuxRankDelta(e: Mux.Event): int {
    match e
    case GetNumber => -16
    case Enqueue(_, _) => 28
    case EnqueueAsync(_) => 28
    case LoopSend => -1
    case LoopWrite => -1
    case SenderWrite => -26
    case ReceiverRead(_) => 19
    case LoopRecv => -1
    case HandOver => -18
    case LoopQueue => -2
    case CallerPush(_) => 16
    case Consume => -16
    case Settle(_) => 0
  }

  lemma MuxRankStep(m: Mux.State, e: Mux.Event)
    requires Mux.Enabled(m, e)
    ensures MuxRank(Mux.Apply(m, e)) == MuxRank(m) + MuxRankDelta(e)
  {
  }

  ghost function EngineRankDelta(s: Engine.State, e: Engine.Event): int {
    match e
    case Receive(_) => 24
    case Put => -1
    case Dispatch => -23
    case Answer => -21
    case Advance(t, _) => if t in s.threads && s.threads[t].pc.Posting? then -1 else 0
    case _ => 0
  }

  lemma EngineRankStep(s: Engine.State, e: Engine.Event)
    requires Engine.Enabled(s, e)
    ensures EngineRank(Engine.Apply(s, e)) == EngineRank(s) + EngineRankDelta(s, e)
  {
  }

  lemma {:induction false} StatusRanksSnoc(vs: seq<int>, v: int)
    ensures StatusRanks(vs + [v]) == StatusRanks(vs) + StatusRank(v)
  {
    if vs == [] {
      assert vs + [v] == [v];
    } else {
      assert (vs + [v])[1..] == vs[1..] + [v];
      StatusRanksSnoc(vs[1..], v);
    }
  }

  /** What the controller's own part of a step may add at most. */
  ghost function LocalRankDelta(g: State, e: Event): int {
    match e
    case Main => -1
    case SetNode(_) => 0
    case TakeStatus => if Requests(g) then 15 else -1
    case Greet => -30
    case Call => -29
    case Return => 0
    case TakeMessage => 15
    case Post => -1
    case Loop(_) => 0
    case SenderWrite => 25
    case ReceiverRead => -20
    case Serve(_) => if g.toServer != [] && g.toServer[0].body.Control? then -25 else -5
    case Reply(_) => 20
    case Work(_) => 0
  }

  lemma LocalRankStep(g: State, e: Event)
    requires Enabled(g, e) && g.nodeid != 0
    ensures LocalRank(Apply(g, e)) <= LocalRank(g) + LocalRankDelta(g, e)
    ensures e.SetNode? || e.Loop? || e.Work? ==> LocalRank(Apply(g, e)) == LocalRank(g)
  {
    match e
    case Main => StatusRanksSnoc(g.status_ch, STARTUP);
    case Post => StatusRanksSnoc(g.status_ch, g.ctl.status);
    case _ =>
  }

  ghost function MuxRankGain(g: State, e: Event): int
    requires Enabled(g, e)
  {
    var m := MuxEvent(g, e);
    if m.Some? then MuxRankDelta(m.value) else 0
  }

  ghost function EngineRankGain(g: State, e: Event): int
    requires Enabled(g, e)
  {
    var w := EngineEvent(g, e);
    if w.Some? then EngineRankDelta(g.engine, w.value) else 0
  }

  lemma ComponentRanks(g: State, e: Event)
    requires Enabled(g, e)
    ensures MuxRank(NextMux(g, e)) == MuxRank(g.mux) + MuxRankGain(g, e)
    ensures EngineRank(NextEngine(g, e)) == EngineRank(g.engine) + EngineRankGain(g, e)
  {
    var m, w := MuxEvent(g, e), EngineEvent(g, e);
    if m.Some? { MuxRankStep(g.mux, m.value); }
    if w.Some? { EngineRankStep(g.engine, w.value); }
  }

  /** The books of one step. */
  lemma Gains(g: State, e: Event)
    requires Enabled(g, e)
    ensures var gain := LocalRankDelta(g, e) + MuxRankGain(g, e) + 17 * HeldGain(e) + EngineRankGain(g, e);
      gain <= (if Move(g, e) then -1 else 0)
  {
  }

  lemma RankStep(g: State, e: Event)
    requires Enabled(g, e) && g.nodeid != 0
    requires MuxInvariants.HandOk(g.mux.calls, g.mux.loop) && CallsOk(g.mux, g.ctl, g.step)
    ensures Rank(Apply(g, e)) <= Rank(g) - (if Move(g, e) then 1 else 0)
    ensures Apply(g, e).nodeid == g.nodeid
  {
    LocalRankStep(g, e);
    ComponentRanks(g, e);
    HeldStep(g, e);
    Gains(g, e);
  }

  ghost function Moves(g: State, es: seq<Event>): nat
    requires Runs(g, es)
    decreases es
  {
    if es == [] then 0 else (if Move(g, es[0]) then 1 else 0) + Moves(Apply(g, es[0]), es[1..])
  }

  lemma {:induction false} StatusRanksBound(vs: seq<int>)
    ensures StatusRanks(vs) <= 31 * |vs|
  {
    if vs != [] {
      StatusRanksBound(vs[1..]);
    }
  }

  lemma RankArithmetic(g: State)
    requires Tokens(g) <= 2 && |g.engine.posts| <= 3 && g.mux.count <= 2
    ensures 0 <= Rank(g) <= 162
  {
    StatusRanksBound(g.status_ch);
    var starting := if g.starting then 1 else 0;
    assert LocalRank(g) <= 32 * (starting + |g.status_ch| + CtlTokens(g.ctl) + |g.toServer| + |g.toClient|);
    assert MuxRank(g.mux) <= 32 * MuxTokens(g.mux) + 32;
    assert EngineRank(g.engine) <= 32 * (|TakenIn(g.engine)| + |g.engine.reports|) + 66;
  }

  lemma RankBound(g: State)
    requires Service.Stage(g.engine) && Net(g) == 1 && CallsOk(g.mux, g.ctl, g.step)
    ensures 0 <= Rank(g) <= 162
  {
    QueuesStayShort(g);
    Service.ReportsAreFew(g.engine);
    RankArithmetic(g);
  }

  lemma {:induction false} MovesBound(g: State, es: seq<Event>)
    requires Inv(g) && Runs(g, es) && g.nodeid != 0
    ensures Moves(g, es) <= Rank(g)
    decreases es
  {
    RankBound(g);
    if es != [] {
      InvStep(g, es[0]);
      RankStep(g, es[0]);
      MovesBound(Apply(g, es[0]), es[1..]);
    }
  }

  /** From any reachable state in which the node id is known, no run makes more than 162 moves, however long it is. */
  lemma BoundedWork(g: State, es: seq<Event>)
    requires Reachable(g) && Runs(g, es) && g.nodeid != 0
    ensures Moves(g, es) <= Rank(g) <= 162
  {
    ReachableInv(g);
    RankBound(g);
    MovesBound(g, es);
  }

  // ---- hello requests

  ghost function Startups(vs: seq<int>): nat {
    if vs == [] then 0 else (if vs[0] == STARTUP then 1 else 0) + Startups(vs[1..])
  }

  /** Hello requests that are still to be sent whatever becomes known now. */
  ghost function Hellos(g: State): nat {
    (if g.starting then 1 else 0) + Startups(g.status_ch) +
      (if g.ctl == Greeting || g.ctl == Posting(STARTUP) then 1 else 0)
  }

  lemma {:induction false} StartupsSnoc(vs: seq<int>, v: int)
    ensures Startups(vs + [v]) == Startups(vs) + (if v == STARTUP then 1 else 0)
  {
    if vs == [] {
      assert vs + [v] == [v];
    } else {
      assert (vs + [v])[1..] == vs[1..] + [v];
      StartupsSnoc(vs[1..], v);
    }
  }

  lemma HellosStep(g: State, e: Event)
    requires Enabled(g, e) && g.nodeid != 0
    ensures Hellos(Apply(g, e)) <= Hellos(g) - (if e.Greet? then 1 else 0)
  {
    match e
    case Main => StartupsSnoc(g.status_ch, STARTUP);
    case Post => StartupsSnoc(g.status_ch, g.ctl.status);
    case _ =>
  }

  /** Once a request is made there is no hello request to come. */
  ghost predicate Greeted(g: State) {
    g.sent != [] || g.ctl.Calling? ==> Hellos(g) == 0
  }

  lemma {:induction false} StartupsBound(vs: seq<int>)
    ensures Startups(vs) <= |vs|
  {
    if vs != [] {
      StartupsBound(vs[1..]);
    }
  }

  /** Before its first request is made, the controller's token is the only one. */
  lemma OneToken(g: State)
    requires Service.Stage(g.engine) && Net(g) == 1 && |g.engine.tasks| <= |g.sent| && g.sent == []
    ensures Tokens(g) <= 1 && Hellos(g) <= 1
    ensures g.ctl.Calling? || (g.ctl == Polling && g.status_ch != [] && g.status_ch[0] == CONTROL_RESOURCE) ==>
      Hellos(g) == 0
  {
    Service.ReportsAreFew(g.engine);
    assert Unreported(g.engine, 0) == 0;
    StartupsBound(g.status_ch);
  }

  /** The controller's next step is a request: no hello is left. */
  ghost predicate AboutToCall(g: State) {
    g.ctl == Polling && g.status_ch != [] && g.status_ch[0] == CONTROL_RESOURCE
  }

  lemma GreetedKept(g: State, e: Event)
    requires Enabled(g, e) && g.nodeid != 0 && (g.sent != [] || g.ctl.Calling? || AboutToCall(g) ==> Hellos(g) == 0)
    ensures Greeted(Apply(g, e))
  {
    HellosStep(g, e);
  }

  lemma GreetedStep(g: State, e: Event)
    requires Service.Stage(g.engine) && Net(g) == 1 && |g.engine.tasks| <= |g.sent| && Sequenced(g)
    requires Greeted(g) && Enabled(g, e)
    ensures Greeted(Apply(g, e))
  {
    if g.nodeid != 0 {
      if g.sent == [] { OneToken(g); }
      GreetedKept(g, e);
    } else {
      UnknownNode(g, e);
    }
  }

  lemma UnknownNode(g: State, e: Event)
    requires Enabled(g, e) && Sequenced(g) && g.nodeid == 0
    ensures Apply(g, e).sent == [] && !Apply(g, e).ctl.Calling?
  {
  }

  lemma {:induction false} GreetedRun(g: State, es: seq<Event>)
    requires Inv(g) && Greeted(g) && Runs(g, es)
    ensures Greeted(After(g, es))
    decreases es
  {
    if es != [] {
      InvStep(g, es[0]);
      GreetedStep(g, es[0]);
      GreetedRun(Apply(g, es[0]), es[1..]);
    }
  }

  ghost function Greets(g: State, es: seq<Event>): nat
    requires Runs(g, es)
    decreases es
  {
    if es == [] then 0 else (if es[0].Greet? then 1 else 0) + Greets(Apply(g, es[0]), es[1..])
  }

  lemma {:induction false} GreetsBound(g: State, es: seq<Event>)
    requires Runs(g, es) && g.nodeid != 0
    ensures Greets(g, es) <= Hellos(g)
    decreases es
  {
    if es != [] {
      HellosStep(g, es[0]);
      GreetsBound(Apply(g, es[0]), es[1..]);
    }
  }

  lemma ReachableGreeted(g: State)
    requires Reachable(g)
    ensures Greeted(g)
  {
    var es :| Runs(INIT, es) && After(INIT, es) == g;
    assert Greeted(INIT);
    InvInit();
    GreetedRun(INIT, es);
  }

  lemma FewHellos(g: State)
    requires Service.Stage(g.engine) && Net(g) == 1 && |g.engine.tasks| <= |g.sent| && Greeted(g)
    ensures Hellos(g) <= 1
  {
    if g.sent == [] {
      OneToken(g);
    }
  }

  /** Once the node id is known at most one more hello request is sent, and none once a request is made. */
  lemma AtMostOneMoreHello(g: State, es: seq<Event>)
    requires Reachable(g) && Runs(g, es) && g.nodeid != 0
    ensures Greets(g, es) <= 1
    ensures g.sent != [] ==> Greets(g, es) == 0
  {
    ReachableInv(g);
    ReachableGreeted(g);
    FewHellos(g);
    GreetsBound(g, es);
  }
}
