/** What every step of the composed system keeps. */
module SystemInvariants {
  import opened Ints
  import opened Messages
  import opened Options
  import opened Records
  import opened System
  import Engine
  import Mux
  import EngineInvariants
  import Service
  import MuxInvariants

  // ---- where the work is: every place a token can be in

  ghost function CtlTokens(ctl: Ctl): nat {
    if ctl.Greeting? || ctl.Calling? || ctl.Posting? then 1 else 0
  }

  ghost function MuxTokens(m: Mux.State): nat {
    |m.call_send_ch| + |m.snd_write_ch| + |m.rcv_read_ch| + |m.ipcrecv_ch| + (if m.loop == Mux.Idle then 0 else 1)
  }

  /** A reply in the hands of the blocked SendRecv. */
  ghost function Held(m: Mux.State, ctl: Ctl): nat {
    if ctl.Blocked? && ctl.call in m.calls && m.calls[ctl.call].phase.Holding? then 1 else 0
  }

  /** What the controller and the sockets hold, and what has been used up. */
  ghost function Local(g: State): int {
    (if g.starting then 1 else 0) + |g.status_ch| + CtlTokens(g.ctl) + |g.toServer| + |g.toClient| + g.ops + g.lost
  }

  /** The requests that have been read and not been dispatched, oldest first. */
  ghost function TakenIn(s: Engine.State): seq<Message> {
    s.requests + (if s.held.Some? then [s.held.value] else [])
  }

  /** Requests not dispatched, reports not answered, and dispatched requests less reports made. */
  ghost function EngineNet(s: Engine.State): int {
    |TakenIn(s)| + |s.reports| + |s.tasks| - |s.posts|
  }

  ghost function Net(g: State): int {
    Local(g) + MuxTokens(g.mux) + Held(g.mux, g.ctl) + EngineNet(g.engine)
  }

  // ---- requests on their way to the engine

  ghost function MsgsOf(q: seq<Mux.SendInfo>): seq<Message> {
    seq(|q|, i requires 0 <= i < |q| => q[i].msg)
  }

  ghost function LoopOut(loop: Mux.Loop): seq<Message> {
    if loop.Writing? then [loop.msg] else []
  }

  /** Oldest first: on the socket, in snd_write_ch, in the loop's hands, in call_send_ch. */
  ghost function Outbound(toServer: seq<Message>, m: Mux.State): seq<Message> {
    toServer + m.snd_write_ch + LoopOut(m.loop) + MsgsOf(m.call_send_ch)
  }

  ghost function Controls(ms: seq<Message>): seq<Message> {
    if ms == [] then []
    else (if ms[0].body.Control? then [ms[0]] else []) + Controls(ms[1..])
  }

  ghost predicate SentOk(sent: seq<Message>) {
    |sent| <= 2 && forall i :: 0 <= i < |sent| ==> sent[i] == RequestOf(i + 1, i + 1)
  }

  ghost predicate OutOk(out: seq<Message>) {
    forall i :: 0 <= i < |out| ==> out[i] == HELLO || out[i].body.Control?
  }

  ghost predicate TasksOk(tasks: seq<Engine.Task>, sent: seq<Message>) {
    |tasks| <= |sent| && forall i :: 0 <= i < |tasks| ==>
      i < 2 && tasks[i] == Engine.TaskOf(RequestOf(i + 1, i + 1))
  }

  /** What the engine has not dispatched yet, and what is outbound, are the rest of the requests sent. */
  ghost predicate InTransit(requests: seq<Message>, tasks: seq<Engine.Task>, out: seq<Message>, sent: seq<Message>) {
    SentOk(sent) && OutOk(out) && TasksOk(tasks, sent) && requests + Controls(out) == sent[|tasks|..]
  }

  ghost predicate Flow(g: State) {
    InTransit(TakenIn(g.engine), g.engine.tasks, Outbound(g.toServer, g.mux), g.sent)
  }

  lemma {:induction false} ControlsConcat(a: seq<Message>, b: seq<Message>)
    ensures Controls(a + b) == Controls(a) + Controls(b)
    decreases |a|
  {
    if a == [] {
      assert a + b == b;
    } else {
      var head := if a[0].body.Control? then [a[0]] else [];
      assert (a + b)[0] == a[0] && (a + b)[1..] == a[1..] + b;
      ControlsConcat(a[1..], b);
      assert Controls(a + b) == head + (Controls(a[1..]) + Controls(b));
    }
  }

  // ---- messages on their way to the controller

  /** A hello reply numbered 0, or a response to dispatched request n - 1, numbered n. */
  ghost predicate MsgOk(tasks: seq<Engine.Task>, m: Message) {
    m == Message(Header(0, CONTROLLER_ID, CONTROLLER_ID, MESSAGE_ID_HELLO), Hello) || ResponseOk(tasks, m)
  }

  ghost predicate ResponseOk(tasks: seq<Engine.Task>, m: Message) {
    var n := m.head.seqno;
    1 <= n <= |tasks| && m.head == Header(n, CONTROLLER_ID, RMANAGER_ID, MESSAGE_ID_RESOUCE_RESPONSE) &&
    m.body.Response? && m.body.rscid == tasks[n - 1].rscid && m.body.op == tasks[n - 1].op &&
    m.body.rsc == tasks[n - 1].rsc && (m.body.ret == CL_OK || m.body.ret == CL_ERROR)
  }

  ghost predicate AllOk(tasks: seq<Engine.Task>, ms: seq<Message>) {
    forall i :: 0 <= i < |ms| ==> MsgOk(tasks, ms[i])
  }

  ghost predicate ReportsOk(tasks: seq<Engine.Task>, reports: seq<Execrsc>) {
    forall i :: 0 <= i < |reports| ==> MsgOk(tasks, Engine.ReplyOf(reports[i]))
  }

  ghost predicate MuxOk(tasks: seq<Engine.Task>, m: Mux.State) {
    AllOk(tasks, m.rcv_read_ch) && AllOk(tasks, m.ipcrecv_ch) &&
    (m.loop.Handing? || m.loop.Queuing? ==> MsgOk(tasks, m.loop.msg)) &&
    (forall c :: c in m.calls && m.calls[c].phase.Holding? ==> MsgOk(tasks, m.calls[c].phase.reply))
  }

  ghost predicate Bound(g: State) {
    AllOk(g.engine.tasks, g.toClient) && ReportsOk(g.engine.tasks, g.engine.reports) && MuxOk(g.engine.tasks, g.mux) &&
    AllOk(g.engine.tasks, g.answered)
  }

  // ---- the controller

  ghost predicate InCall(ctl: Ctl) {
    ctl.Calling? || ctl.Blocked?
  }

  /** Calls 1 and 2 are the controller's SendRecvs, one after the other. */
  ghost predicate CallsOk(m: Mux.State, ctl: Ctl, step: nat) {
    1 <= step <= 3 && m.count == step - 1 + (if InCall(ctl) then 1 else 0) && (InCall(ctl) ==> step <= 2) &&
    (forall c :: c in m.calls <==> 1 <= c <= m.count) &&
    (forall c :: c in m.calls ==> m.calls[c].seqno == c && (c < step ==> m.calls[c].phase == Mux.Returned)) &&
    (ctl.Calling? ==>
      step in m.calls && ctl.call == step && m.calls[step].phase == Mux.Numbered && ctl.msg == RequestOf(step, step)) &&
    (ctl.Blocked? ==>
      step in m.calls && ctl.call == step && (m.calls[step].phase == Mux.Sent || m.calls[step].phase.Holding?))
  }

  ghost predicate CountsOk(g: State) {
    |g.answered| == g.step - 1 && |g.sent| == g.step - 1 + (if g.ctl.Blocked? then 1 else 0) &&
    forall i :: 0 <= i < |g.answered| ==> g.answered[i].head.seqno == i + 1
  }

  ghost predicate StatusOk(v: int, nodeid: int, step: nat) {
    v == STARTUP || (v == CONTROL_RESOURCE && nodeid != 0) || (v == OPERATIONAL && nodeid != 0 && step == 3)
  }

  ghost predicate Sequenced(g: State) {
    (forall i :: 0 <= i < |g.status_ch| ==> StatusOk(g.status_ch[i], g.nodeid, g.step)) &&
    (g.ctl.Posting? ==> StatusOk(g.ctl.status, g.nodeid, g.step)) &&
    (g.sent != [] || g.ctl.Calling? ==> g.nodeid != 0) && (g.ops > 0 ==> g.step == 3)
  }

  ghost predicate Inv(g: State) {
    MuxInvariants.Inv(g.mux) && Service.Stage(g.engine) && Net(g) == 1 && Flow(g) && Bound(g) &&
    CallsOk(g.mux, g.ctl, g.step) && CountsOk(g) && Sequenced(g)
  }

  // ---- preservation: the multiplexer and the engine

  lemma {:induction false} ControlsHas(ms: seq<Message>, i: nat) returns (j: nat)
    requires i < |ms| && ms[i].body.Control?
    ensures j < |Controls(ms)| && Controls(ms)[j] == ms[i]
    decreases |ms|
  {
    if i == 0 {
      j := 0;
    } else {
      j := ControlsHas(ms[1..], i - 1);
      j := j + |Controls(ms)| - |Controls(ms[1..])|;
    }
  }

  /** A message on its way out is numbered 0 or like a request that has not been dispatched. */
  lemma OutboundNumbers(g: State, i: nat)
    requires Flow(g) && i < |Outbound(g.toServer, g.mux)|
    ensures var n := Outbound(g.toServer, g.mux)[i].head.seqno; n == 0 || n > |g.engine.tasks|
  {
    var out := Outbound(g.toServer, g.mux);
    if out[i].body.Control? {
      var j := ControlsHas(out, i);
      var k := |TakenIn(g.engine)| + j;
      assert (TakenIn(g.engine) + Controls(out))[k] == out[i];
      assert g.sent[|g.engine.tasks|..][k] == g.sent[|g.engine.tasks| + k];
    }
  }

  lemma NotLeaving(g: State, n: uint64)
    requires Flow(g) && 0 < n <= |g.engine.tasks|
    ensures !Mux.Leaving(g.mux, n)
  {
    var m := g.mux;
    var out := Outbound(g.toServer, m);
    var a, b := |g.toServer|, |g.toServer| + |m.snd_write_ch|;
    var c := b + |LoopOut(m.loop)|;
    forall i | 0 <= i < |m.snd_write_ch| ensures m.snd_write_ch[i].head.seqno != n {
      assert out[a + i] == m.snd_write_ch[i];
      OutboundNumbers(g, a + i);
    }
    if m.loop.Writing? {
      assert out[b] == m.loop.msg;
      OutboundNumbers(g, b);
    }
    forall i | 0 <= i < |m.call_send_ch| ensures m.call_send_ch[i].msg.head.seqno != n {
      assert out[c + i] == m.call_send_ch[i].msg;
      OutboundNumbers(g, c + i);
    }
  }

  /** What the resource manager sends is an answer: the environment the multiplexer relies on is the real one. */
  lemma RepliesAreCausal(g: State, m: Message)
    requires Flow(g) && CallsOk(g.mux, g.ctl, g.step) && CountsOk(g) && MsgOk(g.engine.tasks, m)
    ensures Mux.Causal(g.mux, m)
  {
    var n := m.head.seqno;
    if n != 0 {
      NotLeaving(g, n);
      assert n in g.mux.calls && Mux.Delivered(g.mux, n) && g.mux.calls[n].seqno == n;
    }
  }

  lemma MuxIsOrderly(g: State, e: Event)
    requires Enabled(g, e) && MuxEvent(g, e).Some?
    requires Flow(g) && CallsOk(g.mux, g.ctl, g.step) && CountsOk(g) && AllOk(g.engine.tasks, g.toClient)
    ensures Mux.Orderly(g.mux, MuxEvent(g, e).value)
  {
    if e.ReceiverRead? {
      RepliesAreCausal(g, g.toClient[0]);
    }
  }

  lemma MuxStep(g: State, e: Event)
    requires MuxInvariants.Inv(g.mux) && Enabled(g, e)
    requires Flow(g) && CallsOk(g.mux, g.ctl, g.step) && CountsOk(g) && AllOk(g.engine.tasks, g.toClient)
    ensures MuxInvariants.Inv(NextMux(g, e))
  {
    var m := MuxEvent(g, e);
    if m.Some? {
      MuxIsOrderly(g, e);
      MuxInvariants.InvStep(g.mux, m.value);
    }
  }

  /** The next request for the engine is the next one sent. */
  lemma NextRequest(g: State)
    requires Flow(g) && g.engine.requests != []
    ensures |g.engine.tasks| < |g.sent| && g.engine.requests[0] == g.sent[|g.engine.tasks|]
    ensures Engine.WellFormed(g.engine.requests[0])
  {
    var out := Outbound(g.toServer, g.mux);
    assert g.engine.requests[0] == (TakenIn(g.engine) + Controls(out))[0] == g.sent[|g.engine.tasks|..][0];
  }

  lemma StageStep(g: State, e: Event)
    requires Service.Stage(g.engine) && Flow(g) && Enabled(g, e)
    ensures Service.Stage(NextEngine(g, e))
  {
    var w := EngineEvent(g, e);
    if w.Some? {
      if w.value.Dispatch? || w.value.Panic? {
        NextRequest(g);
      }
      Service.StageStep(g.engine, w.value);
    }
  }

  // ---- preservation: tokens

  lemma EngineNetStep(s: Engine.State, e: Engine.Event)
    requires Engine.Enabled(s, e)
    ensures EngineNet(Engine.Apply(s, e)) == EngineNet(s) + (if e.Receive? then 1 else if e.Answer? then -1 else 0)
  {
  }

  ghost function MuxDelta(e: Mux.Event): int {
    match e
    case Enqueue(_, _) => 1
    case EnqueueAsync(_) => 1
    case SenderWrite => -1
    case ReceiverRead(_) => 1
    case HandOver => -1
    case CallerPush(_) => 1
    case Consume => -1
    case _ => 0
  }

  lemma MuxTokensStep(m: Mux.State, e: Mux.Event)
    requires Mux.Enabled(m, e)
    ensures MuxTokens(Mux.Apply(m, e)) == MuxTokens(m) + MuxDelta(e)
  {
  }

  lemma HeldStep(g: State, e: Event)
    requires Enabled(g, e) && MuxInvariants.HandOk(g.mux.calls, g.mux.loop) && CallsOk(g.mux, g.ctl, g.step)
    ensures Held(NextMux(g, e), NextCtl(g, e)) ==
      Held(g.mux, g.ctl) + HeldGain(e)
  {
  }

  ghost function MuxGain(g: State, e: Event): int
    requires Enabled(g, e)
  {
    var m := MuxEvent(g, e);
    if m.Some? then MuxDelta(m.value) else 0
  }

  ghost function EngineGain(g: State, e: Event): int
    requires Enabled(g, e)
  {
    var w := EngineEvent(g, e);
    if w.Some? && w.value.Receive? then 1 else if w.Some? && w.value.Answer? then -1 else 0
  }

  ghost function HeldGain(e: Event): int {
    if e == Loop(Mux.HandOver) then 1 else if e.Return? then -1 else 0
  }

  lemma LocalStep(g: State, e: Event)
    requires Enabled(g, e) && OutOk(g.toServer) && AllOk(g.engine.tasks, g.mux.ipcrecv_ch) && Sequenced(g)
    ensures Local(Apply(g, e)) == Local(g) - MuxGain(g, e) - EngineGain(g, e) - HeldGain(e)
  {
  }

  lemma MuxPart(g: State, e: Event)
    requires Enabled(g, e)
    ensures MuxTokens(NextMux(g, e)) == MuxTokens(g.mux) + MuxGain(g, e)
  {
    var m := MuxEvent(g, e);
    if m.Some? { MuxTokensStep(g.mux, m.value); }
  }

  lemma EnginePart(g: State, e: Event)
    requires Enabled(g, e)
    ensures EngineNet(NextEngine(g, e)) == EngineNet(g.engine) + EngineGain(g, e)
  {
    var w := EngineEvent(g, e);
    if w.Some? { EngineNetStep(g.engine, w.value); }
  }

  lemma ServerSide(toServer: seq<Message>, m: Mux.State)
    requires OutOk(Outbound(toServer, m))
    ensures OutOk(toServer)
  {
    assert forall i :: 0 <= i < |toServer| ==> Outbound(toServer, m)[i] == toServer[i];
  }

  lemma NetStep(g: State, e: Event)
    requires Enabled(g, e) && MuxInvariants.HandOk(g.mux.calls, g.mux.loop) && CallsOk(g.mux, g.ctl, g.step)
    requires OutOk(Outbound(g.toServer, g.mux)) && AllOk(g.engine.tasks, g.mux.ipcrecv_ch) && Sequenced(g)
    ensures Net(Apply(g, e)) == Net(g)
  {
    ServerSide(g.toServer, g.mux);
    LocalStep(g, e);
    HeldStep(g, e);
    MuxPart(g, e);
    EnginePart(g, e);
  }

  // ---- preservation: the flow of requests

  lemma MsgsSnoc(q: seq<Mux.SendInfo>, w: Mux.SendInfo)
    ensures MsgsOf(q + [w]) == MsgsOf(q) + [w.msg]
  {
  }

  lemma MsgsTail(q: seq<Mux.SendInfo>)
    requires q != []
    ensures MsgsOf(q) == [q[0].msg] + MsgsOf(q[1..])
  {
  }

  lemma OutboundEnqueued(toServer: seq<Message>, m: Mux.State, w: Mux.SendInfo)
    ensures Outbound(toServer, m.(call_send_ch := m.call_send_ch + [w])) == Outbound(toServer, m) + [w.msg]
  {
    MsgsSnoc(m.call_send_ch, w);
  }

  lemma OutboundTaken(toServer: seq<Message>, m: Mux.State)
    requires Mux.Enabled(m, Mux.LoopSend)
    ensures Outbound(toServer, Mux.Apply(m, Mux.LoopSend)) == Outbound(toServer, m)
  {
    MsgsTail(m.call_send_ch);
  }

  lemma OutboundWritten(toServer: seq<Message>, m: Mux.State)
    requires m.snd_write_ch != []
    ensures Outbound(toServer + [m.snd_write_ch[0]], Mux.Apply(m, Mux.SenderWrite)) == Outbound(toServer, m)
  {
    assert m.snd_write_ch == [m.snd_write_ch[0]] + m.snd_write_ch[1..];
  }

  lemma OutboundMux(toServer: seq<Message>, m: Mux.State, e: Mux.Event)
    requires Mux.Enabled(m, e)
    ensures Outbound(if e.SenderWrite? then toServer + [m.snd_write_ch[0]] else toServer, Mux.Apply(m, e)) ==
      Outbound(toServer, m) + (match e case Enqueue(_, msg) => [msg] case EnqueueAsync(msg) => [msg] case _ => [])
  {
    match e
    case Enqueue(c, msg) => OutboundEnqueued(toServer, m, Mux.SendInfo(m.calls[c].seqno, msg, Some(c)));
    case EnqueueAsync(msg) => OutboundEnqueued(toServer, m, Mux.SendInfo(0, msg, None));
    case LoopSend => OutboundTaken(toServer, m);
    case SenderWrite => OutboundWritten(toServer, m);
    case _ =>
  }

  lemma OutboundServe(toServer: seq<Message>, m: Mux.State)
    requires toServer != []
    ensures var out := Outbound(toServer, m);
      out != [] && out[0] == toServer[0] && Outbound(toServer[1..], m) == out[1..]
  {
    var rest := m.snd_write_ch + LoopOut(m.loop) + MsgsOf(m.call_send_ch);
    assert Outbound(toServer, m) == toServer + rest;
    assert Outbound(toServer[1..], m) == toServer[1..] + rest;
  }

  /** What leaves the controller joins the end, and what the resource manager reads leaves the front. */
  lemma OutboundStep(g: State, e: Event)
    requires Enabled(g, e)
    ensures var out := Outbound(g.toServer, g.mux);
      e.Serve? ==> out != [] && out[0] == g.toServer[0]
    ensures var out := Outbound(g.toServer, g.mux);
      Outbound(NextToServer(g, e), NextMux(g, e)) ==
        match e
        case Greet => out + [HELLO]
        case Call => out + [g.ctl.msg]
        case Serve(_) => out[1..]
        case _ => out
  {
    var m := MuxEvent(g, e);
    if m.Some? {
      OutboundMux(g.toServer, g.mux, m.value);
    } else if e.Serve? {
      OutboundServe(g.toServer, g.mux);
    }
  }

  lemma TransitGreet(requests: seq<Message>, tasks: seq<Engine.Task>, out: seq<Message>, sent: seq<Message>)
    requires InTransit(requests, tasks, out, sent)
    ensures InTransit(requests, tasks, out + [HELLO], sent)
  {
    ControlsConcat(out, [HELLO]);
  }

  lemma TransitCall(requests: seq<Message>, tasks: seq<Engine.Task>, out: seq<Message>, sent: seq<Message>, step: nat)
    requires InTransit(requests, tasks, out, sent) && 1 <= step <= 2 && |sent| == step - 1
    ensures InTransit(requests, tasks, out + [RequestOf(step, step)], sent + [RequestOf(step, step)])
  {
    var r := RequestOf(step, step);
    ControlsConcat(out, [r]);
    assert Controls([r]) == [r];
    assert (sent + [r])[|tasks|..] == sent[|tasks|..] + [r];
  }

  lemma TransitServe(requests: seq<Message>, tasks: seq<Engine.Task>, out: seq<Message>, sent: seq<Message>)
    requires InTransit(requests, tasks, out, sent) && out != []
    ensures InTransit(if out[0].body.Control? then requests + [out[0]] else requests, tasks, out[1..], sent)
  {
    if out[0].body.Control? {
      assert requests + [out[0]] + Controls(out[1..]) == requests + Controls(out);
    }
  }

  lemma TransitDispatch(requests: seq<Message>, tasks: seq<Engine.Task>, out: seq<Message>, sent: seq<Message>)
    requires InTransit(requests, tasks, out, sent) && requests != [] && |tasks| < |sent|
    requires requests[0] == sent[|tasks|]
    ensures InTransit(requests[1..], tasks + [Engine.TaskOf(requests[0])], out, sent)
  {
    assert requests[1..] + Controls(out) == (requests + Controls(out))[1..];
    assert sent[|tasks|..][1..] == sent[|tasks| + 1..];
  }

  lemma WorkKeepsRequests(s: Engine.State, w: Engine.Event)
    requires WorkEvent(w) && Engine.Enabled(s, w)
    ensures var s' := Engine.Apply(s, w);
      if w.Dispatch? then
        TakenIn(s') == TakenIn(s)[1..] && TakenIn(s) != [] && s.requests[0] == TakenIn(s)[0] &&
        s'.tasks == s.tasks + [Engine.TaskOf(s.requests[0])]
      else TakenIn(s') == TakenIn(s) && s'.tasks == s.tasks
  {
  }

  lemma ServeTakesIn(s: Engine.State, m: Message)
    requires Engine.Enabled(s, Engine.Receive(m))
    ensures TakenIn(Engine.Apply(s, Engine.Receive(m))) == TakenIn(s) + [m]
  {
  }

  lemma FlowServe(g: State, ok: bool)
    requires Enabled(g, Serve(ok)) && Flow(g)
    ensures var out := Outbound(g.toServer, g.mux);
      out != [] && out[0] == g.toServer[0] ==>
        InTransit(TakenIn(NextEngine(g, Serve(ok))), g.engine.tasks, out[1..], g.sent) &&
        NextEngine(g, Serve(ok)).tasks == g.engine.tasks
  {
    var out := Outbound(g.toServer, g.mux);
    if out != [] && out[0] == g.toServer[0] {
      TransitServe(TakenIn(g.engine), g.engine.tasks, out, g.sent);
      if out[0].body.Control? { ServeTakesIn(g.engine, out[0]); }
    }
  }

  lemma FlowWork(g: State, w: Engine.Event)
    requires Enabled(g, Work(w)) && Flow(g)
    ensures var engine' := NextEngine(g, Work(w));
      InTransit(TakenIn(engine'), engine'.tasks, Outbound(g.toServer, g.mux), g.sent)
  {
    WorkKeepsRequests(g.engine, w);
    if w.Dispatch? {
      NextRequest(g);
      TransitDispatch(TakenIn(g.engine), g.engine.tasks, Outbound(g.toServer, g.mux), g.sent);
    }
  }

  lemma FlowStep(g: State, e: Event)
    requires Enabled(g, e) && Flow(g) && CallsOk(g.mux, g.ctl, g.step) && CountsOk(g)
    ensures var engine' := NextEngine(g, e);
      InTransit(TakenIn(engine'), engine'.tasks, Outbound(NextToServer(g, e), NextMux(g, e)),
                if e.Call? then g.sent + [g.ctl.msg] else g.sent)
  {
    var s := g.engine;
    var out := Outbound(g.toServer, g.mux);
    OutboundStep(g, e);
    match e
    case Greet => TransitGreet(TakenIn(s), s.tasks, out, g.sent);
    case Call => TransitCall(TakenIn(s), s.tasks, out, g.sent, g.step);
    case Serve(ok) => FlowServe(g, ok);
    case Work(w) => FlowWork(g, w);
    case _ =>
  }

  // ---- preservation: the messages for the controller

  lemma MoreTasks(tasks: seq<Engine.Task>, tasks': seq<Engine.Task>, m: Message)
    requires MsgOk(tasks, m) && tasks <= tasks'
    ensures MsgOk(tasks', m)
  {
  }

  lemma ReportsStep(s: Engine.State, e: Engine.Event, sent: seq<Message>)
    requires Engine.Enabled(s, e) && EngineInvariants.ThreadsOk(s.tasks, s.next, s.threads) && TasksOk(s.tasks, sent)
    requires ReportsOk(s.tasks, s.reports)
    ensures ReportsOk(s.tasks, Engine.Apply(s, e).reports)
    ensures s.tasks <= Engine.Apply(s, e).tasks
  {
    if e.Advance? && s.threads[e.thread].pc.Posting? {
      var th := s.threads[e.thread];
      assert EngineInvariants.ThreadOk(s.tasks, th);
      assert s.tasks[th.chain].seqno == th.chain + 1;
      assert MsgOk(s.tasks, Engine.ReplyOf(th.pc.res));
    }
  }

  lemma MuxOkStep(tasks: seq<Engine.Task>, m: Mux.State, e: Mux.Event)
    requires Mux.Enabled(m, e) && MuxOk(tasks, m) && (e.ReceiverRead? ==> MsgOk(tasks, e.msg))
    ensures MuxOk(tasks, Mux.Apply(m, e))
  {
  }

  lemma ToClientStep(g: State, e: Event)
    requires Enabled(g, e) && OutOk(g.toServer)
    requires AllOk(g.engine.tasks, g.toClient) && ReportsOk(g.engine.tasks, g.engine.reports)
    ensures AllOk(g.engine.tasks, NextToClient(g, e))
  {
    if e.Reply? {
      assert MsgOk(g.engine.tasks, Engine.ReplyOf(g.engine.reports[0]));
    }
  }

  lemma BoundStep(g: State, e: Event)
    requires Enabled(g, e) && Bound(g) && Flow(g)
    requires EngineInvariants.ThreadsOk(g.engine.tasks, g.engine.next, g.engine.threads)
    ensures var tasks, engine' := g.engine.tasks, NextEngine(g, e);
      tasks <= engine'.tasks && AllOk(tasks, NextToClient(g, e)) && ReportsOk(tasks, engine'.reports) &&
      MuxOk(tasks, NextMux(g, e))
  {
    ServerSide(g.toServer, g.mux);
    ToClientStep(g, e);
    var m, w := MuxEvent(g, e), EngineEvent(g, e);
    if m.Some? { MuxOkStep(g.engine.tasks, g.mux, m.value); }
    if w.Some? { ReportsStep(g.engine, w.value, g.sent); }
  }

  /** What is right for the tasks so far stays right when more are dispatched. */
  lemma BoundMore(tasks: seq<Engine.Task>, tasks': seq<Engine.Task>, ms: seq<Message>)
    requires tasks <= tasks' && AllOk(tasks, ms)
    ensures AllOk(tasks', ms)
  {
    forall i | 0 <= i < |ms| ensures MsgOk(tasks', ms[i]) { MoreTasks(tasks, tasks', ms[i]); }
  }

  lemma ReportsMore(tasks: seq<Engine.Task>, tasks': seq<Engine.Task>, reports: seq<Execrsc>)
    requires tasks <= tasks' && ReportsOk(tasks, reports)
    ensures ReportsOk(tasks', reports)
  {
    forall i | 0 <= i < |reports| ensures MsgOk(tasks', Engine.ReplyOf(reports[i])) {
      MoreTasks(tasks, tasks', Engine.ReplyOf(reports[i]));
    }
  }

  lemma MuxMore(tasks: seq<Engine.Task>, tasks': seq<Engine.Task>, m: Mux.State)
    requires tasks <= tasks' && MuxOk(tasks, m)
    ensures MuxOk(tasks', m)
  {
    BoundMore(tasks, tasks', m.rcv_read_ch);
    BoundMore(tasks, tasks', m.ipcrecv_ch);
    if m.loop.Handing? || m.loop.Queuing? { MoreTasks(tasks, tasks', m.loop.msg); }
    forall c | c in m.calls && m.calls[c].phase.Holding? ensures MsgOk(tasks', m.calls[c].phase.reply) {
      MoreTasks(tasks, tasks', m.calls[c].phase.reply);
    }
  }

  // ---- preservation: the controller

  lemma FirstNumbers(step: nat)
    requires step <= 2
    ensures Mux.Number(step) == step
    ensures step < 2 ==> Mux.NextSeqno(step) == step + 1
  {
    assert Mux.Number(0) == 0 && Mux.Number(1) == 1;
  }

  lemma CallsNumber(m: Mux.State, step: nat)
    requires Mux.Enabled(m, Mux.GetNumber) && MuxInvariants.Numbers(m) && CallsOk(m, Polling, step) && step <= 2
    ensures CallsOk(Mux.Apply(m, Mux.GetNumber), Calling(m.count + 1, RequestOf(step, Mux.NextSeqno(m.seqno))), step)
  {
    FirstNumbers(step - 1);
  }

  lemma CallsSend(m: Mux.State, ctl: Ctl, step: nat)
    requires ctl.Calling? && Mux.Enabled(m, Mux.Enqueue(ctl.call, ctl.msg)) && CallsOk(m, ctl, step)
    ensures CallsOk(Mux.Apply(m, Mux.Enqueue(ctl.call, ctl.msg)), Blocked(ctl.call), step)
  {
  }

  lemma CallsReturn(m: Mux.State, ctl: Ctl, step: nat)
    requires ctl.Blocked? && Mux.Enabled(m, Mux.CallerPush(ctl.call)) && CallsOk(m, ctl, step)
    ensures CallsOk(Mux.Apply(m, Mux.CallerPush(ctl.call)), Polling, step + 1)
  {
  }

  lemma CallsLoop(m: Mux.State, ctl: Ctl, step: nat, e: Mux.Event)
    requires Mux.Enabled(m, e) && CallsOk(m, ctl, step) && MuxInvariants.HandOk(m.calls, m.loop)
    requires !e.GetNumber? && !e.Enqueue? && !e.CallerPush? && !e.Settle?
    ensures CallsOk(Mux.Apply(m, e), ctl, step)
  {
  }

  lemma CallsOther(m: Mux.State, ctl: Ctl, ctl': Ctl, step: nat)
    requires CallsOk(m, ctl, step) && !InCall(ctl) && !InCall(ctl')
    ensures CallsOk(m, ctl', step)
  {
  }

  lemma CallsStep(g: State, e: Event)
    requires Enabled(g, e) && MuxInvariants.Numbers(g.mux) && MuxInvariants.HandOk(g.mux.calls, g.mux.loop)
    requires CallsOk(g.mux, g.ctl, g.step)
    ensures CallsOk(NextMux(g, e), NextCtl(g, e), if e.Return? then g.step + 1 else g.step)
  {
    match e
    case TakeStatus =>
      if Requests(g) {
        CallsNumber(g.mux, g.step);
      } else {
        CallsOther(g.mux, g.ctl, NextCtl(g, e), g.step);
      }
    case Call => CallsSend(g.mux, g.ctl, g.step);
    case Return => CallsReturn(g.mux, g.ctl, g.step);
    case Greet =>
      CallsLoop(g.mux, g.ctl, g.step, Mux.EnqueueAsync(HELLO));
      CallsOther(NextMux(g, e), g.ctl, Polling, g.step);
    case TakeMessage =>
      CallsLoop(g.mux, g.ctl, g.step, Mux.Consume);
      CallsOther(NextMux(g, e), g.ctl, NextCtl(g, e), g.step);
    case Post => CallsOther(g.mux, g.ctl, Polling, g.step);
    case Loop(m) => CallsLoop(g.mux, g.ctl, g.step, m);
    case SenderWrite => CallsLoop(g.mux, g.ctl, g.step, Mux.SenderWrite);
    case ReceiverRead => CallsLoop(g.mux, g.ctl, g.step, Mux.ReceiverRead(g.toClient[0]));
    case _ =>
  }

  lemma CountsStep(g: State, e: Event)
    requires Enabled(g, e) && MuxInvariants.HandOk(g.mux.calls, g.mux.loop) && CallsOk(g.mux, g.ctl, g.step)
    requires CountsOk(g)
    ensures CountsOk(Apply(g, e))
  {
  }

  lemma SequencedStep(g: State, e: Event)
    requires Enabled(g, e) && Sequenced(g) && CallsOk(g.mux, g.ctl, g.step) && CountsOk(g)
    requires AllOk(g.engine.tasks, g.mux.ipcrecv_ch) && |g.engine.tasks| <= |g.sent|
    ensures Sequenced(Apply(g, e))
  {
    if e.TakeMessage? {
      assert MsgOk(g.engine.tasks, g.mux.ipcrecv_ch[0]);
    }
  }

  // ---- all of it

  lemma AnsweredStep(g: State, e: Event)
    requires Enabled(g, e) && Bound(g)
    ensures AllOk(g.engine.tasks, Apply(g, e).answered)
  {
  }

  lemma BoundAll(g: State, e: Event)
    requires Enabled(g, e) && Bound(g) && Flow(g)
    requires EngineInvariants.ThreadsOk(g.engine.tasks, g.engine.next, g.engine.threads)
    ensures Bound(Apply(g, e))
  {
    BoundStep(g, e);
    AnsweredStep(g, e);
    var tasks, tasks' := g.engine.tasks, NextEngine(g, e).tasks;
    BoundMore(tasks, tasks', NextToClient(g, e));
    ReportsMore(tasks, tasks', NextEngine(g, e).reports);
    MuxMore(tasks, tasks', NextMux(g, e));
    BoundMore(tasks, tasks', Apply(g, e).answered);
  }

  lemma InvStep(g: State, e: Event)
    requires Inv(g) && Enabled(g, e)
    ensures Inv(Apply(g, e))
  {
    MuxStep(g, e);
    StageStep(g, e);
    NetStep(g, e);
    FlowStep(g, e);
    BoundAll(g, e);
    CallsStep(g, e);
    CountsStep(g, e);
    SequencedStep(g, e);
  }

  lemma {:induction false} InvRun(g: State, es: seq<Event>)
    requires Inv(g) && Runs(g, es)
    ensures Inv(After(g, es))
    decreases es
  {
    if es != [] {
      InvStep(g, es[0]);
      InvRun(Apply(g, es[0]), es[1..]);
    }
  }

  lemma FlowInit()
    ensures Flow(INIT)
  {
    assert Outbound(INIT.toServer, INIT.mux) == [];
  }

  lemma ControllerInit()
    ensures Bound(INIT) && CallsOk(INIT.mux, INIT.ctl, INIT.step) && CountsOk(INIT) && Sequenced(INIT)
  {
  }

  lemma NetInit()
    ensures Net(INIT) == 1
  {
  }

  lemma InvInit()
    ensures Inv(INIT)
  {
    assert MuxInvariants.Inv(INIT.mux) by { MuxInvariants.InvInit(); }
    assert Service.Stage(INIT.engine) by { Service.StageInit(); }
    FlowInit();
    NetInit();
    ControllerInit();
  }
}
