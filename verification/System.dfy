/**
 The controller (controller/main.go, controller/control.go, on chhandler and base) together with the
 multiplexer it calls and the resource manager at the other end of the socket.

 Assumptions: one read is one whole message; the resource manager is fresh and this controller is its only
 client; agents can be started.  A write to the controller may fail at any time.
 */
module System {
  import opened Ints
  import opened Messages
  import opened Options
  import Engine
  import Mux

  const STATUS_CAPACITY := 2

  const STARTUP := 1
  const ALL_CLIENT_UP := 2
  const CONTROL_RESOURCE := 4
  const OPERATIONAL := 6

  const AGENT := "/usr/lib/ocf/resource.d/heartbeat/Dummy2"

  /** Where the dispatcher goroutine of the controller is. */
  datatype Ctl =
    | Polling
    | Greeting                          // in SendRecvAsync, before its send
    | Calling(call: nat, msg: Message)  // in SendRecv, before its send
    | Blocked(call: nat)                // in SendRecv, after its send
    | Posting(status: int)              // before Status_ch <- status

  datatype State = State(
    starting: bool,              // ProcessRun has not posted STARTUP yet
    status: int,
    status_ch: seq<int>,
    nodeid: int,
    step: nat,
    ctl: Ctl,
    mux: Mux.State,
    toServer: seq<Message>,      // written by the controller, not read by the resource manager yet
    toClient: seq<Message>,
    known: bool,                 // the resource manager's clients map has the controller
    engine: Engine.State,
    sent: seq<Message>,          // the resource requests put into call_send_ch so far
    answered: seq<Message>,      // the replies SendRecv has passed on
    ops: nat,                    // how often OPERATIONAL has been handled
    lost: nat)                   // replies the resource manager could not write

  datatype Event =
    | Main                       // ProcessRun posts STARTUP
    | SetNode(id: int)           // a corosync callback handler runs
    | TakeStatus                 // _processStatus
    | Greet
    | Call
    | Return                     // SendRecv passes its reply on and returns
    | TakeMessage                // _processIpcClientMessage
    | Post
    | Loop(m: Mux.Event)         // the multiplexer's event loop
    | SenderWrite
    | ReceiverRead
    | Serve(ok: bool)            // the resource manager's _processIpcSrvMessage
    | Reply(ok: bool)            // its _processRscOpEvent
    | Work(w: Engine.Event)      // anything else in the engine

  const INIT: State := State(true, STARTUP, [], 0, 1, Polling, Mux.INIT, [], [], false, Engine.INIT, [], [], 0, 0)

  const HELLO: Message := Message(Header(0, RMANAGER_ID, CONTROLLER_ID, MESSAGE_ID_HELLO), Hello)

  /** The request _resourceControl makes in step 1 and 2. */
  function RequestOf(step: nat, seqno: uint64): Message
    requires step == 1 || step == 2
  {
    Message(Header(seqno, RMANAGER_ID, CONTROLLER_ID, MESSAGE_ID_RESOUCE),
            Control(if step == 1
              then Request(1, "start", AGENT, 0, 30000, 0, false, 1, [Parameter("start", "0")])
              else Request(1, "monitor", AGENT, 5000, 20000, 0, true, 1, [Parameter("monitor", "0")])))
  }

  /** The resource manager's answer to a hello echoes its number. */
  function HelloReply(m: Message): Message {
    Message(Header(m.head.seqno, m.head.source, CONTROLLER_ID, MESSAGE_ID_HELLO), Hello)
  }

  predicate LoopEvent(e: Mux.Event) {
    e.LoopSend? || e.LoopWrite? || e.LoopRecv? || e.HandOver? || e.LoopQueue?
  }

  predicate WorkEvent(e: Engine.Event) {
    !e.Receive? && !e.Answer?
  }

  /** Whether the controller itself is where the event can happen. */
  predicate Ready(g: State, e: Event) {
    match e
    case Main => g.starting && |g.status_ch| < STATUS_CAPACITY
    case SetNode(_) => g.ctl == Polling
    case TakeStatus => g.ctl == Polling && g.status_ch != []
    case Greet => g.ctl == Greeting
    case Call => g.ctl.Calling?
    case Return =>
      g.ctl.Blocked? && g.ctl.call in g.mux.calls && g.mux.calls[g.ctl.call].phase.Holding?
    case TakeMessage => g.ctl == Polling && g.mux.ipcrecv_ch != []
    case Post => g.ctl.Posting? && |g.status_ch| < STATUS_CAPACITY
    case Loop(m) => LoopEvent(m)
    case SenderWrite => g.mux.snd_write_ch != []
    case ReceiverRead => g.toClient != []
    case Serve(_) => Engine.Free(g.engine) && g.toServer != []
    case Reply(_) => g.engine.reports != []
    case Work(w) => WorkEvent(w)
  }

  /** _resourceControl has a request left to make. */
  predicate Requests(g: State) {
    g.status_ch != [] && g.status_ch[0] == CONTROL_RESOURCE && (g.step == 1 || g.step == 2)
  }

  predicate ServesHello(g: State, e: Event) {
    e.Serve? && g.toServer != [] && !g.toServer[0].body.Control? && g.toServer[0].head.types == MESSAGE_ID_HELLO
  }

  // ---- the step of each component

  function MuxEvent(g: State, e: Event): Option<Mux.Event>
    requires Ready(g, e)
  {
    match e
    case TakeStatus => if Requests(g) then Some(Mux.GetNumber) else None
    case Greet => Some(Mux.EnqueueAsync(HELLO))
    case Call => Some(Mux.Enqueue(g.ctl.call, g.ctl.msg))
    case Return => Some(Mux.CallerPush(g.ctl.call))
    case TakeMessage => Some(Mux.Consume)
    case Loop(m) => Some(m)
    case SenderWrite => Some(Mux.SenderWrite)
    case ReceiverRead => Some(Mux.ReceiverRead(g.toClient[0]))
    case _ => None
  }

  function EngineEvent(g: State, e: Event): Option<Engine.Event>
    requires Ready(g, e)
  {
    match e
    case Serve(_) => if g.toServer[0].body.Control? then Some(Engine.Receive(g.toServer[0])) else None
    case Reply(_) => Some(Engine.Answer)
    case Work(w) => Some(w)
    case _ => None
  }

  predicate Enabled(g: State, e: Event) {
    Ready(g, e) &&
    (var m := MuxEvent(g, e); m.Some? ==> Mux.Enabled(g.mux, m.value)) &&
    (var w := EngineEvent(g, e); w.Some? ==> Engine.Enabled(g.engine, w.value))
  }

  function NextMux(g: State, e: Event): Mux.State
    requires Enabled(g, e)
  {
    var m := MuxEvent(g, e);
    if m.Some? then Mux.Apply(g.mux, m.value) else g.mux
  }

  function NextEngine(g: State, e: Event): Engine.State
    requires Enabled(g, e)
  {
    var w := EngineEvent(g, e);
    if w.Some? then Engine.Apply(g.engine, w.value) else g.engine
  }

  /** _processStatus up to its first send. */
  function AfterStatus(g: State): Ctl
    requires g.status_ch != []
  {
    var v := g.status_ch[0];
    if v == STARTUP then Greeting
    else if v == CONTROL_RESOURCE then
      if g.step == 1 || g.step == 2 then
        Calling(g.mux.count + 1, RequestOf(g.step, Mux.NextSeqno(g.mux.seqno)))
      else Posting(OPERATIONAL)
    else Polling
  }

  /** _processIpcClientMessage up to its send. */
  function AfterMessage(g: State): Ctl
    requires g.mux.ipcrecv_ch != []
  {
    var types := g.mux.ipcrecv_ch[0].head.types;
    if types == MESSAGE_ID_RESOUCE_RESPONSE then Posting(CONTROL_RESOURCE)
    else if types == MESSAGE_ID_HELLO then Posting(if g.nodeid != 0 then CONTROL_RESOURCE else STARTUP)
    else Polling
  }

  function NextCtl(g: State, e: Event): Ctl
    requires Ready(g, e)
  {
    match e
    case TakeStatus => AfterStatus(g)
    case TakeMessage => AfterMessage(g)
    case Call => Blocked(g.ctl.call)
    case Greet => Polling
    case Return => Polling
    case Post => Polling
    case _ => g.ctl
  }

  function NextStatusCh(g: State, e: Event): seq<int>
    requires Ready(g, e)
  {
    match e
    case Main => g.status_ch + [STARTUP]
    case TakeStatus => g.status_ch[1..]
    case Post => g.status_ch + [g.ctl.status]
    case _ => g.status_ch
  }

  function NextToServer(g: State, e: Event): seq<Message>
    requires Ready(g, e)
  {
    match e
    case SenderWrite => g.toServer + [g.mux.snd_write_ch[0]]
    case Serve(_) => g.toServer[1..]
    case _ => g.toServer
  }

  function NextToClient(g: State, e: Event): seq<Message>
    requires Ready(g, e)
  {
    match e
    case ReceiverRead => g.toClient[1..]
    case Serve(ok) => if ServesHello(g, e) && ok then g.toClient + [HelloReply(g.toServer[0])] else g.toClient
    case Reply(ok) => if g.known && ok then g.toClient + [Engine.ReplyOf(g.engine.reports[0])] else g.toClient
    case _ => g.toClient
  }

  function NextKnown(g: State, e: Event): bool {
    match e
    case Serve(ok) => if ServesHello(g, e) then ok else g.known
    case Reply(ok) => g.known && ok
    case _ => g.known
  }

  /** A reply that has no client to go to, or whose write fails. */
  predicate Loses(g: State, e: Event) {
    match e
    case Serve(ok) => ServesHello(g, e) && !ok
    case Reply(ok) => !(g.known && ok)
    case _ => false
  }

  function Apply(g: State, e: Event): State
    requires Enabled(g, e)
  {
    State(
      starting := if e.Main? then false else g.starting,
      status := if e.TakeStatus? && g.status_ch[0] == STARTUP then ALL_CLIENT_UP else g.status,
      status_ch := NextStatusCh(g, e),
      nodeid := if e.SetNode? && g.nodeid == 0 then e.id else g.nodeid,
      step := if e.Return? then g.step + 1 else g.step,
      ctl := NextCtl(g, e),
      mux := NextMux(g, e),
      toServer := NextToServer(g, e),
      toClient := NextToClient(g, e),
      known := NextKnown(g, e),
      engine := NextEngine(g, e),
      sent := if e.Call? then g.sent + [g.ctl.msg] else g.sent,
      answered := if e.Return? then g.answered + [g.mux.calls[g.ctl.call].phase.reply] else g.answered,
      ops := if e.TakeStatus? && g.status_ch[0] == OPERATIONAL then g.ops + 1 else g.ops,
      lost := if Loses(g, e) then g.lost + 1 else g.lost)
  }

  predicate Runs(g: State, es: seq<Event>)
    decreases es
  {
    es == [] || (Enabled(g, es[0]) && Runs(Apply(g, es[0]), es[1..]))
  }

  function After(g: State, es: seq<Event>): State
    requires Runs(g, es)
    decreases es
  {
    if es == [] then g else After(Apply(g, es[0]), es[1..])
  }
}
