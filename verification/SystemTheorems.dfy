/** Token conservation, freedom from blocking and controller sequencing, over every run of the whole system. */
module SystemTheorems {
  import opened Messages
  import opened Options
  import opened System
  import opened SystemInvariants
  import Engine
  import Mux
  import Service
  import MuxInvariants

  ghost predicate Reachable(g: State) {
    exists es :: Runs(INIT, es) && After(INIT, es) == g
  }

  lemma ReachableInv(g: State)
    requires Reachable(g)
    ensures Inv(g)
  {
    var es :| Runs(INIT, es) && After(INIT, es) == g;
    InvInit();
    InvRun(INIT, es);
  }

  // ---- tokens

  /** Dispatched requests, of the first n, that the engine has not reported yet. */
  ghost function Unreported(s: Engine.State, n: nat): nat {
    if n == 0 then 0 else Unreported(s, n - 1) + (if Service.Posted(s, n - 1) == 0 then 1 else 0)
  }

  /** Reports beyond the first one for the first n requests: a monitor's later failures. */
  ghost function Late(s: Engine.State, n: nat): nat {
    if n == 0 then 0 else Late(s, n - 1) + (if Service.Posted(s, n - 1) > 1 then Service.Posted(s, n - 1) - 1 else 0)
  }

  /** Everything in flight: status items, handlers about to send, messages anywhere, unreported requests. */
  ghost function Tokens(g: State): nat {
    (if g.starting then 1 else 0) + |g.status_ch| + CtlTokens(g.ctl) + MuxTokens(g.mux) + Held(g.mux, g.ctl) +
    |g.toServer| + |g.toClient| + |TakenIn(g.engine)| + |g.engine.reports| + Unreported(g.engine, |g.engine.tasks|)
  }

  ghost function Reported(s: Engine.State, n: nat): nat {
    if n == 0 then 0 else Reported(s, n - 1) + Service.Posted(s, n - 1)
  }

  lemma {:induction false} ReportsBalance(s: Engine.State, n: nat)
    ensures Unreported(s, n) + Reported(s, n) == n + Late(s, n)
  {
    if n > 0 {
      ReportsBalance(s, n - 1);
    }
  }

  lemma FewLate(s: Engine.State, n: nat)
    requires n <= 2 && Service.Posted(s, 0) <= 1 && Service.Posted(s, 1) <= 2
    ensures Late(s, n) <= 1
    ensures Reported(s, n) == (if n > 0 then Service.Posted(s, 0) else 0) + (if n > 1 then Service.Posted(s, 1) else 0)
  {
    assert Late(s, 0) == 0 && Reported(s, 0) == 0;
    assert Late(s, 1) == 0 && Reported(s, 1) == Service.Posted(s, 0);
  }

  lemma EngineTokens(s: Engine.State)
    requires Service.Stage(s)
    ensures |s.tasks| - |s.posts| == Unreported(s, |s.tasks|) - Late(s, |s.tasks|)
    ensures Late(s, |s.tasks|) <= 1
  {
    Service.ReportsAreFew(s);
    ReportsBalance(s, |s.tasks|);
    FewLate(s, |s.tasks|);
  }

  /**
   Tokens are conserved: one control token from start-up until OPERATIONAL is handled or a reply cannot be
   written, plus one for the monitor's later failure.  There are never more than two.
   */
  lemma TokensAreConserved(g: State)
    requires Reachable(g)
    ensures Tokens(g) + g.ops + g.lost == 1 + Late(g.engine, |g.engine.tasks|)
    ensures Tokens(g) <= 2
  {
    ReachableInv(g);
    EngineTokens(g.engine);
  }

  // ---- the multiplexer is used as it has to be

  /** What Mux assumes of its callers and its server is so in every step of the system. */
  lemma MultiplexerIsUsedOrderly(g: State, e: Event)
    requires Reachable(g) && Enabled(g, e) && MuxEvent(g, e).Some?
    ensures Mux.Orderly(g.mux, MuxEvent(g, e).value)
  {
    ReachableInv(g);
    MuxIsOrderly(g, e);
  }

  // ---- no send blocks

  /** No queue of the controller, the multiplexer or the engine is ever fuller than this. */
  ghost predicate Short(g: State) {
    |g.status_ch| + CtlTokens(g.ctl) + (if g.starting then 1 else 0) <= 2 &&
    MuxTokens(g.mux) + |g.toClient| + CtlTokens(g.ctl) + Held(g.mux, g.ctl) <= 2 &&
    |TakenIn(g.engine)| + |g.toServer| <= 2 && |g.engine.reports| <= 2 && !g.engine.down
  }

  lemma QueuesStayShort(g: State)
    requires Service.Stage(g.engine) && Net(g) == 1
    ensures Tokens(g) <= 2 && Short(g)
  {
    EngineTokens(g.engine);
  }

  lemma ControllerSends(g: State)
    requires Short(g) && CallsOk(g.mux, g.ctl, g.step)
    ensures g.starting ==> Enabled(g, Main)
    ensures g.ctl.Posting? ==> Enabled(g, Post)
    ensures g.ctl.Greeting? ==> Enabled(g, Greet)
    ensures g.ctl.Calling? ==> Enabled(g, Call)
    ensures Held(g.mux, g.ctl) == 1 ==> Enabled(g, Return)
  {
  }

  lemma MultiplexerSends(g: State)
    requires Short(g) && MuxInvariants.HandOk(g.mux.calls, g.mux.loop)
    ensures g.mux.loop.Writing? ==> Enabled(g, Loop(Mux.LoopWrite))
    ensures g.mux.loop.Queuing? ==> Enabled(g, Loop(Mux.LoopQueue))
    ensures g.mux.loop.Handing? ==> Enabled(g, Loop(Mux.HandOver))
    ensures g.mux.snd_write_ch != [] ==> Enabled(g, SenderWrite)
  {
  }

  lemma ReceiverSends(g: State)
    requires Short(g)
    ensures g.toClient != [] ==> Enabled(g, ReceiverRead)
  {
  }

  lemma HandlersRun(g: State)
    requires CallsOk(g.mux, g.ctl, g.step) && g.ctl == Polling
    ensures g.status_ch != [] ==> Enabled(g, TakeStatus)
    ensures g.mux.ipcrecv_ch != [] ==> Enabled(g, TakeMessage)
  {
  }

  lemma WaiterSends(g: State, t: nat)
    requires Short(g) && t in g.engine.threads && g.engine.threads[t].pc.Posting?
    ensures Enabled(g, Work(Engine.Advance(t, false)))
  {
  }

  lemma EngineServes(g: State)
    requires Short(g) && Flow(g) && Engine.Free(g.engine)
    ensures g.toServer != [] ==> Enabled(g, Serve(true))
    ensures g.engine.reports != [] ==> Enabled(g, Reply(true))
    ensures g.engine.requests != [] ==> Enabled(g, Work(Engine.Dispatch))
  {
    if g.engine.requests != [] {
      NextRequest(g);
    }
  }

  lemma EngineTakesIn(g: State)
    requires Short(g)
    ensures g.engine.held.Some? ==> Enabled(g, Work(Engine.Put))
  {
  }

  lemma ReachableIsShort(g: State)
    requires Reachable(g)
    ensures Short(g) && Flow(g) && CallsOk(g.mux, g.ctl, g.step) && MuxInvariants.HandOk(g.mux.calls, g.mux.loop)
  {
    ReachableInv(g);
    QueuesStayShort(g);
  }

  /**
   Nobody ever waits for room: whatever send the dispatcher, SendRecv, ProcessRun, the event loop, the
   receiver or a waiter of the engine is at, it can go through at once, although the dispatcher itself
   drains the channel of capacity two that it sends on, and blocks inside SendRecv meanwhile.  The same holds
   for the resource manager's dispatcher when it queues a request it has read, and between two polls it can
   read, answer or dispatch whatever there is.
   */
  lemma NoSendBlocks(g: State, t: nat)
    requires Reachable(g)
    ensures g.starting ==> Enabled(g, Main)
    ensures g.ctl.Posting? ==> Enabled(g, Post)
    ensures g.ctl.Greeting? ==> Enabled(g, Greet)
    ensures g.ctl.Calling? ==> Enabled(g, Call)
    ensures Held(g.mux, g.ctl) == 1 ==> Enabled(g, Return)
    ensures g.mux.loop.Writing? ==> Enabled(g, Loop(Mux.LoopWrite))
    ensures g.mux.loop.Queuing? ==> Enabled(g, Loop(Mux.LoopQueue))
    ensures g.mux.loop.Handing? ==> Enabled(g, Loop(Mux.HandOver))
    ensures g.toClient != [] ==> Enabled(g, ReceiverRead)
    ensures t in g.engine.threads && g.engine.threads[t].pc.Posting? ==> Enabled(g, Work(Engine.Advance(t, false)))
    ensures g.engine.held.Some? ==> Enabled(g, Work(Engine.Put))
    ensures Engine.Free(g.engine) ==>
      (g.toServer != [] ==> Enabled(g, Serve(true))) && (g.engine.reports != [] ==> Enabled(g, Reply(true))) &&
      (g.engine.requests != [] ==> Enabled(g, Work(Engine.Dispatch)))
  {
    ReachableIsShort(g);
    ControllerSends(g);
    MultiplexerSends(g);
    ReceiverSends(g);
    if t in g.engine.threads && g.engine.threads[t].pc.Posting? { WaiterSends(g, t); }
    EngineTakesIn(g);
    if Engine.Free(g.engine) { EngineServes(g); }
  }

  // ---- sequencing

  /** Message m is the response to the request. */
  ghost predicate Answers(m: Message, request: Message) {
    m.head == Header(request.head.seqno, CONTROLLER_ID, RMANAGER_ID, MESSAGE_ID_RESOUCE_RESPONSE) &&
    m.body.Response? && request.body.Control? && m.body.rscid == request.body.request.rscid &&
    m.body.op == request.body.request.op && m.body.rsc == request.body.request.rsc &&
    (m.body.ret == CL_OK || m.body.ret == CL_ERROR)
  }

  lemma AnswersMatch(g: State, i: nat)
    requires InTransit(TakenIn(g.engine), g.engine.tasks, Outbound(g.toServer, g.mux), g.sent) && CountsOk(g)
    requires AllOk(g.engine.tasks, g.answered) && i < |g.answered|
    ensures i < |g.sent| && Answers(g.answered[i], g.sent[i])
  {
    assert MsgOk(g.engine.tasks, g.answered[i]);
    assert g.engine.tasks[i] == Engine.TaskOf(RequestOf(i + 1, i + 1));
    assert g.sent[i] == RequestOf(i + 1, i + 1);
  }

  /** Start resource 1 with the agent, once, and wait for the result. */
  ghost predicate IsStartRequest(m: Message) {
    m.head == Header(1, RMANAGER_ID, CONTROLLER_ID, MESSAGE_ID_RESOUCE) && m.body.Control? &&
    var r := m.body.request;
    r.rscid == 1 && r.op == "start" && r.rsc == "/usr/lib/ocf/resource.d/heartbeat/Dummy2" &&
    r.interval == 0 && r.timeout == 30000 && r.delay == 0 && !r.async &&
    r.paramLen == 1 && r.parameters == [Parameter("start", "0")]
  }

  /** Monitor the same resource with the same agent every five seconds, without waiting. */
  ghost predicate IsMonitorRequest(m: Message) {
    m.head == Header(2, RMANAGER_ID, CONTROLLER_ID, MESSAGE_ID_RESOUCE) && m.body.Control? &&
    var r := m.body.request;
    r.rscid == 1 && r.op == "monitor" && r.rsc == "/usr/lib/ocf/resource.d/heartbeat/Dummy2" &&
    r.interval == 5000 && r.timeout == 20000 && r.delay == 0 && r.async &&
    r.paramLen == 1 && r.parameters == [Parameter("monitor", "0")]
  }

  lemma SentIs(g: State)
    requires SentOk(g.sent)
    ensures |g.sent| <= 2
    ensures |g.sent| >= 1 ==> IsStartRequest(g.sent[0])
    ensures |g.sent| == 2 ==> IsMonitorRequest(g.sent[1])
  {
  }

  lemma Counted(g: State)
    requires CallsOk(g.mux, g.ctl, g.step) && CountsOk(g) && Sequenced(g)
    ensures g.sent != [] ==> g.nodeid != 0
    ensures |g.answered| <= |g.sent| <= |g.answered| + 1
    ensures g.ctl.Calling? ==> g.nodeid != 0 && |g.answered| == |g.sent|
    ensures OPERATIONAL in g.status_ch || g.ctl == Posting(OPERATIONAL) || g.ops > 0 ==> |g.answered| == 2
  {
  }

  /**
   The controller requests start, then monitor, nothing before it knows its node id, and nothing before the
   previous request was answered with its own response; OPERATIONAL is posted only after both answers.
   */
  lemma RequestsAreSequenced(g: State)
    requires Reachable(g)
    ensures |g.sent| <= 2
    ensures |g.sent| >= 1 ==> IsStartRequest(g.sent[0])
    ensures |g.sent| == 2 ==> IsMonitorRequest(g.sent[1])
    ensures g.sent != [] ==> g.nodeid != 0
    ensures |g.answered| <= |g.sent| <= |g.answered| + 1
    ensures g.ctl.Calling? ==> g.nodeid != 0 && |g.answered| == |g.sent|
    ensures forall i :: 0 <= i < |g.answered| ==> Answers(g.answered[i], g.sent[i])
    ensures OPERATIONAL in g.status_ch || g.ctl == Posting(OPERATIONAL) || g.ops > 0 ==> |g.answered| == 2
  {
    ReachableInv(g);
    SentIs(g);
    Counted(g);
    forall i | 0 <= i < |g.answered| ensures Answers(g.answered[i], g.sent[i]) {
      AnswersMatch(g, i);
    }
  }
}
