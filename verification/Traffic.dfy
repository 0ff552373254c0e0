/**
 What travels between controller and resource manager, and what the controller knows: every message there ever
 is, the node id, the status, and what a failed write costs.
 */
module Traffic {
  import opened Messages
  import opened Options
  import opened System
  import opened SystemInvariants
  import opened SystemTheorems
  import opened EndToEnd
  import Engine
  import EngineInvariants
  import EngineTheorems
  import Launches
  import Parameters

  // ---- messages

  ghost predicate IsHello(m: Message) {
    m.head == Header(0, RMANAGER_ID, CONTROLLER_ID, MESSAGE_ID_HELLO) && m.body.Hello?
  }

  /** The resource manager's hello, in which it gives the controller as the sender, too. */
  ghost predicate IsHelloReply(m: Message) {
    m.head == Header(0, CONTROLLER_ID, CONTROLLER_ID, MESSAGE_ID_HELLO) && m.body.Hello?
  }

  lemma ControlIsSent(g: State, i: nat) returns (n: nat)
    requires Flow(g) && i < |Outbound(g.toServer, g.mux)| && Outbound(g.toServer, g.mux)[i].body.Control?
    ensures n < |g.sent| && g.sent[n] == Outbound(g.toServer, g.mux)[i]
  {
    var out := Outbound(g.toServer, g.mux);
    var j := ControlsHas(out, i);
    n := |g.engine.tasks| + |TakenIn(g.engine)| + j;
    assert (TakenIn(g.engine) + Controls(out))[|TakenIn(g.engine)| + j] == out[i];
    assert g.sent[|g.engine.tasks|..][|TakenIn(g.engine)| + j] == g.sent[n];
  }

  lemma SentIsEither(g: State, n: nat)
    requires SentOk(g.sent) && n < |g.sent|
    ensures IsStartRequest(g.sent[n]) || IsMonitorRequest(g.sent[n])
  {
    SentIs(g);
  }

  /** Whatever is on its way to the resource manager is a hello or one of the two requests. */
  lemma OutboundMessagesAre(g: State, i: nat)
    requires Reachable(g) && i < |Outbound(g.toServer, g.mux)|
    ensures var m := Outbound(g.toServer, g.mux)[i]; IsHello(m) || IsStartRequest(m) || IsMonitorRequest(m)
  {
    MessagesAreOk(g);
    if Outbound(g.toServer, g.mux)[i].body.Control? {
      var n := ControlIsSent(g, i);
      SentIsEither(g, n);
    } else {
      OutboundHello(Outbound(g.toServer, g.mux), i);
    }
  }

  lemma OutboundHello(out: seq<Message>, i: nat)
    requires OutOk(out) && i < |out| && !out[i].body.Control?
    ensures IsHello(out[i])
  {
  }

  ghost predicate Inbound(g: State, m: Message) {
    m in g.toClient || m in g.mux.rcv_read_ch || m in g.mux.ipcrecv_ch
  }

  /** Whatever is on its way to the controller, or waits there, is a hello reply or the answer to a request sent. */
  lemma InboundMessagesAre(g: State, m: Message)
    requires Reachable(g) && Inbound(g, m)
    ensures IsHelloReply(m) || (1 <= m.head.seqno <= |g.sent| && Answers(m, g.sent[m.head.seqno - 1]))
  {
    InboundIsOk(g);
    MessagesAreOk(g);
    assert MsgOk(g.engine.tasks, m);
    if m.head.seqno != 0 {
      MessageAnswers(g, m);
    }
  }

  lemma InboundIsOk(g: State)
    requires Reachable(g)
    ensures forall m :: Inbound(g, m) ==> MsgOk(g.engine.tasks, m)
  {
    ReachableInv(g);
  }

  // ---- agents

  /** The agent is the one for the controller's resource, with this operation and only this parameter. */
  ghost predicate Operates(l: Engine.Launch, op: string) {
    l.rscid == 1 && l.agent.rsc == "/usr/lib/ocf/resource.d/heartbeat/Dummy2" && l.agent.op == op &&
    l.agent.param == [op + "=0"] &&
    forall env :: Parameters.Final(env, l.agent.param, "OCF_RESKEY_" + op) == Some("0")
  }

  lemma OneParameter(op: string)
    requires op == "start" || op == "monitor"
    ensures forall env :: Parameters.Final(env, [op + "=0"], "OCF_RESKEY_" + op) == Some("0")
  {
    var ps := [Parameter(op, "0")];
    assert Assignments(ps)[0] == op + "=" + "0" == op + "=0";
    assert Assignments(ps) == [op + "=0"];
    Parameters.RoundTrip(ps, 0);
    forall env ensures Parameters.Final(env, [op + "=0"], "OCF_RESKEY_" + op) == Some("0") {
      Parameters.ParameterReachesTheAgent(env, ps, 0);
      assert Parameters.GivesLast(Assignments(ps), 0, op, "0");
    }
  }

  /** Every agent ever started is that of the start request or of the monitor request, with its parameter set. */
  lemma AgentsAre(g: State, i: nat)
    requires Reachable(g) && i < |g.engine.launches|
    ensures var l := g.engine.launches[i];
      (l.chain == 0 && Operates(l, "start")) || (l.chain == 1 && Operates(l, "monitor"))
  {
    MessagesAreOk(g);
    ComponentsAreReachable(g);
    AgentIs(g, i);
  }

  lemma AgentIs(g: State, i: nat)
    requires Flow(g) && EngineTheorems.Reachable(g.engine) && i < |g.engine.launches|
    ensures var l := g.engine.launches[i];
      (l.chain == 0 && Operates(l, "start")) || (l.chain == 1 && Operates(l, "monitor"))
  {
    Launches.ReachableListed(g.engine);
    LaunchIsOfTask(g.engine, i);
    TaskIs(g, g.engine.launches[i].chain);
    OneParameter("start");
    OneParameter("monitor");
  }

  lemma LaunchIsOfTask(s: Engine.State, i: nat)
    requires EngineInvariants.Tied(s) && Launches.Listed(s) && i < |s.launches|
    ensures var l := s.launches[i];
      l.chain < |s.tasks| && l.agent == Engine.AgentOf(s.tasks[l.chain]) && l.rscid == s.tasks[l.chain].rscid
  {
    var l := s.launches[i];
    assert Launches.IsOf(l, s.runs, s.now) && EngineInvariants.RunOk(s.tasks, s.runs[l.run]);
  }

  lemma TaskIs(g: State, k: nat)
    requires Flow(g) && k < |g.engine.tasks|
    ensures k < 2 && g.engine.tasks[k].rscid == 1
    ensures Engine.AgentOf(g.engine.tasks[k]) ==
      var op := if k == 0 then "start" else "monitor";
      Engine.Agent("/usr/lib/ocf/resource.d/heartbeat/Dummy2", op, [op + "=0"])
  {
    assert g.engine.tasks[k] == Engine.TaskOf(RequestOf(k + 1, k + 1));
    var op := if k == 0 then "start" else "monitor";
    var ps := [Parameter(op, "0")];
    assert ps[..1] == ps;
    assert Assignments(ps)[0] == op + "=" + "0" == op + "=0";
    assert Assignments(ps) == [op + "=0"];
  }

  // ---- what the controller knows

  /** The first node id other than 0 that a callback handler brings, 0 before it. */
  ghost function FirstId(es: seq<Event>): int {
    if es == [] then 0
    else if es[0].SetNode? && es[0].id != 0 then es[0].id
    else FirstId(es[1..])
  }

  lemma {:induction false} NodeIdRun(g: State, es: seq<Event>)
    requires Runs(g, es)
    ensures After(g, es).nodeid == if g.nodeid != 0 then g.nodeid else FirstId(es)
    decreases es
  {
    if es != [] {
      NodeIdRun(Apply(g, es[0]), es[1..]);
    }
  }

  /** The node id is the first one other than 0, and never changes again. */
  lemma NodeIdIsTheFirst(es: seq<Event>)
    requires Runs(INIT, es)
    ensures After(INIT, es).nodeid == FirstId(es)
  {
    NodeIdRun(INIT, es);
  }

  ghost predicate HandlesStartup(g: State, e: Event) {
    e.TakeStatus? && g.status_ch != [] && g.status_ch[0] == STARTUP
  }

  ghost predicate StartupHandled(g: State, es: seq<Event>)
    requires Runs(g, es)
    decreases es
  {
    es != [] && (HandlesStartup(g, es[0]) || StartupHandled(Apply(g, es[0]), es[1..]))
  }

  lemma {:induction false} StatusRun(g: State, es: seq<Event>)
    requires Runs(g, es)
    ensures After(g, es).status == if StartupHandled(g, es) then ALL_CLIENT_UP else g.status
    decreases es
  {
    if es != [] {
      StatusRun(Apply(g, es[0]), es[1..]);
    }
  }

  /** The status is STARTUP until a STARTUP has been handled, and ALL_CLIENT_UP for good from then on. */
  lemma StatusFollowsStartup(es: seq<Event>)
    requires Runs(INIT, es)
    ensures After(INIT, es).status == if StartupHandled(INIT, es) then ALL_CLIENT_UP else STARTUP
  {
    StatusRun(INIT, es);
  }

  // ---- a failed write

  /** The resource manager tries to write to the controller. */
  ghost predicate Writes(g: State, e: Event) {
    ServesHello(g, e) || (e.Reply? && g.known)
  }

  /** The resource manager answers a hello, and the write succeeds. */
  ghost predicate Welcomes(g: State, e: Event) {
    ServesHello(g, e) && e.ok
  }

  ghost predicate NoWelcome(g: State, es: seq<Event>)
    requires Runs(g, es)
    decreases es
  {
    es == [] || (!Welcomes(g, es[0]) && NoWelcome(Apply(g, es[0]), es[1..]))
  }

  ghost function ReplyCount(es: seq<Event>): nat {
    if es == [] then 0 else (if es[0].Reply? then 1 else 0) + ReplyCount(es[1..])
  }

  /** What has been written to the controller so far: what it has read and what it has not. */
  ghost function Written(g: State, es: seq<Event>): seq<Message>
    requires Runs(g, es)
    decreases es
  {
    if es == [] then []
    else NextToClient(g, es[0])[|if es[0].ReceiverRead? then g.toClient[1..] else g.toClient|..] +
         Written(Apply(g, es[0]), es[1..])
  }

  lemma {:induction false} Deaf(g: State, es: seq<Event>)
    requires Runs(g, es) && !g.known && NoWelcome(g, es)
    ensures !After(g, es).known && Written(g, es) == [] && After(g, es).lost >= g.lost + ReplyCount(es)
    decreases es
  {
    if es != [] {
      Deaf(Apply(g, es[0]), es[1..]);
    }
  }

  /**
   A write that fails makes the resource manager forget the controller: until the next hello that is answered
   nothing is written to it any more, and every reply is lost.
   */
  lemma LostUntilTheNextHello(g: State, e: Event, es: seq<Event>)
    requires Enabled(g, e) && Writes(g, e) && !e.ok && Runs(Apply(g, e), es) && NoWelcome(Apply(g, e), es)
    ensures Written(Apply(g, e), es) == []
    ensures After(Apply(g, e), es).lost >= g.lost + 1 + ReplyCount(es)
  {
    Deaf(Apply(g, e), es);
  }

  /** An answered hello makes it known: the reply is written, and so is the next one whose write succeeds. */
  lemma WelcomedIsAnswered(g: State, e: Event)
    requires Enabled(g, e) && Welcomes(g, e)
    ensures var g' := Apply(g, e);
      g'.known && g'.toClient == g.toClient + [HelloReply(g.toServer[0])] && g'.lost == g.lost
    ensures var g' := Apply(g, e); g'.engine.reports != [] && Enabled(g', Reply(true)) ==>
      Apply(g', Reply(true)).toClient == g'.toClient + [Engine.ReplyOf(g'.engine.reports[0])] &&
      Apply(g', Reply(true)).lost == g.lost
  {
  }
}
