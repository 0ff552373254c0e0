/**
 What becomes of a request (rmanager/main.go, message/message.go and the arguments of rmanager/rman.go): it is
 dispatched in its turn, its agents are started as it says, and the reports answer it.
 */
module Requests {
  import opened Ints
  import opened Messages
  import opened Options
  import opened Engine
  import opened EngineInvariants
  import opened EngineAccounts
  import opened EngineTheorems
  import opened Launches
  import Parameters

  /** The requests read from the socket, oldest first. */
  ghost function Asked(es: seq<Event>): seq<Message> {
    if es == [] then [] else (if es[0].Receive? then [es[0].message] else []) + Asked(es[1..])
  }

  /** As many strings as the request says, each one name, sign and value. */
  ghost predicate Strings(r: Request, param: seq<string>) {
    |param| == Max(0, r.paramLen) && r.paramLen <= |r.parameters| &&
    forall i :: 0 <= i < |param| ==> param[i] == r.parameters[i].name + "=" + r.parameters[i].value
  }

  ghost predicate AsAsked(m: Message, task: Task) {
    m.body.Control? &&
    var r := m.body.request;
    task.seqno == m.head.seqno && task.rscid == r.rscid && task.rsc == r.rsc && task.op == r.op &&
    task.interval == r.interval && task.timeout == r.timeout && task.delay == r.delay && task.async == r.async &&
    Strings(r, task.param)
  }

  /** Of the requests ms the first have been dispatched as they are, and the others wait in their order. */
  ghost predicate InTurn(ms: seq<Message>, s: State) {
    |s.tasks| <= |ms| && (forall i :: 0 <= i < |s.tasks| ==> AsAsked(ms[i], s.tasks[i])) &&
    ms[|s.tasks|..] == s.requests + (if s.held.Some? then [s.held.value] else [])
  }

  lemma InTurnDispatch(ms: seq<Message>, s: State)
    requires InTurn(ms, s) && Enabled(s, Dispatch)
    ensures InTurn(ms, Dispatched(s))
  {
    var n := |s.tasks|;
    assert ms[n] == ms[n..][0] == s.requests[0];
    assert ms[n + 1..] == ms[n..][1..];
  }

  ghost function WithAsked(ms: seq<Message>, e: Event): seq<Message> {
    if e.Receive? then ms + [e.message] else ms
  }

  lemma InTurnStep(ms: seq<Message>, s: State, e: Event)
    requires InTurn(ms, s) && Sane(s) && Enabled(s, e)
    ensures InTurn(WithAsked(ms, e), Apply(s, e)) && Sane(Apply(s, e))
  {
    SaneStep(s, e);
    match e
    case Dispatch => InTurnDispatch(ms, s);
    case Receive(m) => assert (ms + [m])[|s.tasks|..] == ms[|s.tasks|..] + [m];
    case _ =>
  }

  lemma {:induction false} InTurnRun(ms: seq<Message>, s: State, es: seq<Event>)
    requires InTurn(ms, s) && Sane(s) && Runs(s, es)
    ensures InTurn(ms + Asked(es), After(s, es))
    decreases es
  {
    if es == [] {
      assert ms + Asked(es) == ms;
    } else {
      InTurnStep(ms, s, es[0]);
      InTurnRun(WithAsked(ms, es[0]), Apply(s, es[0]), es[1..]);
      assert WithAsked(ms, es[0]) + Asked(es[1..]) == ms + Asked(es);
    }
  }

  /**
   Requests are dispatched in the order in which they were read, each with its own arguments, and those that
   are not dispatched yet wait in that order.
   */
  lemma RequestsAreDispatchedInTurn(es: seq<Event>)
    requires Runs(INIT, es)
    ensures InTurn(Asked(es), After(INIT, es))
  {
    InTurnRun([], INIT, es);
    assert [] + Asked(es) == Asked(es);
  }

  /** Every agent's chain is that of a request read, with whose path, operation and parameters it is started. */
  lemma AgentsAreStartedAsAsked(es: seq<Event>, i: nat)
    requires Runs(INIT, es) && i < |After(INIT, es).launches|
    ensures var l, ms := After(INIT, es).launches[i], Asked(es);
      l.chain < |After(INIT, es).tasks| <= |ms| && AsAsked(ms[l.chain], After(INIT, es).tasks[l.chain]) &&
      var r := ms[l.chain].body.request;
      l.rscid == r.rscid && l.agent.rsc == r.rsc && l.agent.op == r.op && Strings(r, l.agent.param)
  {
    var s := After(INIT, es);
    RequestsAreDispatchedInTurn(es);
    ReachableListed(s);
    assert IsOf(s.launches[i], s.runs, s.now) && RunOk(s.tasks, s.runs[s.launches[i].run]);
    assert AsAsked(Asked(es)[s.launches[i].chain], s.tasks[s.launches[i].chain]);
  }

  /** Parameter i has its value in the environment, whatever that was, exactly if no later string says otherwise. */
  ghost predicate IsPassedOn(r: Request, param: seq<string>, i: nat)
    requires i < |r.parameters|
  {
    var name, value := r.parameters[i].name, r.parameters[i].value;
    forall env ::
      var final := Parameters.Final(env, param, "OCF_RESKEY_" + name);
      (final == Some(value) <==> exists k :: i <= k && Parameters.GivesLast(param, k, name, value)) &&
      (Parameters.GivesLast(param, i, name, value) ==> final == Some(value))
  }

  lemma StringsAreAssignments(r: Request, param: seq<string>)
    requires Strings(r, param)
    ensures param == Assignments(r.parameters[..Max(0, r.paramLen)])
  {
  }

  lemma PassedOn(r: Request, param: seq<string>, i: nat)
    requires Strings(r, param) && i < r.paramLen && Parameters.Survives(r.parameters[i])
    ensures IsPassedOn(r, param, i)
  {
    var ps := r.parameters[..r.paramLen];
    StringsAreAssignments(r, param);
    forall env
      ensures var final := Parameters.Final(env, param, "OCF_RESKEY_" + ps[i].name);
        (final == Some(ps[i].value) <==>
          exists k :: i <= k && Parameters.GivesLast(param, k, ps[i].name, ps[i].value)) &&
        (Parameters.GivesLast(param, i, ps[i].name, ps[i].value) ==> final == Some(ps[i].value))
    {
      Parameters.ParameterReachesTheAgent(env, ps, i);
    }
  }

  /**
   Parameter i of a request, if its name survives splitting, has its value in the environment of every agent of
   the request exactly when the last string that gives the variable a value gives this one.
   */
  lemma ParametersReachTheAgents(es: seq<Event>, n: nat, i: nat)
    requires Runs(INIT, es) && n < |After(INIT, es).launches|
    ensures var l, ms := After(INIT, es).launches[n], Asked(es);
      l.chain < |ms| && ms[l.chain].body.Control? &&
      var r := ms[l.chain].body.request;
      i < r.paramLen ==>
        i < |r.parameters| && (Parameters.Survives(r.parameters[i]) ==> IsPassedOn(r, l.agent.param, i))
  {
    AgentsAreStartedAsAsked(es, n);
    var l, r := After(INIT, es).launches[n], Asked(es)[After(INIT, es).launches[n].chain].body.request;
    if i < r.paramLen && Parameters.Survives(r.parameters[i]) {
      PassedOn(r, l.agent.param, i);
    }
  }

  // ---- replies

  /** Reply j answers the request behind post j: its number, resource, operation and path, and the post's result. */
  lemma RepliesAnswerWhatWasAsked(es: seq<Event>, j: nat)
    requires Runs(INIT, es) && j < |After(INIT, es).replies|
    ensures var s, ms := After(INIT, es), Asked(es);
      j < |s.posts| && s.posts[j].chain < |ms| && ms[s.posts[j].chain].body.Control? &&
      var m := ms[s.posts[j].chain];
      s.replies[j].head == Header(m.head.seqno, CONTROLLER_ID, RMANAGER_ID, MESSAGE_ID_RESOUCE_RESPONSE) &&
      s.replies[j].body ==
        Response(m.body.request.rscid, m.body.request.op, m.body.request.rsc, s.posts[j].res.ret)
  {
    var s := After(INIT, es);
    RequestsAreDispatchedInTurn(es);
    ReplyCarriesItsNumber(s, j);
    assert AsAsked(Asked(es)[s.posts[j].chain], s.tasks[s.posts[j].chain]);
  }
}
