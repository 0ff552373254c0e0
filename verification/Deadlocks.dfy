/**
 The resource manager's dispatcher drains two channels that it also sends on: rscOpRecvMessage_ch, when it
 has read a request (rmanager/main.go, _messageResourceHandler), and rscOp_ch, inside a synchronous request
 (rmanager/rman.go, waitChildFunc).  On its own the engine can stop for good at either send, and a request
 with too few parameters ends the program (message/message.go, ParametersToString).  A poll of a channel can
 be taken by a signal, so requests or reports can pile up.
 */
module Deadlocks {
  import opened Messages
  import opened Options
  import opened Engine
  import opened EngineInvariants
  import opened EngineAccounts
  import opened EngineTheorems
  import opened Driving
  import opened Scenarios

  /** The dispatcher is inside a goroutine that is about to send on rscOp_ch. */
  ghost predicate ReportsItself(s: State) {
    s.busy.Some? && s.busy.value in s.threads && s.threads[s.busy.value].pc.Posting?
  }

  /** It sends on a full channel. */
  ghost predicate Stuck(s: State) {
    (ReportsItself(s) && |s.reports| == CHANNEL_CAPACITY) || (s.held.Some? && |s.requests| == CHANNEL_CAPACITY)
  }

  ghost predicate Halted(s: State) {
    Stuck(s) || s.down
  }

  lemma HaltedStep(s: State, e: Event)
    requires Tied(s) && Sane(s) && Halted(s) && Enabled(s, e)
    ensures Halted(Apply(s, e))
    ensures Apply(s, e).replies == s.replies && Apply(s, e).tasks == s.tasks && Apply(s, e).requests == s.requests
    ensures Apply(s, e).held == s.held && !Free(Apply(s, e))
  {
  }

  /** Nothing is answered, dispatched or taken in any more. */
  lemma {:induction false} HaltedForever(s: State, es: seq<Event>)
    requires Inv(s) && Halted(s) && Runs(s, es)
    ensures var s' := After(s, es);
      Halted(s') && s'.replies == s.replies && s'.tasks == s.tasks && s'.requests == s.requests && s'.held == s.held
    ensures var s' := After(s, es); s'.down || !Free(s')
    decreases es
  {
    if es != [] {
      InvStep(s, es[0]);
      HaltedStep(s, es[0]);
      HaltedForever(Apply(s, es[0]), es[1..]);
    }
  }

  /** Some run brings the dispatcher back to its polls. */
  ghost predicate MayReturn(s: State) {
    exists es :: Runs(s, es) && !After(s, es).down && Free(After(s, es))
  }

  /** The room there has to be: for the request it holds, and for the report of the run it is inside of. */
  ghost predicate HasWayBack(s: State)
    requires Waits(s.threads, s.runs)
  {
    (s.held.Some? ==> |s.requests| < CHANNEL_CAPACITY) && (s.busy.Some? ==> HasRoom(s, s.busy.value))
  }

  lemma WayBack(s: State)
    requires Inv(s) && !s.down && HasWayBack(s)
    ensures MayReturn(s)
  {
    if s.busy.Some? {
      var es, s' := DispatcherReturns(s, s.busy.value);
    } else if s.held.Some? {
      One(s, Put);
    } else {
      assert Runs(s, []) && After(s, []) == s;
    }
  }

  /** Whether the dispatcher gets past either of its sends depends on the room in that channel alone. */
  lemma ReturnsExactlyWithRoom(s: State)
    requires Reachable(s)
    ensures ReportsItself(s) ==> (MayReturn(s) <==> |s.reports| < CHANNEL_CAPACITY)
    ensures s.held.Some? ==> (MayReturn(s) <==> |s.requests| < CHANNEL_CAPACITY)
  {
    ReachableInv(s);
    if Stuck(s) {
      forall es | Runs(s, es) ensures After(s, es).down || !Free(After(s, es)) {
        HaltedForever(s, es);
      }
    } else if ReportsItself(s) || s.held.Some? {
      WayBack(s);
    }
  }

  /** With room for a report and a request the dispatcher can return from wherever it is. */
  lemma ReturnsWithRoom(s: State)
    requires Reachable(s) && !s.down && |s.reports| < CHANNEL_CAPACITY && |s.requests| < CHANNEL_CAPACITY
    ensures MayReturn(s)
  {
    ReachableInv(s);
    WayBack(s);
  }

  /**
   The dispatcher is not stuck while of the results received and not suppressed at most 128 are unanswered,
   and of the requests it has read at most 128 are not dispatched.
   */
  lemma NotStuckWhileFewAreUnanswered(s: State)
    requires Reachable(s) && |s.takes| - |s.drops| - |s.replies| <= CHANNEL_CAPACITY
    requires |s.requests| + (if s.held.Some? then 1 else 0) <= CHANNEL_CAPACITY
    ensures !Stuck(s)
  {
    ReachableInv(s);
    ExactlyOneAnswer(s);
    assert |s.replies + RepliesTo(s.reports)| == |Reported(s.posts)|;
    assert ReportsItself(s) ==> OutcomeOf(s.threads[s.busy.value]) in Undecided(s.threads);
  }

  /** Handling the oldest request ends the program exactly when it has fewer parameters than it says. */
  lemma PanicsExactlyOnMissingParameters(s: State)
    requires Reachable(s) && !s.down && Free(s) && s.requests != []
    ensures s.requests[0].body.Control?
    ensures Enabled(s, Panic) <==> s.requests[0].body.request.paramLen > |s.requests[0].body.request.parameters|
    ensures Enabled(s, Panic) <==> !Enabled(s, Dispatch)
    ensures Enabled(s, Panic) ==> Apply(s, Panic).down && forall e :: !Enabled(Apply(s, Panic), e)
  {
    ReachableInv(s);
  }

  // ---- it does happen

  ghost predicate OneShot(m: Message) {
    WellFormed(m) && m.body.request.op != "stop" && m.body.request.interval == 0
  }

  /** n failures are reported and none is answered. */
  lemma {:induction false} ReportsPileUp(m: Message, n: nat) returns (s: State)
    requires OneShot(m) && n <= CHANNEL_CAPACITY
    ensures Reachable(s) && Only(s, map[], map[]) && |s.reports| == n
    decreases n
  {
    if n == 0 {
      Initially();
      s := INIT;
    } else {
      s := ReportsPileUp(m, n - 1);
      var t := s.next;
      s := IsDispatched(s, m);
      s := AgentRuns(s, t, false);
      s := GoesAway(s, t);
    }
  }

  /** For every two such requests, the second one synchronous, the engine can get stuck at a report. */
  lemma StuckIsReachable(m: Message, q: Message) returns (s: State)
    requires OneShot(m) && OneShot(q) && !q.body.request.async
    ensures Reachable(s) && ReportsItself(s) && Stuck(s)
  {
    s := ReportsPileUp(m, CHANNEL_CAPACITY);
    var t := s.next;
    s := IsDispatched(s, q);
    s := AgentStarts(s, t);
    s := AgentEnds(s, t, false);
    s := Reach(s, Advance(t, false));
  }

  /** n requests are read and none is dispatched. */
  lemma {:induction false} RequestsPileUp(m: Message, n: nat) returns (s: State)
    requires m.body.Control? && n <= CHANNEL_CAPACITY
    ensures Reachable(s) && Free(s) && !s.down && |s.requests| == n
    ensures s.reports == [] && s.takes == [] && s.replies == []
    decreases n
  {
    if n == 0 {
      Initially();
      s := INIT;
    } else {
      s := RequestsPileUp(m, n - 1);
      s := Reach(s, Receive(m));
      s := Reach(s, Put);
    }
  }

  /** For every request the engine can get stuck at taking it in, with no result unanswered. */
  lemma StuckTakingInIsReachable(m: Message) returns (s: State)
    requires m.body.Control?
    ensures Reachable(s) && s.held == Some(m) && Stuck(s) && s.reports == [] && s.takes == []
  {
    s := RequestsPileUp(m, CHANNEL_CAPACITY);
    s := Reach(s, Receive(m));
  }

  /** Every request with too few parameters can end the program. */
  lemma PanicIsReachable(m: Message) returns (s: State)
    requires m.body.Control? && m.body.request.paramLen > |m.body.request.parameters|
    ensures Reachable(s) && s.down
  {
    s := OneRequest(m);
    s := Reach(s, Panic);
  }

  lemma OneRequest(m: Message) returns (s: State)
    requires m.body.Control?
    ensures Reachable(s) && Free(s) && !s.down && s.requests == [m]
  {
    Initially();
    s := Reach(INIT, Receive(m));
    s := Reach(s, Put);
  }
}
