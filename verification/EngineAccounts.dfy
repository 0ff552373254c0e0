/**
 The books of the engine: what every agent run is answered with, and when a chain is over.
 */
module EngineAccounts {
  import opened Messages
  import opened Options
  import opened Records
  import opened Engine
  import opened EngineInvariants

  ghost predicate OutcomeOk(tasks: seq<Task>, o: Outcome) {
    o.chain < |tasks| && ResultOf(tasks[o.chain], o.res) && (o.late ==> o.res.ret == CL_ERROR)
  }

  ghost predicate Logged(s: State) {
    (forall o :: o in s.takes ==> OutcomeOk(s.tasks, o) && o.run < s.next) &&
    (forall i, j :: 0 <= i < j < |s.takes| ==> s.takes[i].run != s.takes[j].run) &&
    (forall t :: t in s.threads && s.threads[t].pc.Waiting? ==> !Answered(s.takes, s.threads[t].pc.run))
  }

  /** A waiter has received a result of run r. */
  ghost predicate Answered(takes: seq<Outcome>, r: nat) {
    exists o :: o in takes && o.run == r
  }

  // ---- a chain whose last result does not repeat is over

  ghost predicate Deciding(th: Thread) {
    th.pc.Taken? || th.pc.Posting? || th.pc.Rearm?
  }

  /** Nothing holds the chain any more but a goroutine that is dealing with a result that ends it. */
  ghost predicate Over(threads: map<nat, Thread>, timers: map<nat, Timer>, chain: nat) {
    (forall t :: Owner(threads, t, chain) ==> Deciding(threads[t]) && !Repeats(threads[t].task, threads[t].pc.res)) &&
    (forall m :: !ArmedFor(timers, m, chain))
  }

  ghost predicate Ended(s: State) {
    forall o :: o in s.takes && o.chain < |s.tasks| && !Repeats(s.tasks[o.chain], o.res) ==>
      Over(s.threads, s.timers, o.chain)
  }

  lemma LoggedAdvance(s: State, t: nat, late: bool)
    requires Tied(s) && Waits(s.threads, s.runs) && Logged(s) && CanAdvance(s, t, late)
    ensures Logged(Advanced(s, t, late))
  {
    var s' := Advanced(s, t, late);
    NextPcOk(s, t, late);
    var pc := s.threads[t].pc;
    if pc.Waiting? {
      var o := Outcome(s.threads[t].chain, pc.run, Received(s.runs[pc.run], late), late);
      assert s'.takes == s.takes + [o];
      assert !Answered(s.takes, pc.run);
      forall u | u in s'.threads && s'.threads[u].pc.Waiting? ensures !Answered(s'.takes, s'.threads[u].pc.run) {
        assert WaitsFor(s.threads, s.runs, u, s.threads[u].pc.run);
        assert WaitsFor(s.threads, s.runs, t, pc.run);
      }
    }
  }

  lemma LoggedStep(s: State, e: Event)
    requires Tied(s) && Waits(s.threads, s.runs) && Logged(s) && Enabled(s, e)
    ensures Logged(Apply(s, e))
  {
    match e
    case Advance(t, late) => LoggedAdvance(s, t, late);
    case _ =>
  }

  lemma OverAdvance(s: State, t: nat, late: bool, chain: nat)
    requires CanAdvance(s, t, late) && Over(s.threads, s.timers, chain)
    ensures Over(Advanced(s, t, late).threads, Advanced(s, t, late).timers, chain)
  {
    var s' := Advanced(s, t, late);
    forall u | Owner(s'.threads, u, chain)
      ensures Deciding(s'.threads[u]) && !Repeats(s'.threads[u].task, s'.threads[u].pc.res)
    {
      assert Owner(s.threads, u, chain);
    }
    forall m ensures !ArmedFor(s'.timers, m, chain) {
      assert !ArmedFor(s.timers, m, chain);
      if s.threads[t].pc.Arming? && s.threads[t].chain == chain {
        assert Owner(s.threads, t, chain);
      }
    }
  }

  lemma OverStep(s: State, e: Event, chain: nat)
    requires Tied(s) && Enabled(s, e) && chain < |s.tasks| && Over(s.threads, s.timers, chain)
    ensures Over(Apply(s, e).threads, Apply(s, e).timers, chain)
  {
    var s' := Apply(s, e);
    match e
    case Advance(t, late) => OverAdvance(s, t, late, chain);
    case Dispatch =>
      assert forall u :: Owner(s'.threads, u, chain) ==> Owner(s.threads, u, chain) && s'.threads[u] == s.threads[u];
    case Fire(m) =>
      assert !ArmedFor(s.timers, m, chain);
      assert forall u :: Owner(s'.threads, u, chain) ==> Owner(s.threads, u, chain) && s'.threads[u] == s.threads[u];
      assert forall n :: ArmedFor(s'.timers, n, chain) ==> ArmedFor(s.timers, n, chain);
    case _ =>
  }

  /** The waiter's own result ends the chain when it does not repeat. */
  lemma OverTaken(s: State, t: nat, late: bool)
    requires Tied(s) && Linear(s.threads, s.timers) && CanAdvance(s, t, late) && s.threads[t].pc.Waiting?
    requires !Repeats(s.threads[t].task, Received(s.runs[s.threads[t].pc.run], late))
    ensures Over(Advanced(s, t, late).threads, Advanced(s, t, late).timers, s.threads[t].chain)
  {
    var s' := Advanced(s, t, late);
    var chain := s.threads[t].chain;
    assert Owner(s.threads, t, chain);
    assert forall u :: Owner(s'.threads, u, chain) ==> Owner(s.threads, u, chain);
  }

  lemma EndedStep(s: State, e: Event)
    requires Tied(s) && Linear(s.threads, s.timers) && Logged(s) && Ended(s) && Enabled(s, e)
    ensures Ended(Apply(s, e))
  {
    var s' := Apply(s, e);
    forall o | o in s'.takes && o.chain < |s'.tasks| && !Repeats(s'.tasks[o.chain], o.res)
      ensures Over(s'.threads, s'.timers, o.chain)
    {
      if o in s.takes {
        assert OutcomeOk(s.tasks, o);
        OverStep(s, e, o.chain);
      } else {
        assert ThreadOk(s.tasks, s.threads[e.thread]);
        OverTaken(s, e.thread, e.late);
      }
    }
  }

  // ---- every result is reported, suppressed, or being judged

  ghost predicate Judging(th: Thread) {
    th.pc.Taken? || th.pc.Posting?
  }

  ghost function OutcomeOf(th: Thread): Outcome
    requires Judging(th)
  {
    Outcome(th.chain, th.pc.run, th.pc.res, th.pc.Posting? && th.pc.late)
  }

  ghost function Undecided(threads: map<nat, Thread>): set<Outcome> {
    set t | t in threads && Judging(threads[t]) :: OutcomeOf(threads[t])
  }

  ghost predicate Balanced(s: State) {
    multiset(s.takes) == multiset(s.posts) + multiset(s.drops) + multiset(Undecided(s.threads))
  }

  /** Every run is still waited for, or its waiter has had its result. */
  ghost predicate Covered(s: State) {
    forall r :: r in s.runs ==> WaitsFor(s.threads, s.runs, s.runs[r].waiter, r) || Answered(s.takes, r)
  }

  lemma UndecidedKept(threads: map<nat, Thread>, threads': map<nat, Thread>, t: nat)
    requires threads' - {t} == threads - {t}
    requires (t in threads && Judging(threads[t])) == (t in threads' && Judging(threads'[t]))
    requires t in threads && Judging(threads[t]) ==> OutcomeOf(threads[t]) == OutcomeOf(threads'[t])
    ensures Undecided(threads') == Undecided(threads)
  {
    assert forall u :: u != t && u in threads ==> u in threads - {t} && (threads - {t})[u] == threads[u];
    assert forall u :: u != t && u in threads' ==> u in threads' - {t} && (threads' - {t})[u] == threads'[u];
    forall o | o in Undecided(threads) ensures o in Undecided(threads') {
      var u :| u in threads && Judging(threads[u]) && OutcomeOf(threads[u]) == o;
      assert u in threads' && Judging(threads'[u]) && OutcomeOf(threads'[u]) == o;
    }
    forall o | o in Undecided(threads') ensures o in Undecided(threads) {
      var u :| u in threads' && Judging(threads'[u]) && OutcomeOf(threads'[u]) == o;
      assert u in threads && Judging(threads[u]) && OutcomeOf(threads[u]) == o;
    }
  }

  lemma UndecidedAdded(threads: map<nat, Thread>, t: nat, th: Thread)
    requires t in threads && !Judging(threads[t]) && Judging(th)
    ensures Undecided(threads[t := th]) == Undecided(threads) + {OutcomeOf(th)}
  {
    var threads' := threads[t := th];
    forall o | o in Undecided(threads) ensures o in Undecided(threads') {
      var u :| u in threads && Judging(threads[u]) && OutcomeOf(threads[u]) == o;
      assert threads'[u] == threads[u];
    }
    assert t in threads' && threads'[t] == th;
  }

  lemma UndecidedRemoved(threads: map<nat, Thread>, timers: map<nat, Timer>, t: nat, th: Thread)
    requires Linear(threads, timers) && t in threads && Judging(threads[t]) && !Judging(th)
    ensures Undecided(threads[t := th]) == Undecided(threads) - {OutcomeOf(threads[t])}
  {
    var threads' := threads[t := th];
    forall o | o in Undecided(threads) && o != OutcomeOf(threads[t]) ensures o in Undecided(threads') {
      var u :| u in threads && Judging(threads[u]) && OutcomeOf(threads[u]) == o;
      assert threads'[u] == threads[u];
    }
    forall o | o in Undecided(threads') ensures o in Undecided(threads) && o != OutcomeOf(threads[t]) {
      var u :| u in threads' && Judging(threads'[u]) && OutcomeOf(threads'[u]) == o;
      assert threads[u] == threads'[u];
      assert Owner(threads, u, o.chain) && Owner(threads, t, threads[t].chain);
    }
  }

  lemma BalancedTake(s: State, t: nat, late: bool)
    requires Logged(s) && Balanced(s) && CanAdvance(s, t, late) && s.threads[t].pc.Waiting?
    ensures Balanced(Advanced(s, t, late))
  {
    var s' := Advanced(s, t, late);
    var o := Outcome(s.threads[t].chain, s.threads[t].pc.run, Received(s.runs[s.threads[t].pc.run], late), late);
    UndecidedAdded(s.threads, t, s'.threads[t]);
    assert o !in s.takes by { assert !Answered(s.takes, o.run); }
    assert o !in multiset(s.takes);
    assert o !in Undecided(s.threads);
  }

  lemma BalancedJudge(s: State, t: nat, late: bool)
    requires Linear(s.threads, s.timers) && Balanced(s) && CanAdvance(s, t, late) && Judging(s.threads[t])
    ensures Balanced(Advanced(s, t, late))
  {
    var s' := Advanced(s, t, late);
    if Judging(s'.threads[t]) {
      UndecidedKept(s.threads, s'.threads, t);
    } else {
      assert OutcomeOf(s.threads[t]) in Undecided(s.threads);
      UndecidedRemoved(s.threads, s.timers, t, s'.threads[t]);
    }
  }

  lemma BalancedOther(s: State, t: nat, late: bool)
    requires Balanced(s) && CanAdvance(s, t, late) && !Judging(s.threads[t]) && !s.threads[t].pc.Waiting?
    ensures Balanced(Advanced(s, t, late))
  {
    UndecidedKept(s.threads, Advanced(s, t, late).threads, t);
  }

  lemma BalancedStep(s: State, e: Event)
    requires Tied(s) && Linear(s.threads, s.timers) && Logged(s) && Balanced(s) && Enabled(s, e)
    ensures Balanced(Apply(s, e))
  {
    match e
    case Advance(t, late) =>
      if s.threads[t].pc.Waiting? {
        BalancedTake(s, t, late);
      } else if Judging(s.threads[t]) {
        BalancedJudge(s, t, late);
      } else {
        BalancedOther(s, t, late);
      }
    case Dispatch => UndecidedKept(s.threads, Apply(s, e).threads, s.next);
    case Fire(_) => UndecidedKept(s.threads, Apply(s, e).threads, s.next);
    case _ =>
  }

  lemma CoveredAdvance(s: State, t: nat, late: bool)
    requires Tied(s) && Waits(s.threads, s.runs) && Covered(s) && CanAdvance(s, t, late)
    ensures Covered(Advanced(s, t, late))
  {
    var s' := Advanced(s, t, late);
    forall r | r in s'.runs ensures WaitsFor(s'.threads, s'.runs, s'.runs[r].waiter, r) || Answered(s'.takes, r) {
      if r in s.runs && Answered(s.takes, r) {
        var o :| o in s.takes && o.run == r;
        assert o in s'.takes;
      } else if r in s.runs {
        assert WaitsFor(s.threads, s.runs, s.runs[r].waiter, r);
        if s.runs[r].waiter == t {
          assert s'.takes[|s.takes|].run == r;
        }
      }
    }
  }

  lemma CoveredProcess(s: State, r: nat, act: Act)
    requires Covered(s) && Enabled(s, Process(r, act))
    ensures Covered(Processed(s, r, act))
  {
    var s' := Processed(s, r, act);
    forall q | q in s'.runs ensures WaitsFor(s'.threads, s'.runs, s'.runs[q].waiter, q) || Answered(s'.takes, q) {
      assert WaitsFor(s.threads, s.runs, s.runs[q].waiter, q) || Answered(s.takes, q);
    }
  }

  lemma CoveredSpawn(s: State, threads: map<nat, Thread>)
    requires Covered(s) && forall t :: t in s.threads ==> t in threads && threads[t] == s.threads[t]
    ensures Covered(s.(threads := threads))
  {
    forall r | r in s.runs ensures WaitsFor(threads, s.runs, s.runs[r].waiter, r) || Answered(s.takes, r) {
      assert WaitsFor(s.threads, s.runs, s.runs[r].waiter, r) || Answered(s.takes, r);
    }
  }

  lemma CoveredStep(s: State, e: Event)
    requires Tied(s) && Waits(s.threads, s.runs) && Covered(s) && Enabled(s, e)
    ensures Covered(Apply(s, e))
  {
    match e
    case Advance(t, late) => CoveredAdvance(s, t, late);
    case Process(r, act) => CoveredProcess(s, r, act);
    case Dispatch => CoveredSpawn(s, Dispatched(s).threads);
    case Fire(m) => CoveredSpawn(s, FiredTimer(s, m).threads);
    case _ =>
  }

  // ---- replies

  ghost function RepliesTo(reports: seq<Execrsc>): (r: seq<Message>) {
    seq(|reports|, i requires 0 <= i < |reports| => ReplyOf(reports[i]))
  }

  ghost function Reported(posts: seq<Outcome>): (r: seq<Message>) {
    seq(|posts|, i requires 0 <= i < |posts| => ReplyOf(posts[i].res))
  }

  /** The replies sent, then the reports still in rscOp_ch, are the posts in order. */
  ghost predicate Replied(s: State) {
    s.replies + RepliesTo(s.reports) == Reported(s.posts)
  }

  lemma RepliedStep(s: State, e: Event)
    requires Replied(s) && Enabled(s, e)
    ensures Replied(Apply(s, e))
  {
    var s' := Apply(s, e);
    if e.Answer? {
      assert RepliesTo(s.reports) == [ReplyOf(s.reports[0])] + RepliesTo(s'.reports);
    } else if e.Advance? && s.threads[e.thread].pc.Posting? {
      var res := s.threads[e.thread].pc.res;
      assert RepliesTo(s'.reports) == RepliesTo(s.reports) + [ReplyOf(res)];
      assert Reported(s'.posts) == Reported(s.posts) + [ReplyOf(res)];
    }
  }

  /**
   A dispatcher inside a request is inside a goroutine that is there and holds no other request, all it has
   read are resource requests, no channel holds more than it can, and it is the dispatcher that panics.
   */
  ghost predicate Sane(s: State) {
    (s.busy.Some? ==> s.busy.value in s.threads) &&
    (s.down ==> Free(s)) && (s.held.Some? ==> s.busy == None && s.held.value.body.Control?) &&
    (forall i :: 0 <= i < |s.requests| ==> s.requests[i].body.Control?) &&
    |s.requests| <= CHANNEL_CAPACITY && |s.reports| <= CHANNEL_CAPACITY
  }

  lemma SaneStep(s: State, e: Event)
    requires Sane(s) && Enabled(s, e)
    ensures Sane(Apply(s, e))
  {
  }

  // ---- all of it, over every run

  ghost predicate Inv(s: State) {
    Tied(s) && Waits(s.threads, s.runs) && Linear(s.threads, s.timers) && Logged(s) && Ended(s) &&
    Balanced(s) && Covered(s) && Replied(s) && Sane(s)
  }

  lemma InvStep(s: State, e: Event)
    requires Inv(s) && Enabled(s, e)
    ensures Inv(Apply(s, e))
  {
    TiedStep(s, e);
    WaitsStep(s, e);
    LinearStep(s, e);
    LoggedStep(s, e);
    EndedStep(s, e);
    BalancedStep(s, e);
    CoveredStep(s, e);
    RepliedStep(s, e);
    SaneStep(s, e);
  }

  lemma {:induction false} InvRun(s: State, es: seq<Event>)
    requires Inv(s) && Runs(s, es)
    ensures Inv(After(s, es))
    decreases es
  {
    if es != [] {
      InvStep(s, es[0]);
      InvRun(Apply(s, es[0]), es[1..]);
    }
  }

  lemma InvInit()
    ensures Inv(INIT)
  {
    assert Undecided(INIT.threads) == {};
    assert RepliesTo([]) == Reported([]) == [];
  }
}
