/** The list of started agents (rmanager/rman.go, os.StartProcess): one launch for each run, under the pid it got. */
module Launches {
  import opened Engine
  import opened EngineInvariants
  import opened EngineAccounts
  import opened EngineTheorems

  /** The launch is that of its run. */
  ghost predicate IsOf(l: Launch, runs: map<nat, Run>, now: int) {
    l.run in runs && runs[l.run].proc != Spawned && l.at <= now &&
    var run := runs[l.run];
    l.chain == run.chain && l.rep == run.rep && l.rscid == run.task.rscid && l.agent == AgentOf(run.task) &&
    l.pid == run.pid
  }

  ghost predicate IsLaunch(launches: seq<Launch>, i: int, r: nat) {
    0 <= i < |launches| && launches[i].run == r
  }

  /** Every started run has its launch, and one only. */
  ghost predicate OneEach(launches: seq<Launch>, runs: map<nat, Run>) {
    (forall r :: r in runs && runs[r].proc != Spawned ==> exists i :: IsLaunch(launches, i, r)) &&
    (forall i, j, r :: IsLaunch(launches, i, r) && IsLaunch(launches, j, r) ==> i == j)
  }

  ghost predicate Listed(s: State) {
    (forall i :: 0 <= i < |s.launches| ==> IsOf(s.launches[i], s.runs, s.now)) && OneEach(s.launches, s.runs)
  }

  lemma ListedAdvance(s: State, t: nat, late: bool)
    requires Tied(s) && Listed(s) && CanAdvance(s, t, late)
    ensures Listed(Advanced(s, t, late))
  {
    var s' := Advanced(s, t, late);
    forall i | 0 <= i < |s.launches| ensures IsOf(s.launches[i], s'.runs, s'.now) {
      assert IsOf(s.launches[i], s.runs, s.now);
    }
  }

  lemma ListedStart(s: State, r: nat, pid: int)
    requires Listed(s) && Enabled(s, Process(r, Start(pid)))
    ensures Listed(Processed(s, r, Start(pid)))
  {
    var s', n := Processed(s, r, Start(pid)), |s.launches|;
    forall i | 0 <= i < |s'.launches| ensures IsOf(s'.launches[i], s'.runs, s'.now) {
      if i < n { assert IsOf(s.launches[i], s.runs, s.now); }
    }
    assert forall i, q :: IsLaunch(s.launches, i, q) ==> IsLaunch(s'.launches, i, q) && q != r;
    assert forall i, q :: IsLaunch(s'.launches, i, q) ==> IsLaunch(s.launches, i, q) || (i == n && q == r);
    assert IsLaunch(s'.launches, n, r);
  }

  lemma ListedProcess(s: State, r: nat, act: Act)
    requires Listed(s) && Enabled(s, Process(r, act)) && !act.Start?
    ensures Listed(Processed(s, r, act))
  {
    var s' := Processed(s, r, act);
    forall i | 0 <= i < |s.launches| ensures IsOf(s.launches[i], s'.runs, s'.now) {
      assert IsOf(s.launches[i], s.runs, s.now);
    }
  }

  lemma ListedStep(s: State, e: Event)
    requires Tied(s) && Listed(s) && Enabled(s, e)
    ensures Listed(Apply(s, e))
  {
    match e
    case Advance(t, late) => ListedAdvance(s, t, late);
    case Process(r, act) => if act.Start? { ListedStart(s, r, act.pid); } else { ListedProcess(s, r, act); }
    case Tick(_) =>
      forall i | 0 <= i < |s.launches| ensures IsOf(s.launches[i], s.runs, Apply(s, e).now) {
        assert IsOf(s.launches[i], s.runs, s.now);
      }
    case _ =>
  }

  lemma {:induction false} ListedRun(s: State, es: seq<Event>)
    requires Inv(s) && Listed(s) && Runs(s, es)
    ensures Listed(After(s, es))
    decreases es
  {
    if es != [] {
      ListedStep(s, es[0]);
      InvStep(s, es[0]);
      ListedRun(Apply(s, es[0]), es[1..]);
    }
  }

  lemma ReachableListed(s: State)
    requires Reachable(s)
    ensures Inv(s) && Listed(s)
  {
    ReachableInv(s);
    var es :| Runs(INIT, es) && After(INIT, es) == s;
    InvInit();
    ListedRun(INIT, es);
  }

  // ---- what os.StartProcess was called for

  /** A process was started, for this run and under this pid. */
  datatype ProcessStart = ProcessStart(run: nat, pid: int)

  ghost function Starts(es: seq<Event>): seq<ProcessStart> {
    if es == [] then []
    else (if es[0].Process? && es[0].act.Start? then [ProcessStart(es[0].run, es[0].act.pid)] else []) + Starts(es[1..])
  }

  ghost function StartsOf(launches: seq<Launch>): (r: seq<ProcessStart>) {
    seq(|launches|, i requires 0 <= i < |launches| => ProcessStart(launches[i].run, launches[i].pid))
  }

  lemma StartsStep(s: State, e: Event)
    requires Enabled(s, e)
    ensures StartsOf(Apply(s, e).launches) == StartsOf(s.launches) + Starts([e])
  {
    LaunchStep(s, e);
    assert Starts([e][1..]) == [];
  }

  lemma {:induction false} StartsRun(s: State, es: seq<Event>)
    requires Runs(s, es)
    ensures StartsOf(After(s, es).launches) == StartsOf(s.launches) + Starts(es)
    decreases es
  {
    if es != [] {
      StartsStep(s, es[0]);
      StartsRun(Apply(s, es[0]), es[1..]);
      assert Starts([es[0]][1..]) == [];
    }
  }

  /** Launch i is the i-th start of a process, of that run and with that pid, and each run is started once. */
  lemma LaunchesAreTheStarts(es: seq<Event>)
    requires Runs(INIT, es)
    ensures var launches := After(INIT, es).launches;
      |launches| == |Starts(es)| &&
      (forall i :: 0 <= i < |launches| ==> ProcessStart(launches[i].run, launches[i].pid) == Starts(es)[i]) &&
      forall i, j :: 0 <= i < j < |launches| ==> launches[i].run != launches[j].run
  {
    StartsRun(INIT, es);
    ReachableListed(After(INIT, es));
    LaunchedOnce(After(INIT, es));
    StartsAt(After(INIT, es).launches, Starts(es));
  }

  lemma StartsAt(launches: seq<Launch>, starts: seq<ProcessStart>)
    requires StartsOf(launches) == [] + starts
    ensures |launches| == |starts|
    ensures forall i :: 0 <= i < |launches| ==> ProcessStart(launches[i].run, launches[i].pid) == starts[i]
  {
    forall i | 0 <= i < |launches| ensures ProcessStart(launches[i].run, launches[i].pid) == starts[i] {
      assert StartsOf(launches)[i] == starts[i];
    }
  }

  lemma LaunchedOnce(s: State)
    requires Listed(s)
    ensures forall i, j :: 0 <= i < j < |s.launches| ==> s.launches[i].run != s.launches[j].run
  {
    forall i, j | 0 <= i < j < |s.launches| ensures s.launches[i].run != s.launches[j].run {
      if s.launches[i].run == s.launches[j].run {
        assert IsLaunch(s.launches, i, s.launches[i].run) && IsLaunch(s.launches, j, s.launches[i].run);
      }
    }
  }
}
