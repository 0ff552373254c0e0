/**
 How far apart the launches of a recurring request really are (rmanager/rman.go, setMonitor and
 ExecRscOp): interval and delay are milliseconds multiplied into a 64-bit count of nanoseconds.
 */
module Distance {
  import opened Ints
  import opened Messages
  import opened Engine
  import opened EngineTheorems
  import opened MonitorSpacing
  import opened Driving
  import opened Scenarios
  import opened Repetition

  /** Nanoseconds from one launch to the next as the request asks for them. */
  function Nominal(task: Task): int {
    (task.interval + Max(0, task.delay)) * NANOS_PER_MILLI
  }

  ghost predicate Apart(ls: seq<Launch>, distance: int) {
    forall i, j :: 0 <= i <= j < |ls| ==> ls[j].at >= ls[i].at + (j - i) * distance
  }

  /** In every run of the engine the launches of such a request are at least the distance apart. */
  ghost predicate AlwaysApart(task: Task, distance: int) {
    forall s, chain: nat :: Reachable(s) && chain < |s.tasks| && s.tasks[chain] == task ==>
      Apart(LaunchesOf(s.launches, chain), distance)
  }

  /** The real period falls short of the nominal one exactly when interval or delay overflows. */
  lemma PeriodIsNominal(task: Task)
    requires task.interval > 0
    ensures Period(task) >= Nominal(task) <==> task.interval <= MAX_MILLIS && task.delay <= MAX_MILLIS
    ensures task.interval <= MAX_MILLIS && task.delay <= MAX_MILLIS ==> Period(task) == Nominal(task)
  {
    PauseIsExact(task.interval);
    if task.delay > 0 { PauseIsExact(task.delay); }
  }

  /** Two launches can be one period apart and no more. */
  lemma PeriodIsAttained(m: Message) returns (s: State)
    requires Recurring(m)
    ensures Reachable(s) && s.tasks == [TaskOf(m)]
    ensures var ls := LaunchesOf(s.launches, 0); |ls| == 2 && ls[1].at == ls[0].at + Period(TaskOf(m))
  {
    var s1, t := RecurringSucceeded(m);
    var s2 := Reach(s1, Advance(t, false));
    var es := HalfDoneSetMonitorRepeats(s2, t);
    NoDispatchNoRequest(s2, es, 0);
    s := After(s2, es);
    ReachAll(s2, es, s);
    LaunchesSnoc([], s1.launches[0], 0);
    LaunchesSnoc(s1.launches, s.launches[1], 0);
    assert s1.launches == [] + [s1.launches[0]];
  }

  /** The launches keep any distance up to the real period, and no larger one. */
  lemma PeriodIsTheDistance(m: Message, distance: int)
    requires Recurring(m)
    ensures AlwaysApart(TaskOf(m), distance) <==> distance <= Period(TaskOf(m))
  {
    var task := TaskOf(m);
    if distance <= Period(task) {
      forall s, chain: nat | Reachable(s) && chain < |s.tasks| && s.tasks[chain] == task
        ensures Apart(LaunchesOf(s.launches, chain), distance)
      {
        forall i, j | 0 <= i <= j < |LaunchesOf(s.launches, chain)|
          ensures LaunchesOf(s.launches, chain)[j].at >= LaunchesOf(s.launches, chain)[i].at + (j - i) * distance
        {
          LaunchesKeepTheirDistance(s, chain, i, j);
          Farther(j - i, distance, Period(task));
        }
      }
    } else {
      var s := PeriodIsAttained(m);
      var ls := LaunchesOf(s.launches, 0);
      assert !(ls[1].at >= ls[0].at + (1 - 0) * distance);
      assert !Apart(ls, distance);
    }
  }

  lemma Farther(k: nat, a: int, b: int)
    requires a <= b
    ensures k * a <= k * b
  {
  }

  /**
   The agents of a recurring request start at least interval plus delay apart in every run exactly when
   neither of the two overflows the nanosecond count.
   */
  lemma NominalDistanceIsKept(m: Message)
    requires Recurring(m)
    ensures AlwaysApart(TaskOf(m), Nominal(TaskOf(m))) <==>
      m.body.request.interval <= MAX_MILLIS && m.body.request.delay <= MAX_MILLIS
  {
    PeriodIsTheDistance(m, Nominal(TaskOf(m)));
    PeriodIsNominal(TaskOf(m));
  }
}
