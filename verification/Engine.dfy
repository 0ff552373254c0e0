/**
 The resource-operation engine (rmanager/rman.go, rmanager/main.go) as a step system.

 Every run of ExecRscOp has a process goroutine, a timeout timer and a waiter.  They share only the
 record table, the armed timers and two channels, so a step is what one of them does between two such
 accesses.  Chain k is everything that the k-th dispatched request sets in motion: its own run and
 every repetition that setMonitor arms for it.
 */
module Engine {
  import opened Ints
  import opened Messages
  import opened Options
  import opened Records

  const CHANNEL_CAPACITY := 128

  /** The arguments of ExecRscOp. */
  datatype Task = Task(seqno: uint64, rscid: int, rsc: string, param: seq<string>, op: string,
                       interval: int64, timeout: int64, delay: int64, async: bool)

  /** Where a goroutine inside ExecRscOp, waitChildFunc or setMonitor is. */
  datatype Pc =
    | Fired                             // timer callback, before the isRscStop test
    | Enter                             // ExecRscOp called, interval not looked at yet
    | Enrol                             // interval is 0 and stopTimer has run; the record is not written yet
    | Sleep(until: int)                 // in the delay before the agent is started
    | Waiting(run: nat)                 // in the select on the two result channels
    | Taken(run: nat, res: Execrsc)     // a finish result was received, not judged yet
    | Posting(run: nat, res: Execrsc, late: bool) // about to send on rscOp_ch; late: a timeout result
    | Rearm(res: Execrsc)               // before the test that calls setMonitor
    | Arming                            // setMonitor has written its first record
    | Armed(timer: nat)                 // setMonitor has armed the timer; the second record is not written yet
    | Closing                           // before setRscTerminate

  /** rep counts the repetitions of the chain. */
  datatype Thread = Thread(chain: nat, rep: nat, task: Task, pc: Pc)

  datatype Timer = Timer(chain: nat, rep: nat, task: Task, due: int)

  /** Where the process goroutine of a run is. */
  datatype Proc =
    | Spawned | Started | Running
    | Exited(ret: int)                  // Wait returned, the timeout timer is not stopped yet
    | Reaped(ret: int)
    | Counted(ret: int, count: int)     // getCount has been called
    | Gone

  datatype Timeout = Unset | Ticking(due: int) | Expired | Sent | Cancelled

  /** One agent run and its two result channels. */
  datatype Run = Run(chain: nat, rep: nat, task: Task, waiter: nat, pid: int,
                     proc: Proc, timeout: Timeout, fin: seq<Execrsc>, late: seq<Execrsc>)

  /** What an agent is started with: its path, its operation argument and its parameter strings. */
  datatype Agent = Agent(rsc: string, op: string, param: seq<string>)

  datatype Launch = Launch(run: nat, chain: nat, rep: nat, rscid: int, agent: Agent, pid: int, at: int)

  /** A result and the run and chain it belongs to; late: the timeout result. */
  datatype Outcome = Outcome(chain: nat, run: nat, res: Execrsc, late: bool)

  datatype State = State(
    now: int,                      // monotone clock, in nanoseconds
    next: nat,                     // next unused thread, timer or run number
    requests: seq<Message>,        // rscOpRecvMessage_ch
    tasks: seq<Task>,              // every request dispatched so far; chain k is tasks[k]
    busy: Option<nat>,             // the thread the dispatcher goroutine is inside of
    held: Option<Message>,         // a request the dispatcher has read and is about to put into requests
    down: bool,                    // the program has panicked
    table: Table,
    threads: map<nat, Thread>,
    timers: map<nat, Timer>,       // armed timers
    runs: map<nat, Run>,
    reports: seq<Execrsc>,         // rscOp_ch
    replies: seq<Message>,         // every reply sent
    launches: seq<Launch>,         // every agent started
    takes: seq<Outcome>,           // every result a waiter received
    posts: seq<Outcome>,           // every report sent on rscOp_ch
    drops: seq<Outcome>,           // every result not reported
    kills: seq<int>)               // every process sent SIGKILL

  datatype Act =
    | Start(pid: int) | SetTimeout | Exit(ok: bool) | CancelTimeout | ReadCount | Finish
    | Expire | SendTimeout

  datatype Event =
    | Receive(message: Message)      // _messageResourceHandler up to its send
    | Put                            // its send on rscOpRecvMessage_ch
    | Dispatch                       // _processRscOpMessage up to the call of ExecRscOp
    | Panic                          // _processRscOpMessage with too few parameters
    | Answer                         // _processRscOpEvent
    | Tick(ns: nat)
    | Fire(timer: nat)
    | Advance(thread: nat, late: bool)  // late: the waiter takes the timeout result
    | Process(run: nat, act: Act)

  const INIT: State := State(0, 0, [], [], None, None, false, map[], map[], map[], map[], [], [], [], [], [], [], [])

  /** The request's parameters are as many as it says; ParametersToString panics if they are fewer. */
  predicate WellFormed(m: Message) {
    m.body.Control? && m.body.request.paramLen <= |m.body.request.parameters|
  }

  function TaskOf(m: Message): Task
    requires WellFormed(m)
  {
    var r := m.body.request;
    Task(m.head.seqno, r.rscid, r.rsc, Assignments(r.parameters[..Max(0, r.paramLen)]), r.op,
         r.interval, r.timeout, r.delay, r.async)
  }

  /** Nanoseconds ExecRscOp sleeps before it starts the agent. */
  function DelayOf(task: Task): nat {
    if task.delay > 0 then Pause(task.delay) else 0
  }

  function AgentOf(task: Task): Agent {
    Agent(task.rsc, task.op, task.param)
  }

  function Result(task: Task, pid: int, ret: int, count: int): Execrsc {
    NewExecrsc(task.seqno, task.rscid, pid, task.rsc, task.param, task.op, ret, None, count)
  }

  function Record(task: Task, tm: Option<nat>, count: int): Execrsc {
    NewExecrsc(task.seqno, task.rscid, 0, task.rsc, task.param, task.op, CL_OK, tm, count)
  }

  /** A repeated success of a recurring monitor is not reported. */
  predicate Repeated(res: Execrsc, interval: int64) {
    res.op == "monitor" && res.count > 0 && res.ret == CL_OK && interval > 0
  }

  function ReplyOf(res: Execrsc): Message {
    Message(Header(res.seqno, CONTROLLER_ID, RMANAGER_ID, MESSAGE_ID_RESOUCE_RESPONSE),
            Response(res.rscid, res.op, res.rsc, res.ret))
  }

  // ---- the process goroutine and the timeout callback of one run

  predicate CanAct(run: Run, now: int, act: Act) {
    match act
    case Start(_) => run.proc == Spawned
    case SetTimeout => run.proc == Started
    case Exit(_) => run.proc == Running
    case CancelTimeout => run.proc.Exited?
    case ReadCount => run.proc.Reaped?
    case Finish => run.proc.Counted?
    case Expire => run.timeout.Ticking? && run.timeout.due <= now
    case SendTimeout => run.timeout == Expired
  }

  function ActOn(run: Run, now: int, table: Table, act: Act): Run
    requires CanAct(run, now, act)
  {
    match act
    case Start(pid) => run.(proc := Started, pid := pid)
    case SetTimeout => run.(proc := Running, timeout := Ticking(now + Pause(run.task.timeout)))
    case Exit(ok) => run.(proc := Exited(if ok then CL_OK else CL_ERROR))
    case CancelTimeout =>
      run.(proc := Reaped(run.proc.ret), timeout := if run.timeout.Ticking? then Cancelled else run.timeout)
    case ReadCount => run.(proc := Counted(run.proc.ret, Count(table, run.task.rscid)))
    case Finish => run.(proc := Gone, fin := run.fin + [Result(run.task, run.pid, run.proc.ret, run.proc.count)])
    case Expire => run.(timeout := Expired)
    case SendTimeout => run.(timeout := Sent, late := run.late + [Result(run.task, run.pid, CL_ERROR, 0)])
  }

  // ---- ExecRscOp, waitChildFunc, setMonitor and the timer callback

  predicate CanAdvance(s: State, t: nat, late: bool) {
    t in s.threads &&
    match s.threads[t].pc
    case Sleep(until) => until <= s.now
    case Waiting(r) => r in s.runs && (if late then s.runs[r].late != [] else s.runs[r].fin != [])
    case Posting(_, _, _) => |s.reports| < CHANNEL_CAPACITY
    case _ => true
  }

  /** The two reasons a finish result is not reported: the resource was stopped, or a monitor succeeded again. */
  predicate Suppressed(table: Table, task: Task, res: Execrsc) {
    Terminated(table, res.rscid) || Repeated(res, task.interval)
  }

  predicate Repeats(task: Task, res: Execrsc) {
    res.ret == CL_OK && task.interval > 0
  }

  /** The result the waiter of run r receives. */
  function Received(run: Run, late: bool): Execrsc
    requires if late then run.late != [] else run.fin != []
  {
    if late then run.late[0] else run.fin[0]
  }

  /** Where thread t goes next; None when its goroutine ends or the dispatcher returns from it. */
  function NextPc(s: State, t: nat, late: bool): Option<Pc>
    requires CanAdvance(s, t, late)
  {
    var task := s.threads[t].task;
    match s.threads[t].pc
    case Fired => if Stopped(s.table, task.rscid) then None else Some(Enter)
    case Enter => Some(if task.interval == 0 then Enrol else Sleep(s.now + DelayOf(task)))
    case Enrol => Some(Sleep(s.now + DelayOf(task)))
    case Sleep(_) => Some(Waiting(s.next))
    case Waiting(r) => var res := Received(s.runs[r], late); Some(if late then Posting(r, res, true) else Taken(r, res))
    case Taken(r, res) => Some(if Suppressed(s.table, task, res) then Rearm(res) else Posting(r, res, false))
    case Posting(_, res, _) => Some(Rearm(res))
    case Rearm(res) => Some(if Repeats(task, res) then Arming else Closing)
    case Arming => Some(Armed(s.next))
    case Armed(_) => Some(Closing)
    case Closing => None
  }

  function NextThreads(s: State, t: nat, late: bool): map<nat, Thread>
    requires CanAdvance(s, t, late)
  {
    match NextPc(s, t, late)
    case None => s.threads - {t}
    case Some(pc) => s.threads[t := s.threads[t].(pc := pc)]
  }

  /** An asynchronous run lets go of the dispatcher once its agent is spawned; any other one when it is over. */
  function NextBusy(s: State, t: nat, late: bool): Option<nat>
    requires CanAdvance(s, t, late)
  {
    var th := s.threads[t];
    if s.busy == Some(t) && (NextPc(s, t, late).None? || (th.pc.Sleep? && th.task.async)) then None else s.busy
  }

  function NextTable(table: Table, th: Thread): Table {
    var task := th.task;
    match th.pc
    case Enrol => table[task.rscid := Record(task, None, 0)]
    case Rearm(res) => if Repeats(task, res) then table[task.rscid := Record(task, None, 1)] else table
    case Armed(tm) => table[task.rscid := Record(task, Some(tm), 1)]
    case Closing => MarkTerminated(table, task.rscid, task.op)
    case _ => table
  }

  function NextTimers(s: State, th: Thread): map<nat, Timer> {
    var task := th.task;
    if th.pc.Enter? && task.interval == 0 then
      var tm := TimerToStop(s.table, task.rscid, task.op);
      if tm.Some? then s.timers - {tm.value} else s.timers
    else if th.pc.Arming? then
      s.timers[s.next := Timer(th.chain, th.rep + 1, task, s.now + Pause(task.interval))]
    else s.timers
  }

  function NextRuns(s: State, t: nat, late: bool): map<nat, Run>
    requires CanAdvance(s, t, late)
  {
    var th := s.threads[t];
    match th.pc
    case Sleep(_) => s.runs[s.next := Run(th.chain, th.rep, th.task, t, 0, Spawned, Unset, [], [])]
    case Waiting(r) =>
      var run := s.runs[r];
      s.runs[r := if late then run.(late := run.late[1..]) else run.(fin := run.fin[1..])]
    case _ => s.runs
  }

  function Advanced(s: State, t: nat, late: bool): State
    requires CanAdvance(s, t, late)
  {
    var th := s.threads[t];
    var pc := th.pc;
    s.(next := if pc.Sleep? || pc.Arming? then s.next + 1 else s.next,
       busy := NextBusy(s, t, late),
       table := NextTable(s.table, th),
       threads := NextThreads(s, t, late),
       timers := NextTimers(s, th),
       runs := NextRuns(s, t, late),
       reports := if pc.Posting? then s.reports + [pc.res] else s.reports,
       takes :=
         if pc.Waiting? then s.takes + [Outcome(th.chain, pc.run, Received(s.runs[pc.run], late), late)] else s.takes,
       posts := if pc.Posting? then s.posts + [Outcome(th.chain, pc.run, pc.res, pc.late)] else s.posts,
       drops :=
         if pc.Taken? && Suppressed(s.table, th.task, pc.res) then s.drops + [Outcome(th.chain, pc.run, pc.res, false)]
         else s.drops,
       kills := if pc.Waiting? && late then s.kills + [s.runs[pc.run].late[0].pid] else s.kills)
  }

  // ---- all steps

  /** The dispatcher goroutine is between two polls. */
  predicate Free(s: State) {
    s.busy == None && s.held == None
  }

  predicate Enabled(s: State, e: Event) {
    !s.down &&
    match e
    case Receive(m) => Free(s) && m.body.Control?
    case Put => s.held.Some? && |s.requests| < CHANNEL_CAPACITY
    case Dispatch => Free(s) && s.requests != [] && WellFormed(s.requests[0])
    case Panic => Free(s) && s.requests != [] && s.requests[0].body.Control? && !WellFormed(s.requests[0])
    case Answer => Free(s) && s.reports != []
    case Tick(_) => true
    case Fire(tm) => tm in s.timers && s.timers[tm].due <= s.now
    case Advance(t, late) => CanAdvance(s, t, late)
    case Process(r, act) => r in s.runs && CanAct(s.runs[r], s.now, act)
  }

  function Dispatched(s: State): State
    requires s.requests != [] && WellFormed(s.requests[0])
  {
    var task := TaskOf(s.requests[0]);
    s.(requests := s.requests[1..], tasks := s.tasks + [task], busy := Some(s.next), next := s.next + 1,
       threads := s.threads[s.next := Thread(|s.tasks|, 0, task, Enter)])
  }

  /** The timer is no longer armed; its callback runs in a goroutine of its own. */
  function FiredTimer(s: State, tm: nat): State
    requires tm in s.timers
  {
    var timer := s.timers[tm];
    s.(timers := s.timers - {tm}, next := s.next + 1,
       threads := s.threads[s.next := Thread(timer.chain, timer.rep, timer.task, Fired)])
  }

  function LaunchOf(r: nat, run: Run, pid: int, at: int): Launch {
    Launch(r, run.chain, run.rep, run.task.rscid, AgentOf(run.task), pid, at)
  }

  function Processed(s: State, r: nat, act: Act): State
    requires Enabled(s, Process(r, act))
  {
    var run := s.runs[r];
    s.(runs := s.runs[r := ActOn(run, s.now, s.table, act)],
       launches := if act.Start? then s.launches + [LaunchOf(r, run, act.pid, s.now)] else s.launches)
  }

  function Apply(s: State, e: Event): State
    requires Enabled(s, e)
  {
    match e
    case Receive(m) => s.(held := Some(m))
    case Put => s.(requests := s.requests + [s.held.value], held := None)
    case Dispatch => Dispatched(s)
    case Panic => s.(down := true)
    case Answer => s.(reports := s.reports[1..], replies := s.replies + [ReplyOf(s.reports[0])])
    case Tick(ns) => s.(now := s.now + ns)
    case Fire(tm) => FiredTimer(s, tm)
    case Advance(t, late) => Advanced(s, t, late)
    case Process(r, act) => Processed(s, r, act)
  }

  // ---- runs of the system

  predicate Runs(s: State, es: seq<Event>)
    decreases es
  {
    es == [] || (Enabled(s, es[0]) && Runs(Apply(s, es[0]), es[1..]))
  }

  function After(s: State, es: seq<Event>): State
    requires Runs(s, es)
    decreases es
  {
    if es == [] then s else After(Apply(s, es[0]), es[1..])
  }
}
