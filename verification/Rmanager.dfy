/**
 The resource manager object (rmanager/rman.go, rmanager/main.go).  Each method is one atomic section of
 the code it is named after, on the fields that code updates, and is proved to be one step of Engine.
 */
module Rmanagers {
  import opened Ints
  import opened Messages
  import opened Options
  import opened Records
  import opened Engine

  class Rmanager {
    const execrscmap: ExecrscMap
    var now: int
    var next: nat
    var rscOpRecvMessage_ch: seq<Message>
    var rscOp_ch: seq<Execrsc>
    var busy: Option<nat>
    var held: Option<Message>
    var down: bool
    var threads: map<nat, Thread>
    var timers: map<nat, Timer>
    var runs: map<nat, Run>
    var tasks: seq<Task>
    var replies: seq<Message>
    var launches: seq<Launch>
    var takes: seq<Outcome>
    var posts: seq<Outcome>
    var drops: seq<Outcome>
    var kills: seq<int>

    ghost function Value(): State
      reads this, execrscmap
    {
      State(now, next, rscOpRecvMessage_ch, tasks, busy, held, down, execrscmap.onRsc, threads, timers, runs,
            rscOp_ch, replies, launches, takes, posts, drops, kills)
    }

    constructor ()
      ensures Value() == INIT && fresh(execrscmap)
    {
      execrscmap := new ExecrscMap();
      now, next, busy, held, down := 0, 0, None, None, false;
      rscOpRecvMessage_ch, rscOp_ch, replies, tasks := [], [], [], [];
      threads, timers, runs := map[], map[], map[];
      launches, takes, posts, drops, kills := [], [], [], [], [];
    }

    // ---- the dispatcher

    /** The handler has decoded the request and is about to send it on, whether or not there is room. */
    method MessageResourceHandler(m: Message)
      requires Enabled(Value(), Receive(m))
      modifies this
      ensures Value() == Apply(old(Value()), Receive(m))
    {
      held := Some(m);
    }

    method MessageResourcePut()
      requires Enabled(Value(), Put)
      modifies this
      ensures Value() == Apply(old(Value()), Put)
    {
      rscOpRecvMessage_ch := rscOpRecvMessage_ch + [held.value];
      held := None;
    }

    /** ParametersToString indexes beyond the end of the list. */
    method ParametersPanic()
      requires Enabled(Value(), Panic)
      modifies this
      ensures Value() == Apply(old(Value()), Panic)
    {
      down := true;
    }

    method ProcessRscOpMessage()
      requires Enabled(Value(), Dispatch)
      modifies this
      ensures Value() == Apply(old(Value()), Dispatch)
    {
      ghost var was := Value();
      var task := TaskOf(rscOpRecvMessage_ch[0]);
      rscOpRecvMessage_ch := rscOpRecvMessage_ch[1..];
      tasks := tasks + [task];
      Enters(task);
      assert Value() == Dispatched(was);
    }

    /** The dispatcher is inside a goroutine of its own, at the beginning of ExecRscOp. */
    method Enters(task: Task)
      requires tasks != []
      modifies this`threads, this`busy, this`next
      ensures Value() == old(Value()).(busy := Some(old(next)), next := old(next) + 1,
        threads := old(threads)[old(next) := Thread(|tasks| - 1, 0, task, Enter)])
    {
      threads := threads[next := Thread(|tasks| - 1, 0, task, Enter)];
      busy := Some(next);
      next := next + 1;
    }

    method ProcessRscOpEvent()
      requires Enabled(Value(), Answer)
      modifies this
      ensures Value() == Apply(old(Value()), Answer)
    {
      var res := rscOp_ch[0];
      rscOp_ch := rscOp_ch[1..];
      replies := replies + [ReplyOf(res)];
    }

    // ---- timers

    method Sleep(ns: nat)
      requires !down
      modifies this
      ensures Value() == Apply(old(Value()), Tick(ns))
    {
      now := now + ns;
    }

    method TimerFires(tm: nat)
      requires Enabled(Value(), Fire(tm))
      modifies this
      ensures Value() == Apply(old(Value()), Fire(tm))
    {
      var timer := timers[tm];
      timers := timers - {tm};
      threads := threads[next := Thread(timer.chain, timer.rep, timer.task, Fired)];
      next := next + 1;
    }

    // ---- ExecRscOp

    ghost predicate At(t: nat, late: bool)
      reads this, execrscmap
    {
      !down && CanAdvance(Value(), t, late)
    }

    method Return(t: nat)
      requires t in threads
      modifies this`threads, this`busy
      ensures threads == old(threads) - {t} && busy == if old(busy) == Some(t) then None else old(busy)
    {
      threads := threads - {t};
      if busy == Some(t) {
        busy := None;
      }
    }

    method Goto(t: nat, pc: Pc)
      requires t in threads
      modifies this`threads
      ensures threads == old(threads)[t := old(threads)[t].(pc := pc)]
    {
      threads := threads[t := threads[t].(pc := pc)];
    }

    method Callback(t: nat)
      requires At(t, false) && threads[t].pc.Fired?
      modifies this
      ensures Value() == Apply(old(Value()), Advance(t, false))
    {
      var stop := execrscmap.IsRscStop(threads[t].task.rscid);
      if !stop {
        Goto(t, Enter);
      } else {
        Return(t);
      }
    }

    method ExecRscOpEnter(t: nat)
      requires At(t, false) && threads[t].pc.Enter?
      modifies this
      ensures Value() == Apply(old(Value()), Advance(t, false))
    {
      var task := threads[t].task;
      if task.interval == 0 {
        var tm := execrscmap.StopTimer(task.rscid, task.op);
        if tm.Some? {
          timers := timers - {tm.value};
        }
        Goto(t, Enrol);
      } else {
        Goto(t, Pc.Sleep(now + DelayOf(task)));
      }
    }

    method ExecRscOpRecord(t: nat)
      requires At(t, false) && threads[t].pc.Enrol?
      modifies this, execrscmap
      ensures Value() == Apply(old(Value()), Advance(t, false))
    {
      var task := threads[t].task;
      execrscmap.RecordRscOp(task.seqno, task.rscid, 0, task.rsc, task.param, task.op, CL_OK, None, 0);
      Goto(t, Pc.Sleep(now + DelayOf(task)));
    }

    method ExecRscOpSpawn(t: nat)
      requires At(t, false) && threads[t].pc.Sleep?
      modifies this
      ensures Value() == Apply(old(Value()), Advance(t, false))
    {
      var th := threads[t];
      runs := runs[next := Run(th.chain, th.rep, th.task, t, 0, Spawned, Unset, [], [])];
      Goto(t, Waiting(next));
      if busy == Some(t) && th.task.async {
        busy := None;
      }
      next := next + 1;
    }

    // ---- waitChildFunc

    method WaitChildFinished(t: nat)
      requires At(t, false) && threads[t].pc.Waiting?
      modifies this
      ensures Value() == Apply(old(Value()), Advance(t, false))
    {
      var r := threads[t].pc.run;
      var res := runs[r].fin[0];
      runs := runs[r := runs[r].(fin := runs[r].fin[1..])];
      takes := takes + [Outcome(threads[t].chain, r, res, false)];
      Goto(t, Taken(r, res));
    }

    method WaitChildTimedOut(t: nat)
      requires At(t, true) && threads[t].pc.Waiting?
      modifies this
      ensures Value() == Apply(old(Value()), Advance(t, true))
    {
      var r := threads[t].pc.run;
      var res := runs[r].late[0];
      runs := runs[r := runs[r].(late := runs[r].late[1..])];
      takes := takes + [Outcome(threads[t].chain, r, res, true)];
      kills := kills + [res.pid];
      Goto(t, Posting(r, res, true));
    }

    method WaitChildJudge(t: nat)
      requires At(t, false) && threads[t].pc.Taken?
      modifies this
      ensures Value() == Apply(old(Value()), Advance(t, false))
    {
      var res := threads[t].pc.res;
      var run := threads[t].pc.run;
      var terminate := execrscmap.IsRscTerminate(res.rscid);
      if !terminate && !(res.op == "monitor" && res.count > 0 && res.ret == CL_OK && threads[t].task.interval > 0) {
        Goto(t, Posting(run, res, false));
      } else {
        drops := drops + [Outcome(threads[t].chain, run, res, false)];
        Goto(t, Rearm(res));
      }
    }

    method WaitChildPost(t: nat)
      requires At(t, false) && threads[t].pc.Posting?
      modifies this
      ensures Value() == Apply(old(Value()), Advance(t, false))
    {
      var res := threads[t].pc.res;
      rscOp_ch := rscOp_ch + [res];
      posts := posts + [Outcome(threads[t].chain, threads[t].pc.run, res, threads[t].pc.late)];
      Goto(t, Rearm(res));
    }

    method WaitChildRearm(t: nat)
      requires At(t, false) && threads[t].pc.Rearm?
      modifies this, execrscmap
      ensures Value() == Apply(old(Value()), Advance(t, false))
    {
      var task := threads[t].task;
      if threads[t].pc.res.ret == CL_OK && task.interval > 0 {
        execrscmap.RecordRscOp(task.seqno, task.rscid, 0, task.rsc, task.param, task.op, CL_OK, None, 1);
        Goto(t, Arming);
      } else {
        Goto(t, Closing);
      }
    }

    method SetMonitorArm(t: nat)
      requires At(t, false) && threads[t].pc.Arming?
      modifies this
      ensures Value() == Apply(old(Value()), Advance(t, false))
    {
      var th := threads[t];
      timers := timers[next := Timer(th.chain, th.rep + 1, th.task, now + Pause(th.task.interval))];
      Goto(t, Armed(next));
      next := next + 1;
    }

    method SetMonitorRecord(t: nat)
      requires At(t, false) && threads[t].pc.Armed?
      modifies this, execrscmap
      ensures Value() == Apply(old(Value()), Advance(t, false))
    {
      var task := threads[t].task;
      execrscmap.RecordRscOp(task.seqno, task.rscid, 0, task.rsc, task.param, task.op, CL_OK,
        Some(threads[t].pc.timer), 1);
      Goto(t, Closing);
    }

    method WaitChildClose(t: nat)
      requires At(t, false) && threads[t].pc.Closing?
      modifies this, execrscmap
      ensures Value() == Apply(old(Value()), Advance(t, false))
    {
      execrscmap.SetRscTerminate(threads[t].task.rscid, threads[t].task.op);
      Return(t);
    }

    // ---- the process goroutine and the timeout callback

    method StartProcess(r: nat, pid: int)
      requires Enabled(Value(), Process(r, Start(pid)))
      modifies this
      ensures Value() == Apply(old(Value()), Process(r, Start(pid)))
    {
      var run := runs[r];
      runs := runs[r := run.(proc := Started, pid := pid)];
      var agent := Agent(run.task.rsc, run.task.op, run.task.param);
      launches := launches + [Launch(r, run.chain, run.rep, run.task.rscid, agent, pid, now)];
    }

    method ArmTimeout(r: nat)
      requires Enabled(Value(), Process(r, SetTimeout))
      modifies this
      ensures Value() == Apply(old(Value()), Process(r, SetTimeout))
    {
      var run := runs[r];
      runs := runs[r := run.(proc := Running, timeout := Ticking(now + Pause(run.task.timeout)))];
    }

    method WaitReturns(r: nat, ok: bool)
      requires Enabled(Value(), Process(r, Exit(ok)))
      modifies this
      ensures Value() == Apply(old(Value()), Process(r, Exit(ok)))
    {
      var ret := CL_ERROR;
      if ok {
        ret := CL_OK;
      }
      runs := runs[r := runs[r].(proc := Exited(ret))];
    }

    method StopTimeout(r: nat)
      requires Enabled(Value(), Process(r, CancelTimeout))
      modifies this
      ensures Value() == Apply(old(Value()), Process(r, CancelTimeout))
    {
      var run := runs[r];
      if run.timeout.Ticking? {
        run := run.(timeout := Cancelled);
      }
      runs := runs[r := run.(proc := Reaped(run.proc.ret))];
    }

    method CountRun(r: nat)
      requires Enabled(Value(), Process(r, ReadCount))
      modifies this
      ensures Value() == Apply(old(Value()), Process(r, ReadCount))
    {
      var count := execrscmap.GetCount(runs[r].task.rscid);
      runs := runs[r := runs[r].(proc := Counted(runs[r].proc.ret, count))];
    }

    method SendFinished(r: nat)
      requires Enabled(Value(), Process(r, Finish))
      modifies this
      ensures Value() == Apply(old(Value()), Process(r, Finish))
    {
      var run := runs[r];
      var res := Result(run.task, run.pid, run.proc.ret, run.proc.count);
      runs := runs[r := run.(proc := Gone, fin := run.fin + [res])];
    }

    method TimeoutFires(r: nat)
      requires Enabled(Value(), Process(r, Expire))
      modifies this
      ensures Value() == Apply(old(Value()), Process(r, Expire))
    {
      runs := runs[r := runs[r].(timeout := Expired)];
    }

    method SendTimedOut(r: nat)
      requires Enabled(Value(), Process(r, SendTimeout))
      modifies this
      ensures Value() == Apply(old(Value()), Process(r, SendTimeout))
    {
      var run := runs[r];
      runs := runs[r := run.(timeout := Sent, late := run.late + [Result(run.task, run.pid, CL_ERROR, 0)])];
    }
  }
}
