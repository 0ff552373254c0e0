/** The resource manager's table of the last operation on each resource (rmanager/rman.go, Execrsc and ExecrscMap). */
module Records {
  import opened Ints
  import opened Options

  /** One operation record; the same fields are the report sent about a finished agent. */
  datatype Execrsc = Execrsc(seqno: uint64, rscid: int, pid: int, rsc: string, param: seq<string>,
                             op: string, ret: int, tm: Option<nat>, count: int, terminate: bool)

  type Table = map<int, Execrsc>

  function NewExecrsc(seqno: uint64, rscid: int, pid: int, rsc: string, param: seq<string>,
                      op: string, ret: int, tm: Option<nat>, count: int): Execrsc
  {
    Execrsc(seqno, rscid, pid, rsc, param, op, ret, tm, count, false)
  }

  predicate Stopped(table: Table, rscid: int) {
    rscid in table && table[rscid].op == "stop"
  }

  predicate Terminated(table: Table, rscid: int) {
    rscid in table && table[rscid].terminate
  }

  function Count(table: Table, rscid: int): int {
    if rscid in table then table[rscid].count else 0
  }

  function MarkTerminated(table: Table, rscid: int, op: string): Table {
    if op == "stop" && rscid in table then table[rscid := table[rscid].(terminate := true)] else table
  }

  /** The timer a stop request cancels: the one the record names, if any. */
  function TimerToStop(table: Table, rscid: int, op: string): Option<nat> {
    if op == "stop" && rscid in table then table[rscid].tm else None
  }

  class ExecrscMap {
    var onRsc: Table

    constructor ()
      ensures onRsc == map[]
    {
      onRsc := map[];
    }

    method RecordRscOp(seqno: uint64, rscid: int, pid: int, rsc: string, param: seq<string>,
                       op: string, ret: int, tm: Option<nat>, count: int)
      modifies this
      ensures onRsc == old(onRsc)[rscid := NewExecrsc(seqno, rscid, pid, rsc, param, op, ret, tm, count)]
    {
      var r := NewExecrsc(seqno, rscid, pid, rsc, param, op, ret, tm, count);
      onRsc := onRsc[rscid := r];
    }

    method SetRscTerminate(rscid: int, op: string)
      modifies this
      ensures onRsc == MarkTerminated(old(onRsc), rscid, op)
    {
      if op == "stop" {
        if rscid in onRsc {
          onRsc := onRsc[rscid := onRsc[rscid].(terminate := true)];
        }
      }
    }

    method IsRscTerminate(rscid: int) returns (r: bool)
      ensures r <==> Terminated(onRsc, rscid)
    {
      if rscid in onRsc {
        var e := onRsc[rscid];
        if e.terminate {
          return true;
        }
      }
      return false;
    }

    method IsRscStop(rscid: int) returns (r: bool)
      ensures r <==> Stopped(onRsc, rscid)
    {
      if rscid in onRsc {
        var e := onRsc[rscid];
        if e.op == "stop" {
          return true;
        }
      }
      return false;
    }

    /** Names the timer that Stop is called on. */
    method StopTimer(rscid: int, op: string) returns (tm: Option<nat>)
      ensures tm == TimerToStop(onRsc, rscid, op)
    {
      tm := None;
      if op == "stop" {
        if rscid in onRsc {
          tm := onRsc[rscid].tm;
        }
      }
    }

    method GetCount(rscid: int) returns (c: int)
      ensures c == Count(onRsc, rscid)
    {
      c := 0;
      if rscid in onRsc {
        c := onRsc[rscid].count;
      }
    }
  }
}
