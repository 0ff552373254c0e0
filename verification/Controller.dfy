/**
 The controller object (controller/main.go, controller/control.go), calling its IPC client.  Each method is
 what the dispatcher goroutine does between two sends and is proved to be one step of System.
 */
module Controllers {
  import opened Messages
  import opened System
  import Engine
  import Mux
  import IpcClients

  /** The rest of the system, which the controller does not touch. */
  datatype Network = Network(toServer: seq<Message>, toClient: seq<Message>, known: bool, engine: Engine.State,
    lost: nat)

  class Controll {
    var starting: bool
    var status: int
    var status_ch: seq<int>
    var nodeid: int
    var step: nat
    var ctl: Ctl
    const rmanConnect: IpcClients.IpcClientController
    ghost var sent: seq<Message>
    ghost var answered: seq<Message>
    ghost var ops: nat

    ghost function Value(net: Network): State
      reads this, rmanConnect
    {
      State(starting, status, status_ch, nodeid, step, ctl, rmanConnect.Value(), net.toServer, net.toClient,
            net.known, net.engine, sent, answered, ops, net.lost)
    }

    constructor ()
      ensures Value(Network([], [], false, Engine.INIT, 0)) == INIT && fresh(rmanConnect)
    {
      rmanConnect := new IpcClients.IpcClientController();
      starting, status, status_ch, nodeid, step, ctl := true, STARTUP, [], 0, 1, Polling;
      sent, answered, ops := [], [], 0;
    }

    /** ProcessRun, before it waits for the exit channel. */
    method ProcessRun(ghost net: Network)
      requires Enabled(Value(net), Main)
      modifies this
      ensures Value(net) == Apply(old(Value(net)), Main)
    {
      starting := false;
      status_ch := status_ch + [STARTUP];
    }

    method SetNodeid(id: int, ghost net: Network)
      requires Enabled(Value(net), SetNode(id))
      modifies this
      ensures Value(net) == Apply(old(Value(net)), SetNode(id))
    {
      if nodeid == 0 {
        nodeid := id;
      }
    }

    /** sends: a request is on its way into SendRecv; otherwise there is nothing left to do. */
    method ResourceControl() returns (sends: bool)
      modifies this`ctl, rmanConnect
      ensures sends <==> step == 1 || step == 2
      ensures !sends ==> ctl == old(ctl) && rmanConnect.Value() == old(rmanConnect.Value())
      ensures sends ==>
        rmanConnect.Value() == Mux.Apply(old(rmanConnect.Value()), Mux.GetNumber) &&
        ctl == Calling(rmanConnect.count, RequestOf(step, rmanConnect.seqno))
    {
      if step == 1 || step == 2 {
        var seqno := rmanConnect.GetSeqno();
        ctl := Calling(rmanConnect.count, RequestOf(step, seqno));
        sends := true;
      } else {
        sends := false;
      }
    }

    method ProcessStatus(ghost net: Network)
      requires Enabled(Value(net), TakeStatus)
      modifies this, rmanConnect
      ensures Value(net) == Apply(old(Value(net)), TakeStatus)
    {
      var v := status_ch[0];
      status_ch := status_ch[1..];
      if v == STARTUP {
        status := ALL_CLIENT_UP;
        ctl := Greeting;
      } else if v == CONTROL_RESOURCE {
        var sends := ResourceControl();
        if !sends {
          ctl := Posting(OPERATIONAL);
        }
      } else if v == OPERATIONAL {
        ops := ops + 1;
      }
    }

    method SendHello(ghost net: Network)
      requires Enabled(Value(net), Greet)
      modifies this, rmanConnect
      ensures Value(net) == Apply(old(Value(net)), Greet)
    {
      rmanConnect.SendRecvAsync(HELLO);
      ctl := Polling;
    }

    method SendRequest(ghost net: Network)
      requires Enabled(Value(net), Call)
      modifies this, rmanConnect
      ensures Value(net) == Apply(old(Value(net)), Call)
    {
      rmanConnect.SendRecvCall(ctl.call, ctl.msg);
      sent := sent + [ctl.msg];
      ctl := Blocked(ctl.call);
    }

    /** SendRecv returns to _resourceControl, which moves on to its next step. */
    method SendRecvReturns(ghost net: Network)
      requires Enabled(Value(net), Return)
      modifies this, rmanConnect
      ensures Value(net) == Apply(old(Value(net)), Return)
    {
      answered := answered + [rmanConnect.calls[ctl.call].phase.reply];
      rmanConnect.SendRecvReturn(ctl.call);
      step := step + 1;
      ctl := Polling;
    }

    method ProcessIpcClientMessage(ghost net: Network)
      requires Enabled(Value(net), TakeMessage)
      modifies this, rmanConnect
      ensures Value(net) == Apply(old(Value(net)), TakeMessage)
    {
      var m := rmanConnect.TakeReceived();
      if m.head.types == MESSAGE_ID_RESOUCE_RESPONSE {
        ctl := Posting(CONTROL_RESOURCE);
      } else if m.head.types == MESSAGE_ID_HELLO {
        if nodeid != 0 {
          ctl := Posting(CONTROL_RESOURCE);
        } else {
          ctl := Posting(STARTUP);
        }
      }
    }

    method PostStatus(ghost net: Network)
      requires Enabled(Value(net), Post)
      modifies this
      ensures Value(net) == Apply(old(Value(net)), Post)
    {
      status_ch := status_ch + [ctl.status];
      ctl := Polling;
    }
  }
}
