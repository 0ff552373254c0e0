/**
 The IPC client object (ipcc/ipcc.go).  Each method is one atomic section of the code it is named after and
 is proved to be one step of Mux.
 */
module IpcClients {
  import opened Ints
  import opened Messages
  import opened Options
  import opened Mux

  class IpcClientController {
    var count: nat
    var seqno: uint64
    var sync_map: map<uint64, nat>
    var call_send_ch: seq<SendInfo>
    var snd_write_ch: seq<Message>
    var rcv_read_ch: seq<Message>
    var ipcrecv_ch: seq<Message>
    var loop: Loop
    var calls: map<nat, Call>
    ghost var incoming: seq<Delivery>
    ghost var placed: seq<Delivery>

    ghost function Value(): State
      reads this
    {
      State(count, seqno, sync_map, call_send_ch, snd_write_ch, rcv_read_ch, ipcrecv_ch, loop, calls, incoming, placed)
    }

    constructor ()
      ensures Value() == INIT
    {
      count, seqno, sync_map, calls := 0, 0, map[], map[];
      call_send_ch, snd_write_ch, rcv_read_ch, ipcrecv_ch := [], [], [], [];
      loop, incoming, placed := Idle, [], [];
    }

    method GetSeqno() returns (n: uint64)
      requires Enabled(Value(), GetNumber)
      modifies this
      ensures Value() == Apply(old(Value()), GetNumber)
      ensures n == seqno
    {
      if seqno == MAX_UINT64 {
        seqno := 0;
      }
      seqno := seqno + 1;
      count := count + 1;
      calls := calls[count := Call(seqno, Numbered)];
      n := seqno;
    }

    method SetSyncMapEntry(w: SendInfo)
      modifies this`sync_map
      ensures sync_map == SetSyncMap(old(sync_map), w)
    {
      if w.sch != None {
        if w.seqno !in sync_map {
          sync_map := sync_map[w.seqno := w.sch.value];
        }
      }
    }

    method RemoveSyncMap(n: uint64)
      modifies this`sync_map
      ensures sync_map == old(sync_map) - {n}
    {
      sync_map := sync_map - {n};
    }

    method SendRecvAsync(m: Message)
      requires Enabled(Value(), EnqueueAsync(m))
      modifies this
      ensures Value() == Apply(old(Value()), EnqueueAsync(m))
    {
      call_send_ch := call_send_ch + [SendInfo(0, m, None)];
    }

    /** SendRecv up to the wait on its own channel. */
    method SendRecvCall(c: nat, m: Message)
      requires Enabled(Value(), Enqueue(c, m))
      modifies this
      ensures Value() == Apply(old(Value()), Enqueue(c, m))
    {
      call_send_ch := call_send_ch + [SendInfo(calls[c].seqno, m, Some(c))];
      calls := calls[c := calls[c].(phase := Sent)];
    }

    /** SendRecv from its wake-up on. */
    method SendRecvReturn(c: nat)
      requires Enabled(Value(), CallerPush(c))
      modifies this
      ensures Value() == Apply(old(Value()), CallerPush(c))
    {
      var m := calls[c].phase.reply;
      ipcrecv_ch := ipcrecv_ch + [m];
      placed := placed + [Delivery(m, Some(c))];
      calls := calls[c := calls[c].(phase := Returned)];
    }

    /** The event loop takes a message from rcv_read_ch. */
    method RunReceive()
      requires Enabled(Value(), LoopRecv)
      modifies this
      ensures Value() == Apply(old(Value()), LoopRecv)
    {
      var m := rcv_read_ch[0];
      rcv_read_ch := rcv_read_ch[1..];
      if m.head.seqno in sync_map {
        var v := sync_map[m.head.seqno];
        RemoveSyncMap(m.head.seqno);
        loop := Handing(v, m);
        incoming := incoming + [Delivery(m, Some(v))];
      } else {
        loop := Queuing(m);
        incoming := incoming + [Delivery(m, None)];
      }
    }

    /** The loop and the caller meet on the caller's unbuffered channel. */
    method RunHandOver()
      requires Enabled(Value(), HandOver)
      modifies this
      ensures Value() == Apply(old(Value()), HandOver)
    {
      calls := calls[loop.call := calls[loop.call].(phase := Holding(loop.msg))];
      loop := Idle;
    }

    method RunQueue()
      requires Enabled(Value(), LoopQueue)
      modifies this
      ensures Value() == Apply(old(Value()), LoopQueue)
    {
      ipcrecv_ch := ipcrecv_ch + [loop.msg];
      placed := placed + [Delivery(loop.msg, None)];
      loop := Idle;
    }

    /** The event loop takes a request from call_send_ch. */
    method RunSend()
      requires Enabled(Value(), LoopSend)
      modifies this
      ensures Value() == Apply(old(Value()), LoopSend)
    {
      var w := call_send_ch[0];
      call_send_ch := call_send_ch[1..];
      SetSyncMapEntry(w);
      loop := Writing(w.msg);
    }

    method RunWrite()
      requires Enabled(Value(), LoopWrite)
      modifies this
      ensures Value() == Apply(old(Value()), LoopWrite)
    {
      snd_write_ch := snd_write_ch + [loop.msg];
      loop := Idle;
    }

    method Sender() returns (m: Message)
      requires Enabled(Value(), SenderWrite)
      modifies this
      ensures Value() == Apply(old(Value()), SenderWrite) && m == old(snd_write_ch)[0]
    {
      m := snd_write_ch[0];
      snd_write_ch := snd_write_ch[1..];
    }

    method Receiver(m: Message)
      requires Enabled(Value(), ReceiverRead(m))
      modifies this
      ensures Value() == Apply(old(Value()), ReceiverRead(m))
    {
      rcv_read_ch := rcv_read_ch + [m];
    }

    /** A receive on GetReceiveChannel. */
    method TakeReceived() returns (m: Message)
      requires Enabled(Value(), Consume)
      modifies this
      ensures Value() == Apply(old(Value()), Consume) && m == old(ipcrecv_ch)[0]
    {
      m := ipcrecv_ch[0];
      ipcrecv_ch := ipcrecv_ch[1..];
    }
  }
}
