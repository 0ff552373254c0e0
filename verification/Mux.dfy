/**
 The RPC multiplexer of an IPC client (ipcc/ipcc.go) as a step system: callers of SendRecv and
 SendRecvAsync, the receiver and sender goroutines and the event loop of Run.
 */
module Mux {
  import opened Ints
  import opened Messages
  import opened Options

  const QUEUE_CAPACITY := 12

  // ---- sequence numbers

  function NextSeqno(n: uint64): uint64 {
    (if n == MAX_UINT64 then 0 else n) + 1
  }

  /** What the k-th GetSeqno of a fresh client returns; 0 before the first. */
  function Number(k: nat): uint64 {
    if k == 0 then 0 else NextSeqno(Number(k - 1))
  }

  // ---- the state

  /** Where a synchronous call is. */
  datatype Phase =
    | Numbered                  // GetSeqno has returned
    | Sent                      // in SendRecv: put into call_send_ch, not woken yet
    | Holding(reply: Message)   // woken, about to pass the reply on to ipcrecv_ch
    | Returned
    | Done                   // returned, and its number will not be answered any more

  datatype Call = Call(seqno: uint64, phase: Phase)

  datatype SendInfo = SendInfo(seqno: uint64, msg: Message, sch: Option<nat>)

  datatype Loop =
    | Idle
    | Writing(msg: Message)             // before snd_write_ch <- _w.msg
    | Handing(call: nat, msg: Message)  // before _v <- ..., the caller's channel
    | Queuing(msg: Message)             // before ipcrecv_ch <- ...

  /** A message read by the loop, and the caller it goes to; None for the asynchronous queue. */
  datatype Delivery = Delivery(msg: Message, to: Option<nat>)

  datatype State = State(
    count: nat,                       // how often GetSeqno has been called; call k is its k-th caller
    seqno: uint64,
    sync_map: map<uint64, nat>,       // a channel is named by the call that waits on it
    call_send_ch: seq<SendInfo>,
    snd_write_ch: seq<Message>,
    rcv_read_ch: seq<Message>,
    ipcrecv_ch: seq<Message>,
    loop: Loop,
    calls: map<nat, Call>,
    incoming: seq<Delivery>,          // every message the loop has read
    placed: seq<Delivery>)            // every message ever put into ipcrecv_ch

  datatype Event =
    | GetNumber
    | Enqueue(call: nat, msg: Message)
    | EnqueueAsync(msg: Message)
    | LoopSend
    | LoopWrite
    | SenderWrite
    | ReceiverRead(msg: Message)
    | LoopRecv
    | HandOver
    | LoopQueue
    | CallerPush(call: nat)
    | Consume
    | Settle(call: nat)

  const INIT: State := State(0, 0, map[], [], [], [], [], Idle, map[], [], [])

  /** _setSyncMap: an existing key is kept. */
  function SetSyncMap(sync_map: map<uint64, nat>, w: SendInfo): map<uint64, nat> {
    if w.sch.Some? && w.seqno !in sync_map then sync_map[w.seqno := w.sch.value] else sync_map
  }

  /** The message is somewhere between call_send_ch and the socket. */
  predicate Leaving(s: State, n: uint64) {
    (exists i :: 0 <= i < |s.call_send_ch| && s.call_send_ch[i].msg.head.seqno == n) ||
    (s.loop.Writing? && s.loop.msg.head.seqno == n) ||
    (exists i :: 0 <= i < |s.snd_write_ch| && s.snd_write_ch[i].head.seqno == n)
  }

  /** A call's number is in use until the call is settled. */
  predicate Live(s: State, c: nat) {
    c in s.calls && s.calls[c].phase != Done
  }

  /** The request of call c has reached the server. */
  predicate Delivered(s: State, c: nat) {
    Live(s, c) && s.calls[c].phase != Numbered && !Leaving(s, s.calls[c].seqno)
  }

  /** The server only answers requests it has been sent: a reply is numbered 0, or with a delivered call's number. */
  predicate Causal(s: State, m: Message) {
    m.head.seqno == 0 || exists c :: c in s.calls && Delivered(s, c) && s.calls[c].seqno == m.head.seqno
  }

  /** No reply with the number is on its way to the loop or in its hands. */
  predicate Unanswered(s: State, n: uint64) {
    (forall i :: 0 <= i < |s.rcv_read_ch| ==> s.rcv_read_ch[i].head.seqno != n) &&
    (s.loop.Queuing? || s.loop.Handing? ==> s.loop.msg.head.seqno != n)
  }

  /** Every number in use was handed out in one of the last 2^64 - 2 calls of GetSeqno. */
  predicate Window(s: State) {
    forall c :: c in s.calls && Live(s, c) ==> s.count < c + MAX_UINT64 - 1
  }

  predicate Enabled(s: State, e: Event) {
    match e
    case GetNumber => true
    case Enqueue(c, _) => c in s.calls && s.calls[c].phase == Numbered && |s.call_send_ch| < QUEUE_CAPACITY
    case EnqueueAsync(_) => |s.call_send_ch| < QUEUE_CAPACITY
    case LoopSend => s.loop == Idle && s.call_send_ch != []
    case LoopWrite => s.loop.Writing? && |s.snd_write_ch| < QUEUE_CAPACITY
    case SenderWrite => s.snd_write_ch != []
    case ReceiverRead(_) => |s.rcv_read_ch| < QUEUE_CAPACITY
    case LoopRecv => s.loop == Idle && s.rcv_read_ch != []
    case HandOver => s.loop.Handing? && s.loop.call in s.calls && s.calls[s.loop.call].phase == Sent
    case LoopQueue => s.loop.Queuing? && |s.ipcrecv_ch| < QUEUE_CAPACITY
    case CallerPush(c) => c in s.calls && s.calls[c].phase.Holding? && |s.ipcrecv_ch| < QUEUE_CAPACITY
    case Consume => s.ipcrecv_ch != []
    case Settle(c) => c in s.calls && s.calls[c].phase == Returned && Unanswered(s, s.calls[c].seqno)
  }

  /**
   What the multiplexer relies on: callers draw numbers within the window and put their own number - or 0,
   if they do not wait - into the message's header, and the server only answers what it has been sent.
   */
  predicate Orderly(s: State, e: Event) {
    match e
    case GetNumber => Window(s)
    case Enqueue(c, m) => c in s.calls && m.head.seqno == s.calls[c].seqno
    case EnqueueAsync(m) => m.head.seqno == 0
    case ReceiverRead(m) => Causal(s, m)
    case _ => true
  }

  predicate Allowed(s: State, e: Event) {
    Enabled(s, e) && Orderly(s, e)
  }

  function SetPhase(s: State, c: nat, phase: Phase): State
    requires c in s.calls
  {
    s.(calls := s.calls[c := s.calls[c].(phase := phase)])
  }

  /** The loop has taken a message from rcv_read_ch. */
  function Routed(s: State): State
    requires Enabled(s, LoopRecv)
  {
    var m := s.rcv_read_ch[0];
    var n := m.head.seqno;
    s.(rcv_read_ch := s.rcv_read_ch[1..],
       sync_map := s.sync_map - {n},
       loop := if n in s.sync_map then Handing(s.sync_map[n], m) else Queuing(m),
       incoming := s.incoming + [Delivery(m, if n in s.sync_map then Some(s.sync_map[n]) else None)])
  }

  function Apply(s: State, e: Event): State
    requires Enabled(s, e)
  {
    match e
    case GetNumber =>
      var n := NextSeqno(s.seqno);
      s.(count := s.count + 1, seqno := n, calls := s.calls[s.count + 1 := Call(n, Numbered)])
    case Enqueue(c, m) =>
      SetPhase(s.(call_send_ch := s.call_send_ch + [SendInfo(s.calls[c].seqno, m, Some(c))]), c, Sent)
    case EnqueueAsync(m) => s.(call_send_ch := s.call_send_ch + [SendInfo(0, m, None)])
    case LoopSend =>
      var w := s.call_send_ch[0];
      s.(call_send_ch := s.call_send_ch[1..], sync_map := SetSyncMap(s.sync_map, w), loop := Writing(w.msg))
    case LoopWrite => s.(snd_write_ch := s.snd_write_ch + [s.loop.msg], loop := Idle)
    case SenderWrite => s.(snd_write_ch := s.snd_write_ch[1..])
    case ReceiverRead(m) => s.(rcv_read_ch := s.rcv_read_ch + [m])
    case LoopRecv => Routed(s)
    case HandOver => SetPhase(s.(loop := Idle), s.loop.call, Holding(s.loop.msg))
    case LoopQueue =>
      s.(ipcrecv_ch := s.ipcrecv_ch + [s.loop.msg], placed := s.placed + [Delivery(s.loop.msg, None)], loop := Idle)
    case CallerPush(c) =>
      var m := s.calls[c].phase.reply;
      SetPhase(s.(ipcrecv_ch := s.ipcrecv_ch + [m], placed := s.placed + [Delivery(m, Some(c))]), c, Returned)
    case Consume => s.(ipcrecv_ch := s.ipcrecv_ch[1..])
    case Settle(c) => SetPhase(s, c, Done)
  }

  /** Whatever callers and server do. */
  predicate Runs(s: State, es: seq<Event>)
    decreases es
  {
    es == [] || (Enabled(s, es[0]) && Runs(Apply(s, es[0]), es[1..]))
  }

  function After(s: State, es: seq<Event>): State
    requires Runs(s, es)
    decreases es
  {
    if es == [] then s else After(Apply(s, es[0]), es[1..])
  }

  /** Every step of the run is orderly. */
  predicate AllOrderly(s: State, es: seq<Event>)
    requires Runs(s, es)
    decreases es
  {
    es == [] || (Orderly(s, es[0]) && AllOrderly(Apply(s, es[0]), es[1..]))
  }

  // ---- the number laws

  lemma Remainder(x: int, q: int, r: int)
    requires x == q * MAX_UINT64 + r && 0 <= r < MAX_UINT64
    ensures x % MAX_UINT64 == r
  {
    var d := x / MAX_UINT64 - q;
    assert x == x / MAX_UINT64 * MAX_UINT64 + x % MAX_UINT64;
    assert d * MAX_UINT64 == r - x % MAX_UINT64;
    assert d == 0;
  }

  lemma {:induction false} NumberIs(k: nat)
    requires k > 0
    ensures Number(k) == (k - 1) % MAX_UINT64 + 1
  {
    if k > 1 {
      NumberIs(k - 1);
      var q, r := (k - 2) / MAX_UINT64, (k - 2) % MAX_UINT64;
      if r + 1 == MAX_UINT64 {
        Remainder(k - 1, q + 1, 0);
      } else {
        Remainder(k - 1, q, r + 1);
      }
    }
  }

  /** Two calls get the same number exactly when they are a multiple of 2^64 - 1 apart. */
  lemma SameNumber(j: nat, k: nat)
    requires 0 < j <= k
    ensures Number(j) == Number(k) <==> (k - j) % MAX_UINT64 == 0
    ensures Number(k) != 0
  {
    NumberIs(j);
    NumberIs(k);
    var r, t := (j - 1) % MAX_UINT64, (k - 1) % MAX_UINT64;
    var q := (k - 1) / MAX_UINT64 - (j - 1) / MAX_UINT64;
    if t >= r {
      Remainder(k - j, q, t - r);
    } else {
      Remainder(k - j, q - 1, t - r + MAX_UINT64);
    }
  }
}
