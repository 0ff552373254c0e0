/** The multiplexer keeps the order of what passes through it (ipcc/ipcc.go), whatever callers and server do. */
module MuxOrder {
  import opened Messages
  import opened Mux
  import opened SystemInvariants

  // ---- what a step does

  /** The message given to SendRecv or SendRecvAsync. */
  ghost function GivenBy(e: Event): seq<Message> {
    match e
    case Enqueue(_, m) => [m]
    case EnqueueAsync(m) => [m]
    case _ => []
  }

  /** The message written to the socket. */
  ghost function WrittenBy(s: State, e: Event): seq<Message>
    requires Enabled(s, e)
  {
    if e.SenderWrite? then [s.snd_write_ch[0]] else []
  }

  /** The message read from the socket. */
  ghost function ReadBy(e: Event): seq<Message> {
    if e.ReceiverRead? then [e.msg] else []
  }

  /** The message taken from ipcrecv_ch. */
  ghost function ConsumedBy(s: State, e: Event): seq<Message>
    requires Enabled(s, e)
  {
    if e.Consume? then [s.ipcrecv_ch[0]] else []
  }

  ghost function MessagesOf(ds: seq<Delivery>): (r: seq<Message>) {
    seq(|ds|, i requires 0 <= i < |ds| => ds[i].msg)
  }

  /** Everything given, written, read and taken so far, oldest first. */
  datatype Passed = Passed(given: seq<Message>, written: seq<Message>, read: seq<Message>, consumed: seq<Message>)

  ghost function Next(p: Passed, s: State, e: Event): Passed
    requires Enabled(s, e)
  {
    Passed(p.given + GivenBy(e), p.written + WrittenBy(s, e), p.read + ReadBy(e), p.consumed + ConsumedBy(s, e))
  }

  ghost function PassedIn(p: Passed, s: State, es: seq<Event>): Passed
    requires Runs(s, es)
    decreases es
  {
    if es == [] then p else PassedIn(Next(p, s, es[0]), Apply(s, es[0]), es[1..])
  }

  // ---- what every step keeps

  ghost predicate Sorted(p: Passed, s: State) {
    Outbound(p.written, s) == p.given && MessagesOf(s.incoming) + s.rcv_read_ch == p.read &&
    p.consumed + s.ipcrecv_ch == MessagesOf(s.placed)
  }

  lemma ReadStep(read: seq<Message>, s: State, e: Event)
    requires Enabled(s, e) && MessagesOf(s.incoming) + s.rcv_read_ch == read
    ensures MessagesOf(Apply(s, e).incoming) + Apply(s, e).rcv_read_ch == read + ReadBy(e)
  {
    if e.LoopRecv? {
      assert MessagesOf(Routed(s).incoming) == MessagesOf(s.incoming) + [s.rcv_read_ch[0]];
    }
  }

  lemma PlacedStep(consumed: seq<Message>, s: State, e: Event)
    requires Enabled(s, e) && consumed + s.ipcrecv_ch == MessagesOf(s.placed)
    ensures consumed + ConsumedBy(s, e) + Apply(s, e).ipcrecv_ch == MessagesOf(Apply(s, e).placed)
  {
    var s' := Apply(s, e);
    if s'.placed != s.placed {
      assert MessagesOf(s'.placed) == MessagesOf(s.placed) + [s'.placed[|s.placed|].msg];
    }
  }

  lemma SortedStep(p: Passed, s: State, e: Event)
    requires Sorted(p, s) && Enabled(s, e)
    ensures Sorted(Next(p, s, e), Apply(s, e))
  {
    OutboundMux(p.written, s, e);
    assert e.SenderWrite? || p.written + WrittenBy(s, e) == p.written;
    ReadStep(p.read, s, e);
    PlacedStep(p.consumed, s, e);
  }

  lemma {:induction false} SortedRun(p: Passed, s: State, es: seq<Event>)
    requires Sorted(p, s) && Runs(s, es)
    ensures Sorted(PassedIn(p, s, es), After(s, es))
    decreases es
  {
    if es != [] {
      SortedStep(p, s, es[0]);
      SortedRun(Next(p, s, es[0]), Apply(s, es[0]), es[1..]);
    }
  }

  /**
   In every run the messages given to SendRecv and SendRecvAsync are those written to the socket, then those on
   their way there, in their order; those read from the socket are those the loop has taken, then those waiting
   for it; and those put into ipcrecv_ch are those taken from it, then those in it.
   */
  lemma OrderIsKept(es: seq<Event>)
    requires Runs(INIT, es)
    ensures var s, p := After(INIT, es), PassedIn(Passed([], [], [], []), INIT, es);
      p.given == p.written + s.snd_write_ch + (if s.loop.Writing? then [s.loop.msg] else []) +
        seq(|s.call_send_ch|, i requires 0 <= i < |s.call_send_ch| => s.call_send_ch[i].msg) &&
      p.read == seq(|s.incoming|, i requires 0 <= i < |s.incoming| => s.incoming[i].msg) + s.rcv_read_ch &&
      p.consumed + s.ipcrecv_ch == seq(|s.placed|, i requires 0 <= i < |s.placed| => s.placed[i].msg)
  {
    assert Sorted(Passed([], [], [], []), INIT);
    SortedRun(Passed([], [], [], []), INIT, es);
  }
}
