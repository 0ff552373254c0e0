/** What every step of the multiplexer keeps, whatever callers and server do. */
module MuxAlways {
  import opened Ints
  import opened Messages
  import opened Options
  import opened Mux
  import opened MuxInvariants

  /** A queued caller is inside SendRecv, once in the queue, and neither registered nor being handed its reply. */
  ghost predicate QueuedOnce(q: seq<SendInfo>, calls: map<nat, Call>, sync_map: map<uint64, nat>, loop: Loop) {
    (forall i, c :: QueuedAt(q, i, c) ==>
      InPhaseSent(calls, c) && q[i].seqno == calls[c].seqno && !Registered(calls, sync_map, c) &&
      !HandingTo(loop, c)) &&
    (forall i, j, c :: QueuedAt(q, i, c) && QueuedAt(q, j, c) ==> i == j)
  }

  ghost predicate Linked(s: State) {
    QueuedOnce(s.call_send_ch, s.calls, s.sync_map, s.loop) && MapOk(s.calls, s.sync_map, s.loop) &&
    HandOk(s.calls, s.loop)
  }

  lemma LinkedEnqueue(s: State, c: nat, m: Message)
    requires Linked(s) && Enabled(s, Enqueue(c, m))
    ensures Linked(Apply(s, Enqueue(c, m)))
  {
    var q, q' := s.call_send_ch, Apply(s, Enqueue(c, m)).call_send_ch;
    assert forall i, d :: QueuedAt(q', i, d) ==> QueuedAt(q, i, d) || (i == |q| && d == c);
  }

  lemma LinkedEnqueueAsync(s: State, m: Message)
    requires Linked(s) && Enabled(s, EnqueueAsync(m))
    ensures Linked(Apply(s, EnqueueAsync(m)))
  {
    var q, q' := s.call_send_ch, Apply(s, EnqueueAsync(m)).call_send_ch;
    assert forall i, d: nat :: QueuedAt(q', i, d) <==> QueuedAt(q, i, d);
  }

  lemma LinkedLoopSend(s: State)
    requires Linked(s) && Enabled(s, LoopSend)
    ensures Linked(Apply(s, LoopSend))
  {
    var q, q' := s.call_send_ch, Apply(s, LoopSend).call_send_ch;
    assert forall i, d: nat :: QueuedAt(q', i, d) <==> QueuedAt(q, i + 1, d) && i >= 0;
    if q[0].sch.Some? {
      assert QueuedAt(q, 0, q[0].sch.value);
    }
  }

  lemma LinkedLoopRecv(s: State)
    requires Linked(s) && Enabled(s, LoopRecv)
    ensures Linked(Routed(s))
  {
    var s', n := Routed(s), s.rcv_read_ch[0].head.seqno;
    if n in s.sync_map {
      assert Registered(s.calls, s.sync_map, s.sync_map[n]);
      forall k | k in s'.sync_map ensures s'.sync_map[k] != s.sync_map[n] {
        assert s.calls[s.sync_map[n]].seqno == n && s.calls[s.sync_map[k]].seqno == k;
      }
    }
  }

  lemma LinkedCall(s: State, c: nat, call: Call)
    requires Linked(s) && !InPhaseSent(s.calls, c) && call.phase != Sent && !call.phase.Holding?
    ensures Linked(s.(calls := s.calls[c := call]))
  {
  }

  lemma LinkedStep(s: State, e: Event)
    requires Counted(s) && Linked(s) && Enabled(s, e)
    ensures Linked(Apply(s, e))
  {
    match e
    case GetNumber => LinkedCall(s, s.count + 1, Call(NextSeqno(s.seqno), Numbered));
    case Enqueue(c, m) => LinkedEnqueue(s, c, m);
    case EnqueueAsync(m) => LinkedEnqueueAsync(s, m);
    case LoopSend => LinkedLoopSend(s);
    case LoopRecv => LinkedLoopRecv(s);
    case CallerPush(c) => LinkedCall(s, c, s.calls[c].(phase := Returned));
    case Settle(c) => LinkedCall(s, c, s.calls[c].(phase := Done));
    case _ =>
  }

  ghost predicate Always(s: State) {
    Counted(s) && Linked(s) && Conserved(s) && Ordered(s) && Matched(s)
  }

  lemma AlwaysStep(s: State, e: Event)
    requires Always(s) && Enabled(s, e)
    ensures Always(Apply(s, e))
  {
    LinkedStep(s, e);
    ConservedStep(s, e);
    OrderedStep(s, e);
    MatchedStep(s, e);
  }

  lemma {:induction false} AlwaysRun(s: State, es: seq<Event>)
    requires Always(s) && Runs(s, es)
    ensures Always(After(s, es))
    decreases es
  {
    if es != [] {
      AlwaysStep(s, es[0]);
      AlwaysRun(Apply(s, es[0]), es[1..]);
    }
  }

  lemma AlwaysInit()
    ensures Always(INIT)
  {
    assert Held(INIT.calls) == {};
  }
}
