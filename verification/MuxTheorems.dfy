/**
 The multiplexer's promises: hand-over, single wake-up and conservation over every run whatsoever, numbers,
 registration and routing over every run in which callers and server are orderly.
 */
module MuxTheorems {
  import opened Ints
  import opened Options
  import opened Mux
  import opened MuxInvariants
  import opened MuxAlways

  /** Reachable, whatever callers and server do. */
  ghost predicate Reachable(s: State) {
    exists es :: Runs(INIT, es) && After(INIT, es) == s
  }

  lemma ReachableAlways(s: State)
    requires Reachable(s)
    ensures Always(s)
  {
    var es :| Runs(INIT, es) && After(INIT, es) == s;
    AlwaysInit();
    AlwaysRun(INIT, es);
  }

  /** Reachable while callers and server are orderly. */
  ghost predicate ReachableInOrder(s: State) {
    exists es :: Runs(INIT, es) && AllOrderly(INIT, es) && After(INIT, es) == s
  }

  lemma ReachableInv(s: State)
    requires ReachableInOrder(s)
    ensures Inv(s)
  {
    var es :| Runs(INIT, es) && AllOrderly(INIT, es) && After(INIT, es) == s;
    InvInit();
    InvRun(INIT, es);
  }

  lemma InOrderIsReachable(s: State)
    requires ReachableInOrder(s)
    ensures Reachable(s)
  {
  }

  lemma {:induction false} OrderlySnoc(s: State, es: seq<Event>, e: Event)
    requires Runs(s, es) && AllOrderly(s, es) && Allowed(After(s, es), e)
    ensures Runs(s, es + [e]) && AllOrderly(s, es + [e]) && After(s, es + [e]) == Apply(After(s, es), e)
    decreases es
  {
    if es == [] {
      assert es + [e] == [e];
      assert [e][1..] == [] && After(Apply(s, e), []) == Apply(s, e);
    } else {
      OrderlySnoc(Apply(s, es[0]), es[1..], e);
      assert (es + [e])[1..] == es[1..] + [e];
    }
  }

  lemma InOrderNext(s: State, e: Event)
    requires ReachableInOrder(s) && Allowed(s, e)
    ensures ReachableInOrder(Apply(s, e))
  {
    var es :| Runs(INIT, es) && AllOrderly(INIT, es) && After(INIT, es) == s;
    OrderlySnoc(INIT, es, e);
  }

  /** Every number handed out is the law's, and no two callers that are still using theirs have the same. */
  lemma NumbersInUseDiffer(s: State, c: nat, d: nat)
    requires ReachableInOrder(s) && c in s.calls && d in s.calls && Live(s, c) && Live(s, d)
    ensures s.calls[c].seqno == (c - 1) % MAX_UINT64 + 1
    ensures c != d ==> s.calls[c].seqno != s.calls[d].seqno
  {
    ReachableInv(s);
    NumberIs(c);
    if c != d {
      LiveNumbersDiffer(s, c, d);
    }
  }

  /** The loop's hand-over never blocks: the caller it has picked is waiting for it. */
  lemma HandOverHasAReceiver(s: State)
    requires Reachable(s) && s.loop.Handing?
    ensures Enabled(s, HandOver)
    ensures s.loop.msg.head.seqno == s.calls[s.loop.call].seqno
  {
    ReachableAlways(s);
  }

  /** When the loop takes a request from call_send_ch its number is free in sync_map, so the caller gets registered. */
  lemma RegistrationSucceeds(s: State)
    requires ReachableInOrder(s) && Enabled(s, LoopSend) && s.call_send_ch[0].sch.Some?
    ensures s.call_send_ch[0].seqno !in s.sync_map
    ensures Registered(Apply(s, LoopSend).calls, Apply(s, LoopSend).sync_map, s.call_send_ch[0].sch.value)
  {
    ReachableInv(s);
    assert QueuedAt(s.call_send_ch, 0, s.call_send_ch[0].sch.value);
  }

  lemma RegisteredWhenDelivered(s: State, c: nat)
    requires Wired(s) && c in s.calls && Delivered(s, c) && s.calls[c].phase == Sent
    ensures Registered(s.calls, s.sync_map, c) || HandingTo(s.loop, c)
  {
    assert forall i :: 0 <= i < |s.call_send_ch| ==> s.call_send_ch[i].msg.head.seqno != s.calls[c].seqno;
    assert InPhaseSent(s.calls, c);
  }

  /** A blocked caller whose request has reached the server is registered, or is just being woken. */
  lemma NoReplyOvertakesRegistration(s: State, c: nat)
    requires ReachableInOrder(s) && c in s.calls && Delivered(s, c) && s.calls[c].phase == Sent
    ensures Registered(s.calls, s.sync_map, c) || HandingTo(s.loop, c)
  {
    ReachableInv(s);
    RegisteredWhenDelivered(s, c);
  }

  /**
   What the loop does with a reply: number 0 goes to the asynchronous queue.  Any other number belongs to
   exactly one call in use; the reply wakes that call if it is still blocked in SendRecv, and goes to the
   asynchronous queue if it has been woken before.
   */
  lemma RepliesAreRouted(s: State) returns (c: nat)
    requires ReachableInOrder(s) && Enabled(s, LoopRecv)
    ensures var m := s.rcv_read_ch[0]; var d := Routed(s).incoming[|s.incoming|];
      d.msg == m &&
      (m.head.seqno == 0 ==> d.to == None) &&
      (m.head.seqno != 0 ==>
        c in s.calls && Delivered(s, c) && s.calls[c].seqno == m.head.seqno &&
        (forall b :: b in s.calls && Live(s, b) && s.calls[b].seqno == m.head.seqno ==> b == c) &&
        d.to == if s.calls[c].phase == Sent then Some(c) else None)
  {
    ReachableInv(s);
    var m := s.rcv_read_ch[0];
    var n := m.head.seqno;
    assert Causal(s, m);
    if n == 0 {
      c := 0;
      if n in s.sync_map {
        NumberNotZero(s, s.sync_map[n]);
      }
    } else {
      c :| c in s.calls && Delivered(s, c) && s.calls[c].seqno == n;
      forall b | b in s.calls && Live(s, b) && s.calls[b].seqno == n ensures b == c {
        if b != c {
          LiveNumbersDiffer(s, b, c);
        }
      }
      if s.calls[c].phase == Sent {
        NoReplyOvertakesRegistration(s, c);
      }
    }
  }

  /** Every caller is woken at most once, by a reply with its own number. */
  lemma WokenOnceByItsOwnReply(s: State, i: nat, j: nat)
    requires Reachable(s) && i < |s.incoming| && j < |s.incoming| && s.incoming[i].to.Some?
    ensures s.incoming[i].to.value in s.calls && s.calls[s.incoming[i].to.value].seqno == s.incoming[i].msg.head.seqno
    ensures s.incoming[j].to == s.incoming[i].to ==> i == j
  {
    ReachableAlways(s);
  }

  /**
   Every message read is on ipcrecv_ch, in the loop's hands or with the caller it woke, exactly once; and
   the asynchronous ones are queued in the order they were read.
   */
  lemma NothingIsLost(s: State)
    requires Reachable(s)
    ensures multiset(s.incoming) == multiset(s.placed) + multiset(InLoop(s.loop)) + multiset(Held(s.calls))
    ensures AsyncOf(s.placed) <= AsyncOf(s.incoming)
    ensures s.loop == Idle && Held(s.calls) == {} ==> multiset(s.incoming) == multiset(s.placed)
  {
    ReachableAlways(s);
    assert AsyncOf(s.placed) <= AsyncOf(s.placed) + AsyncOf(InLoop(s.loop));
  }
}
