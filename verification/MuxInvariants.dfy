/** What every step of the multiplexer keeps: registration, hand-over, conservation. */
module MuxInvariants {
  import opened Ints
  import opened Messages
  import opened Options
  import opened Mux

  // ---- numbers

  ghost predicate Numbers(s: State) {
    s.seqno == Number(s.count) &&
    (forall c :: c in s.calls ==>
      0 < c <= s.count && s.calls[c].seqno == Number(c) && (Live(s, c) ==> s.count < c + MAX_UINT64))
  }

  /** A new number belongs to a new call. */
  ghost predicate Counted(s: State) {
    forall c :: c in s.calls ==> c <= s.count
  }

  lemma LiveNumbersDiffer(s: State, c: nat, d: nat)
    requires Numbers(s) && c in s.calls && d in s.calls && Live(s, c) && Live(s, d) && c != d
    ensures s.calls[c].seqno != s.calls[d].seqno
  {
    if c < d { SameNumber(c, d); } else { SameNumber(d, c); }
  }

  lemma NumberNotZero(s: State, c: nat)
    requires Numbers(s) && c in s.calls
    ensures s.calls[c].seqno != 0
  {
    SameNumber(c, c);
  }

  lemma NumbersStep(s: State, e: Event)
    requires Numbers(s) && Allowed(s, e)
    ensures Numbers(Apply(s, e))
  {
  }

  // ---- registration

  ghost predicate QueuedAt(q: seq<SendInfo>, i: int, c: nat) {
    0 <= i < |q| && q[i].sch == Some(c)
  }

  ghost predicate HandingTo(loop: Loop, c: nat) {
    loop.Handing? && loop.call == c
  }

  ghost predicate InPhaseSent(calls: map<nat, Call>, c: nat) {
    c in calls && calls[c].phase == Sent
  }

  /** A queued request belongs to a caller still inside SendRecv that is not registered yet. */
  ghost predicate QueueOk(q: seq<SendInfo>, calls: map<nat, Call>, sync_map: map<uint64, nat>, loop: Loop) {
    (forall i :: 0 <= i < |q| && q[i].sch == None ==> q[i].seqno == 0 && q[i].msg.head.seqno == 0) &&
    (forall i, c :: QueuedAt(q, i, c) ==>
      InPhaseSent(calls, c) && q[i].seqno == q[i].msg.head.seqno == calls[c].seqno && calls[c].seqno !in sync_map &&
      !HandingTo(loop, c)) &&
    (forall i, j, c :: QueuedAt(q, i, c) && QueuedAt(q, j, c) ==> i == j)
  }

  /** A registered caller is inside SendRecv and has not been picked for a hand-over. */
  ghost predicate MapOk(calls: map<nat, Call>, sync_map: map<uint64, nat>, loop: Loop) {
    forall n :: n in sync_map ==>
      InPhaseSent(calls, sync_map[n]) && calls[sync_map[n]].seqno == n && !HandingTo(loop, sync_map[n])
  }

  ghost predicate HandOk(calls: map<nat, Call>, loop: Loop) {
    (loop.Handing? ==> InPhaseSent(calls, loop.call) && loop.msg.head.seqno == calls[loop.call].seqno) &&
    (forall c :: c in calls && calls[c].phase.Holding? ==> calls[c].phase.reply.head.seqno == calls[c].seqno)
  }

  ghost predicate Registered(calls: map<nat, Call>, sync_map: map<uint64, nat>, c: nat) {
    c in calls && calls[c].seqno in sync_map && sync_map[calls[c].seqno] == c
  }

  /** A blocked caller is queued, registered, or being handed its reply. */
  ghost predicate Covered(q: seq<SendInfo>, calls: map<nat, Call>, sync_map: map<uint64, nat>, loop: Loop) {
    forall c :: InPhaseSent(calls, c) ==>
      (exists i :: QueuedAt(q, i, c)) || Registered(calls, sync_map, c) || HandingTo(loop, c)
  }

  ghost predicate Wired(s: State) {
    QueueOk(s.call_send_ch, s.calls, s.sync_map, s.loop) && MapOk(s.calls, s.sync_map, s.loop) &&
    HandOk(s.calls, s.loop) && Covered(s.call_send_ch, s.calls, s.sync_map, s.loop)
  }

  lemma WiredEnqueue(s: State, c: nat, m: Message)
    requires Numbers(s) && Wired(s) && Allowed(s, Enqueue(c, m))
    ensures Wired(Apply(s, Enqueue(c, m)))
  {
    var s' := Apply(s, Enqueue(c, m));
    if s.calls[c].seqno in s.sync_map {
      LiveNumbersDiffer(s, c, s.sync_map[s.calls[c].seqno]);
    }
    var q, q' := s.call_send_ch, s'.call_send_ch;
    assert QueuedAt(q', |q|, c);
    assert forall i, d :: QueuedAt(q', i, d) ==> QueuedAt(q, i, d) || (i == |q| && d == c);
    forall d | InPhaseSent(s'.calls, d)
      ensures (exists i :: QueuedAt(q', i, d)) || Registered(s'.calls, s'.sync_map, d) || HandingTo(s'.loop, d)
    {
      if d != c {
        assert InPhaseSent(s.calls, d);
        if i :| QueuedAt(q, i, d) { assert QueuedAt(q', i, d); }
      }
    }
  }

  lemma WiredEnqueueAsync(s: State, m: Message)
    requires Wired(s) && Allowed(s, EnqueueAsync(m))
    ensures Wired(Apply(s, EnqueueAsync(m)))
  {
    var q, q' := s.call_send_ch, Apply(s, EnqueueAsync(m)).call_send_ch;
    assert forall i, d: nat :: QueuedAt(q', i, d) <==> QueuedAt(q, i, d);
  }

  lemma WiredLoopSend(s: State)
    requires Numbers(s) && Wired(s) && Enabled(s, LoopSend)
    ensures Wired(Apply(s, LoopSend))
  {
    var s' := Apply(s, LoopSend);
    var q, q' := s.call_send_ch, s'.call_send_ch;
    var w := q[0];
    assert forall i, d: nat :: QueuedAt(q', i, d) <==> QueuedAt(q, i + 1, d) && i >= 0;
    if w.sch.Some? {
      assert QueuedAt(q, 0, w.sch.value);
      forall i, d | QueuedAt(q', i, d) ensures s.calls[d].seqno != w.seqno {
        assert QueuedAt(q, i + 1, d);
        LiveNumbersDiffer(s, d, w.sch.value);
      }
    }
    forall d | InPhaseSent(s'.calls, d)
      ensures (exists i :: QueuedAt(q', i, d)) || Registered(s'.calls, s'.sync_map, d) || HandingTo(s'.loop, d)
    {
      if i :| QueuedAt(q, i, d) {
        if i > 0 { assert QueuedAt(q', i - 1, d); }
      } else {
        assert Registered(s.calls, s.sync_map, d);
      }
    }
  }

  lemma WiredLoopRecv(s: State)
    requires Numbers(s) && Wired(s) && Enabled(s, LoopRecv)
    ensures Wired(Routed(s))
  {
    var s' := Routed(s);
    var n := s.rcv_read_ch[0].head.seqno;
    forall d | InPhaseSent(s'.calls, d)
      ensures (exists i :: QueuedAt(s'.call_send_ch, i, d)) || Registered(s'.calls, s'.sync_map, d) ||
        HandingTo(s'.loop, d)
    {
      assert InPhaseSent(s.calls, d);
    }
    if n in s.sync_map {
      forall k | k in s'.sync_map ensures s'.sync_map[k] != s.sync_map[n] {
        assert s.calls[s.sync_map[n]].seqno == n && s.calls[s.sync_map[k]].seqno == k;
      }
    }
  }

  /** Calls that are not inside SendRecv come, move on and go without disturbing the others. */
  lemma WiredCall(s: State, c: nat, call: Call)
    requires Wired(s) && !InPhaseSent(s.calls, c) && call.phase != Sent && !call.phase.Holding?
    ensures Wired(s.(calls := s.calls[c := call]))
  {
    var s' := s.(calls := s.calls[c := call]);
    forall d | InPhaseSent(s'.calls, d)
      ensures (exists i :: QueuedAt(s'.call_send_ch, i, d)) || Registered(s'.calls, s'.sync_map, d) ||
        HandingTo(s'.loop, d)
    {
      assert InPhaseSent(s.calls, d);
    }
  }

  lemma WiredHandOver(s: State)
    requires Wired(s) && Enabled(s, HandOver)
    ensures Wired(Apply(s, HandOver))
  {
    var s' := Apply(s, HandOver);
    forall d | InPhaseSent(s'.calls, d)
      ensures (exists i :: QueuedAt(s'.call_send_ch, i, d)) || Registered(s'.calls, s'.sync_map, d) ||
        HandingTo(s'.loop, d)
    {
      assert InPhaseSent(s.calls, d);
    }
  }

  lemma WiredStep(s: State, e: Event)
    requires Numbers(s) && Wired(s) && Allowed(s, e)
    ensures Wired(Apply(s, e))
  {
    match e
    case GetNumber => WiredCall(s, s.count + 1, Call(NextSeqno(s.seqno), Numbered));
    case Enqueue(c, m) => WiredEnqueue(s, c, m);
    case EnqueueAsync(m) => WiredEnqueueAsync(s, m);
    case LoopSend => WiredLoopSend(s);
    case LoopRecv => WiredLoopRecv(s);
    case HandOver => WiredHandOver(s);
    case CallerPush(c) => WiredCall(s, c, s.calls[c].(phase := Returned));
    case Settle(c) => WiredCall(s, c, s.calls[c].(phase := Done));
    case _ =>
  }

  // ---- causality

  /** Every reply that has arrived is numbered 0 or answers a delivered call. */
  ghost predicate Answers(s: State) {
    forall i :: 0 <= i < |s.rcv_read_ch| ==> Causal(s, s.rcv_read_ch[i])
  }

  /** A delivered call stays delivered until it is settled: nobody else leaves with its number. */
  lemma DeliveredStep(s: State, e: Event, c: nat)
    requires Numbers(s) && Allowed(s, e) && c in s.calls && Delivered(s, c) && e != Settle(c)
    ensures c in Apply(s, e).calls && Delivered(Apply(s, e), c) && Apply(s, e).calls[c].seqno == s.calls[c].seqno
  {
    NumberNotZero(s, c);
    var n := s.calls[c].seqno;
    if e.Enqueue? {
      LiveNumbersDiffer(s, c, e.call);
    }
    StaysOut(s, e, n);
  }

  lemma StaysOut(s: State, e: Event, n: uint64)
    requires Allowed(s, e) && !Leaving(s, n)
    requires n != 0 && (e.Enqueue? ==> e.msg.head.seqno != n)
    ensures !Leaving(Apply(s, e), n)
  {
    var s' := Apply(s, e);
    assert forall i :: 0 <= i < |s.call_send_ch| ==> s.call_send_ch[i].msg.head.seqno != n;
    assert forall i :: 0 <= i < |s.snd_write_ch| ==> s.snd_write_ch[i].head.seqno != n;
    assert s.loop.Writing? ==> s.loop.msg.head.seqno != n;
  }

  lemma CausalStep(s: State, e: Event, m: Message)
    requires Numbers(s) && Allowed(s, e) && Causal(s, m) && (e.Settle? ==> m.head.seqno != s.calls[e.call].seqno)
    ensures Causal(Apply(s, e), m)
  {
    if m.head.seqno != 0 {
      var c :| c in s.calls && Delivered(s, c) && s.calls[c].seqno == m.head.seqno;
      DeliveredStep(s, e, c);
    }
  }

  lemma AnswersStep(s: State, e: Event)
    requires Numbers(s) && Answers(s) && Allowed(s, e)
    ensures Answers(Apply(s, e))
  {
    var s' := Apply(s, e);
    forall i | 0 <= i < |s'.rcv_read_ch| ensures Causal(s', s'.rcv_read_ch[i]) {
      var m := s'.rcv_read_ch[i];
      assert Causal(s, m) && (e.Settle? ==> m.head.seqno != s.calls[e.call].seqno) by {
        if e.LoopRecv? {
          assert m == s.rcv_read_ch[i + 1];
        } else if i < |s.rcv_read_ch| {
          assert m == s.rcv_read_ch[i];
        }
      }
      CausalStep(s, e, m);
    }
  }

  // ---- deliveries

  ghost function Held(calls: map<nat, Call>): set<Delivery> {
    set c | c in calls && calls[c].phase.Holding? :: Delivery(calls[c].phase.reply, Some(c))
  }

  ghost function InLoop(loop: Loop): seq<Delivery> {
    match loop
    case Handing(c, m) => [Delivery(m, Some(c))]
    case Queuing(m) => [Delivery(m, None)]
    case _ => []
  }

  /** Every message read is in ipcrecv_ch's history, in the loop's hands, or in those of a woken caller. */
  ghost predicate Conserved(s: State) {
    multiset(s.incoming) == multiset(s.placed) + multiset(InLoop(s.loop)) + multiset(Held(s.calls))
  }

  ghost function AsyncOf(ds: seq<Delivery>): seq<Message> {
    if ds == [] then []
    else AsyncOf(ds[..|ds| - 1]) + (if ds[|ds| - 1].to == None then [ds[|ds| - 1].msg] else [])
  }

  /** Asynchronous messages enter ipcrecv_ch in the order they were read. */
  ghost predicate Ordered(s: State) {
    AsyncOf(s.placed) + AsyncOf(InLoop(s.loop)) == AsyncOf(s.incoming)
  }

  /** The caller has been sent its reply: it has been woken, or the loop is about to wake it. */
  ghost predicate Woken(calls: map<nat, Call>, loop: Loop, c: nat) {
    c in calls &&
    (calls[c].phase.Holding? || calls[c].phase == Returned || calls[c].phase == Done || HandingTo(loop, c))
  }

  /** A reply goes to the caller with its number, and each caller gets one reply at most. */
  ghost predicate Matched(s: State) {
    (forall i :: 0 <= i < |s.incoming| && s.incoming[i].to.Some? ==>
      Woken(s.calls, s.loop, s.incoming[i].to.value) &&
      s.calls[s.incoming[i].to.value].seqno == s.incoming[i].msg.head.seqno) &&
    (forall i, j :: 0 <= i < j < |s.incoming| && s.incoming[i].to.Some? ==> s.incoming[i].to != s.incoming[j].to)
  }

  lemma AsyncSnoc(ds: seq<Delivery>, d: Delivery)
    ensures AsyncOf(ds + [d]) == if d.to == None then AsyncOf(ds) + [d.msg] else AsyncOf(ds)
  {
    assert (ds + [d])[..|ds|] == ds;
  }

  lemma AsyncInLoop(loop: Loop)
    ensures AsyncOf(InLoop(loop)) == if loop.Queuing? then [loop.msg] else []
  {
    if InLoop(loop) != [] {
      AsyncSnoc([], InLoop(loop)[0]);
    }
  }

  lemma OrderedRecv(s: State)
    requires Ordered(s) && Enabled(s, LoopRecv)
    ensures Ordered(Routed(s))
  {
    AsyncSnoc(s.incoming, Routed(s).incoming[|s.incoming|]);
    AsyncInLoop(s.loop);
    AsyncInLoop(Routed(s).loop);
  }

  lemma OrderedStep(s: State, e: Event)
    requires Ordered(s) && Enabled(s, e)
    ensures Ordered(Apply(s, e))
  {
    var s' := Apply(s, e);
    if e.LoopRecv? {
      OrderedRecv(s);
    } else {
      AsyncInLoop(s.loop);
      AsyncInLoop(s'.loop);
      if s'.placed != s.placed {
        AsyncSnoc(s.placed, s'.placed[|s.placed|]);
      }
    }
  }

  lemma HeldChange(calls: map<nat, Call>, c: nat, call: Call)
    ensures Held(calls[c := call]) ==
      (set d | d in Held(calls) && d.to != Some(c)) +
      (if call.phase.Holding? then {Delivery(call.phase.reply, Some(c))} else {})
  {
    var calls' := calls[c := call];
    forall d | d in Held(calls') ensures d.to != Some(c) ==> d in Held(calls) {
      var k :| k in calls' && calls'[k].phase.Holding? && d == Delivery(calls'[k].phase.reply, Some(k));
      assert k != c ==> calls[k] == calls'[k];
    }
    forall d | d in Held(calls) && d.to != Some(c) ensures d in Held(calls') {
      var k :| k in calls && calls[k].phase.Holding? && d == Delivery(calls[k].phase.reply, Some(k));
      assert calls[k] == calls'[k];
    }
    if call.phase.Holding? {
      assert c in calls' && calls'[c].phase.Holding?;
    }
  }

  lemma HeldKept(calls: map<nat, Call>, c: nat, call: Call)
    requires (c in calls ==> !calls[c].phase.Holding?) && !call.phase.Holding?
    ensures Held(calls[c := call]) == Held(calls)
  {
    HeldChange(calls, c, call);
    forall d | d in Held(calls) ensures d.to != Some(c) {
      var k :| k in calls && calls[k].phase.Holding? && d == Delivery(calls[k].phase.reply, Some(k));
    }
  }

  lemma ConservedHandOver(s: State)
    requires Conserved(s) && Enabled(s, HandOver)
    ensures Conserved(Apply(s, HandOver))
  {
    var s' := Apply(s, HandOver);
    var c := s.loop.call;
    var d := Delivery(s.loop.msg, Some(c));
    HeldChange(s.calls, c, s'.calls[c]);
    forall x | x in Held(s.calls) ensures x.to != Some(c) {
      var k :| k in s.calls && s.calls[k].phase.Holding? && x == Delivery(s.calls[k].phase.reply, Some(k));
    }
    assert Held(s'.calls) == Held(s.calls) + {d} && d !in Held(s.calls);
    assert InLoop(s.loop) == [d] && InLoop(s'.loop) == [];
  }

  lemma ConservedPush(s: State, c: nat)
    requires Conserved(s) && Enabled(s, CallerPush(c))
    ensures Conserved(Apply(s, CallerPush(c)))
  {
    var s' := Apply(s, CallerPush(c));
    var d := Delivery(s.calls[c].phase.reply, Some(c));
    HeldChange(s.calls, c, s'.calls[c]);
    assert d in Held(s.calls);
    forall x | x in Held(s.calls) && x.to == Some(c) ensures x == d {
      var k :| k in s.calls && s.calls[k].phase.Holding? && x == Delivery(s.calls[k].phase.reply, Some(k));
    }
    assert Held(s'.calls) == Held(s.calls) - {d};
  }

  lemma ConservedRecv(s: State)
    requires Conserved(s) && Enabled(s, LoopRecv)
    ensures Conserved(Routed(s))
  {
    var s' := Routed(s);
    assert InLoop(s.loop) == [] && InLoop(s'.loop) == [s'.incoming[|s.incoming|]];
  }

  lemma ConservedQueue(s: State)
    requires Conserved(s) && Enabled(s, LoopQueue)
    ensures Conserved(Apply(s, LoopQueue))
  {
    var s' := Apply(s, LoopQueue);
    assert InLoop(s.loop) == [Delivery(s.loop.msg, None)] && InLoop(s'.loop) == [];
  }

  lemma ConservedStep(s: State, e: Event)
    requires Counted(s) && Conserved(s) && Enabled(s, e)
    ensures Conserved(Apply(s, e))
  {
    match e
    case GetNumber => HeldKept(s.calls, s.count + 1, Apply(s, e).calls[s.count + 1]);
    case Enqueue(c, _) => HeldKept(s.calls, c, Apply(s, e).calls[c]);
    case Settle(c) => HeldKept(s.calls, c, Apply(s, e).calls[c]);
    case HandOver => ConservedHandOver(s);
    case CallerPush(c) => ConservedPush(s, c);
    case LoopRecv => ConservedRecv(s);
    case LoopQueue => ConservedQueue(s);
    case _ =>
  }

  lemma MatchedStep(s: State, e: Event)
    requires Counted(s) && MapOk(s.calls, s.sync_map, s.loop) && Matched(s) && Enabled(s, e)
    ensures Matched(Apply(s, e))
  {
    var s' := Apply(s, e);
    if e.LoopRecv? {
      var d := s'.incoming[|s.incoming|];
      if d.to.Some? {
        assert InPhaseSent(s.calls, d.to.value) && !HandingTo(s.loop, d.to.value);
        assert !Woken(s.calls, s.loop, d.to.value);
      }
    }
  }

  // ---- all of it

  ghost predicate Inv(s: State) {
    Numbers(s) && Wired(s) && Answers(s) && Conserved(s) && Ordered(s) && Matched(s)
  }

  lemma InvStep(s: State, e: Event)
    requires Inv(s) && Allowed(s, e)
    ensures Inv(Apply(s, e))
  {
    NumbersStep(s, e);
    WiredStep(s, e);
    AnswersStep(s, e);
    ConservedStep(s, e);
    OrderedStep(s, e);
    MatchedStep(s, e);
  }

  lemma {:induction false} InvRun(s: State, es: seq<Event>)
    requires Inv(s) && Runs(s, es) && AllOrderly(s, es)
    ensures Inv(After(s, es))
    decreases es
  {
    if es != [] {
      InvStep(s, es[0]);
      InvRun(Apply(s, es[0]), es[1..]);
    }
  }

  lemma InvInit()
    ensures Inv(INIT)
  {
    assert Held(INIT.calls) == {};
  }
}
