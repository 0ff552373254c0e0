/**
 Why the window of sequence numbers is needed (ipcc/ipcc.go, GetSeqno and _setSyncMap): a run in which all is
 orderly but for numbers drawn while an old one is still in use, and in which a reply wakes the wrong caller.
 */
module MuxWindow {
  import opened Ints
  import opened Messages
  import opened Options
  import opened Mux
  import MuxInvariants

  /** Every step but the drawing of numbers is orderly. */
  ghost predicate ButForTheWindow(s: State, es: seq<Event>)
    requires Runs(s, es)
    decreases es
  {
    es == [] || ((es[0].GetNumber? || Orderly(s, es[0])) && ButForTheWindow(Apply(s, es[0]), es[1..]))
  }

  ghost predicate Trail(es: seq<Event>, s: State) {
    Runs(INIT, es) && ButForTheWindow(INIT, es) && After(INIT, es) == s
  }

  lemma {:induction false} Append(s: State, es: seq<Event>, e: Event)
    requires Runs(s, es) && ButForTheWindow(s, es) && Enabled(After(s, es), e)
    requires e.GetNumber? || Orderly(After(s, es), e)
    ensures Runs(s, es + [e]) && ButForTheWindow(s, es + [e]) && After(s, es + [e]) == Apply(After(s, es), e)
    decreases es
  {
    if es == [] {
      assert es + [e] == [e];
      assert After(Apply(s, e), []) == Apply(s, e);
      assert [e][1..] == [];
    } else {
      Append(Apply(s, es[0]), es[1..], e);
      assert (es + [e])[1..] == es[1..] + [e];
    }
  }

  lemma Next(es: seq<Event>, s: State, e: Event) returns (es': seq<Event>, s': State)
    requires Trail(es, s) && Enabled(s, e) && (e.GetNumber? || Orderly(s, e))
    ensures Trail(es', s') && s' == Apply(s, e)
  {
    Append(INIT, es, e);
    es', s' := es + [e], Apply(s, e);
  }

  /** Nothing is under way in the multiplexer. */
  ghost predicate Quiet(s: State) {
    s.loop == Idle && s.call_send_ch == [] && s.snd_write_ch == [] && s.rcv_read_ch == []
  }

  /** Call c puts its request m into call_send_ch, and the request reaches the server. */
  lemma RequestGoesOut(es: seq<Event>, s: State, c: nat, m: Message) returns (es': seq<Event>, s': State)
    requires Trail(es, s) && Quiet(s) && c in s.calls && s.calls[c] == Call(m.head.seqno, Numbered)
    ensures Trail(es', s')
    ensures s' == s.(calls := s.calls[c := Call(m.head.seqno, Sent)],
                     sync_map := SetSyncMap(s.sync_map, SendInfo(m.head.seqno, m, Some(c))))
  {
    es', s' := Next(es, s, Enqueue(c, m));
    es', s' := Next(es', s', LoopSend);
    es', s' := Next(es', s', LoopWrite);
    es', s' := Next(es', s', SenderWrite);
  }

  /** n more numbers are drawn. */
  lemma {:induction false} NumbersAreDrawn(es: seq<Event>, s: State, n: nat) returns (es': seq<Event>, s': State)
    requires Trail(es, s) && s.seqno == Number(s.count) && forall c :: c in s.calls ==> c <= s.count
    ensures Trail(es', s') && s'.count == s.count + n && s'.seqno == Number(s'.count)
    ensures s' == s.(count := s'.count, seqno := s'.seqno, calls := s'.calls)
    ensures forall c :: c in s.calls ==> c in s'.calls && s'.calls[c] == s.calls[c]
    ensures forall c :: c in s'.calls ==> c <= s'.count
    ensures n > 0 ==> s'.count in s'.calls && s'.calls[s'.count] == Call(s'.seqno, Numbered)
    decreases n
  {
    es', s' := es, s;
    if n > 0 {
      es', s' := NumbersAreDrawn(es, s, n - 1);
      es', s' := Next(es', s', GetNumber);
    }
  }

  /** The number of the first call comes round again. */
  const AGAIN: nat := MAX_UINT64 + 1

  /** A caller that blocks while the first one still does, with the same number. */
  lemma NumberComesRound(m1: Message, m2: Message) returns (es: seq<Event>, s: State)
    requires m1.head.seqno == 1 && m2.head.seqno == 1
    ensures Trail(es, s) && Quiet(s) && s.sync_map == map[1 := 1]
    ensures 1 in s.calls && s.calls[1] == Call(1, Sent) && AGAIN in s.calls && s.calls[AGAIN] == Call(1, Sent)
  {
    assert Number(0) == 0 && Number(1) == 1;
    es, s := Next([], INIT, GetNumber);
    es, s := RequestGoesOut(es, s, 1, m1);
    es, s := NumbersAreDrawn(es, s, MAX_UINT64);
    NumberIs(AGAIN);
    es, s := RequestGoesOut(es, s, AGAIN, m2);
  }

  /**
   For every two requests with the number 1 and every reply to them there is a run, orderly but for the
   window, in which both requests reach the server, the reply comes after both and wakes the first caller,
   and the second one stays blocked: it is not registered, and nothing is on its way to it.
   */
  lemma ReplyWakesTheWrongCaller(m1: Message, m2: Message, reply: Message) returns (es: seq<Event>, s: State)
    requires m1.head.seqno == 1 && m2.head.seqno == 1 && reply.head.seqno == 1
    ensures Trail(es, s) && Quiet(s) && s.sync_map == map[]
    ensures 1 in s.calls && s.calls[1] == Call(1, Holding(reply))
    ensures AGAIN in s.calls && s.calls[AGAIN] == Call(1, Sent) && Delivered(s, AGAIN)
    ensures !MuxInvariants.Registered(s.calls, s.sync_map, AGAIN)
  {
    es, s := NumberComesRound(m1, m2);
    assert Delivered(s, AGAIN);
    es, s := Next(es, s, ReceiverRead(reply));
    es, s := Next(es, s, LoopRecv);
    es, s := Next(es, s, HandOver);
  }
}
