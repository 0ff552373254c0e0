/**
 The polling dispatcher (chhandler/chhandler.go, ProcessRun): one goroutine polls every registered channel
 in turn, without blocking, and calls the channel's handler.  Signals other than SIGCHLD end the program and
 are not modelled.
 */
module Dispatchers {

  /** What happens at one poll: the items other goroutines and handlers have put into channels since the
      last poll, and whether the select takes a pending signal. */
  datatype Input<T> = Input(arrivals: seq<(nat, T)>, signal: bool)

  /** channels are the queued items, sent all items ever put into a channel, calls the handler calls. */
  datatype Polled<T> = Polled(channels: seq<seq<T>>, sent: seq<seq<T>>, calls: seq<(nat, T)>)

  predicate WellFormed<T>(q: Polled<T>) {
    |q.channels| == |q.sent|
  }

  predicate Fits<T>(q: Polled<T>, input: Input<T>) {
    forall i :: 0 <= i < |input.arrivals| ==> input.arrivals[i].0 < |q.channels|
  }

  function Put<T>(q: Polled<T>, idx: nat, item: T): Polled<T>
    requires WellFormed(q) && idx < |q.channels|
  {
    q.(channels := q.channels[idx := q.channels[idx] + [item]], sent := q.sent[idx := q.sent[idx] + [item]])
  }

  function Arrive<T>(q: Polled<T>, arrivals: seq<(nat, T)>): (q': Polled<T>)
    requires WellFormed(q) && Fits(q, Input(arrivals, false))
    ensures WellFormed(q') && |q'.channels| == |q.channels|
    decreases |arrivals|
  {
    if arrivals == [] then q
    else
      assert forall i :: 0 <= i < |arrivals| - 1 ==> arrivals[1..][i] == arrivals[i + 1];
      Arrive(Put(q, arrivals[0].0, arrivals[0].1), arrivals[1..])
  }

  /** The select for slot idx: a signal, or the channel's next item, or nothing. */
  function Select<T>(q: Polled<T>, idx: nat, signal: bool): (q': Polled<T>)
    requires WellFormed(q) && idx < |q.channels|
    ensures WellFormed(q') && |q'.channels| == |q.channels|
  {
    if signal || q.channels[idx] == [] then q
    else q.(channels := q.channels[idx := q.channels[idx][1..]], calls := q.calls + [(idx, q.channels[idx][0])])
  }

  function Poll<T>(q: Polled<T>, idx: nat, input: Input<T>): (q': Polled<T>)
    requires WellFormed(q) && Fits(q, input) && idx < |q.channels|
    ensures WellFormed(q') && |q'.channels| == |q.channels|
  {
    Select(Arrive(q, input.arrivals), idx, input.signal)
  }

  predicate FitsAll<T>(q: Polled<T>, inputs: seq<Input<T>>) {
    |inputs| <= |q.channels| && forall k :: 0 <= k < |inputs| ==> Fits(q, inputs[k])
  }

  /** The first polls of a pass over the channels, one input for each. */
  function Polls<T>(q: Polled<T>, inputs: seq<Input<T>>): (q': Polled<T>)
    requires WellFormed(q) && FitsAll(q, inputs)
    ensures WellFormed(q') && |q'.channels| == |q.channels|
    decreases |inputs|
  {
    if inputs == [] then q
    else
      var n := |inputs| - 1;
      assert forall k :: 0 <= k < n ==> inputs[..n][k] == inputs[k];
      Poll(Polls(q, inputs[..n]), n, inputs[n])
  }

  /** The items channel i's handler has been called with. */
  function CallsOf<T>(calls: seq<(nat, T)>, i: nat): seq<T> {
    if calls == [] then []
    else
      var n := |calls| - 1;
      CallsOf(calls[..n], i) + (if calls[n].0 == i then [calls[n].1] else [])
  }

  /** Every channel's items have gone to its own handler, in order, or are still queued. */
  ghost predicate Faithful<T>(q: Polled<T>) {
    WellFormed(q) && (forall i :: 0 <= i < |q.channels| ==> CallsOf(q.calls, i) + q.channels[i] == q.sent[i]) &&
    (forall k :: 0 <= k < |q.calls| ==> q.calls[k].0 < |q.channels|)
  }

  class Dispatcher<T> {
    var channels: seq<seq<T>>
    ghost var sent: seq<seq<T>>
    ghost var calls: seq<(nat, T)>

    ghost function Value(): Polled<T>
      reads this
    {
      Polled(channels, sent, calls)
    }

    constructor ()
      ensures Value() == Polled([], [], [])
    {
      channels, sent, calls := [], [], [];
    }

    /** A new channel and its handler go to the end of the list. */
    method SetChannelHandler()
      requires WellFormed(Value())
      modifies this
      ensures Value() == Polled(old(channels) + [[]], old(sent) + [[]], old(calls))
    {
      channels := channels + [[]];
      sent := sent + [[]];
    }

    /** Other goroutines and the handlers send. */
    method Receive(arrivals: seq<(nat, T)>)
      requires WellFormed(Value()) && Fits(Value(), Input(arrivals, false))
      modifies this
      ensures Value() == Arrive(old(Value()), arrivals)
      decreases |arrivals|
    {
      if arrivals != [] {
        var idx, item := arrivals[0].0, arrivals[0].1;
        channels := channels[idx := channels[idx] + [item]];
        sent := sent[idx := sent[idx] + [item]];
        assert forall i :: 0 <= i < |arrivals| - 1 ==> arrivals[1..][i] == arrivals[i + 1];
        Receive(arrivals[1..]);
      }
    }

    /** One pass of the loop in ProcessRun; the handler call is recorded in calls. */
    method Pass(inputs: seq<Input<T>>)
      requires WellFormed(Value()) && |inputs| == |channels| && FitsAll(Value(), inputs)
      modifies this
      ensures Value() == Polls(old(Value()), inputs)
    {
      for idx := 0 to |inputs|
        invariant FitsAll(old(Value()), inputs[..idx])
        invariant Value() == Polls(old(Value()), inputs[..idx])
      {
        Receive(inputs[idx].arrivals);
        if inputs[idx].signal {
          // SIGCHLD: nothing to do
        } else if channels[idx] != [] {
          var item := channels[idx][0];
          channels := channels[idx := channels[idx][1..]];
          calls := calls + [(idx, item)];
        }
        assert inputs[..idx + 1][..idx] == inputs[..idx];
      }
      assert inputs[..|inputs|] == inputs;
    }
  }

  // ---- refinement

  lemma {:induction false} ArriveFaithful<T>(q: Polled<T>, arrivals: seq<(nat, T)>)
    requires Faithful(q) && Fits(q, Input(arrivals, false))
    ensures Faithful(Arrive(q, arrivals))
    decreases |arrivals|
  {
    if arrivals != [] {
      var q1 := Put(q, arrivals[0].0, arrivals[0].1);
      assert Faithful(q1);
      assert forall i :: 0 <= i < |arrivals| - 1 ==> arrivals[1..][i] == arrivals[i + 1];
      ArriveFaithful(q1, arrivals[1..]);
    }
  }

  lemma CallsSnoc<T>(calls: seq<(nat, T)>, call: (nat, T), i: nat)
    ensures CallsOf(calls + [call], i) == if call.0 == i then CallsOf(calls, i) + [call.1] else CallsOf(calls, i)
  {
    assert (calls + [call])[..|calls|] == calls;
  }

  lemma SelectFaithful<T>(q: Polled<T>, idx: nat, signal: bool)
    requires Faithful(q) && idx < |q.channels|
    ensures Faithful(Select(q, idx, signal))
  {
    var q' := Select(q, idx, signal);
    if q' != q {
      forall i | 0 <= i < |q.channels| ensures CallsOf(q'.calls, i) + q'.channels[i] == q'.sent[i] {
        CallsSnoc(q.calls, (idx, q.channels[idx][0]), i);
        assert CallsOf(q.calls, i) + q.channels[i] == q.sent[i];
        assert q.channels[idx] == [q.channels[idx][0]] + q.channels[idx][1..];
      }
    }
  }

  /** Per channel, what has been handled is a prefix of what was sent, handled by that channel's handler only. */
  lemma {:induction false} PassIsFaithful<T>(q: Polled<T>, inputs: seq<Input<T>>)
    requires Faithful(q) && FitsAll(q, inputs)
    ensures Faithful(Polls(q, inputs))
    decreases |inputs|
  {
    if inputs != [] {
      var n := |inputs| - 1;
      assert forall k :: 0 <= k < n ==> inputs[..n][k] == inputs[k];
      PassIsFaithful(q, inputs[..n]);
      var q1 := Polls(q, inputs[..n]);
      ArriveFaithful(q1, inputs[n].arrivals);
      SelectFaithful(Arrive(q1, inputs[n].arrivals), n, inputs[n].signal);
    }
  }

  // ---- order

  /** The items among the arrivals that are for channel i. */
  function ItemsFor<T>(arrivals: seq<(nat, T)>, i: nat): seq<T> {
    if arrivals == [] then []
    else (if arrivals[0].0 == i then [arrivals[0].1] else []) + ItemsFor(arrivals[1..], i)
  }

  /** What others put into a channel joins its end, in the order in which they do. */
  lemma {:induction false} ArrivalsJoinTheEnd<T>(q: Polled<T>, arrivals: seq<(nat, T)>, i: nat)
    requires WellFormed(q) && Fits(q, Input(arrivals, false)) && i < |q.channels|
    ensures var q' := Arrive(q, arrivals);
      q'.channels[i] == q.channels[i] + ItemsFor(arrivals, i) && q'.sent[i] == q.sent[i] + ItemsFor(arrivals, i) &&
      q'.calls == q.calls
    decreases |arrivals|
  {
    if arrivals != [] {
      var q1 := Put(q, arrivals[0].0, arrivals[0].1);
      assert forall k :: 0 <= k < |arrivals| - 1 ==> arrivals[1..][k] == arrivals[k + 1];
      ArrivalsJoinTheEnd(q1, arrivals[1..], i);
      assert q1.channels[i] == q.channels[i] + (if arrivals[0].0 == i then [arrivals[0].1] else []);
      assert q1.sent[i] == q.sent[i] + (if arrivals[0].0 == i then [arrivals[0].1] else []);
    }
  }

  /** The calls from number n on are in the order of their slots, one for each at most, and below slot end. */
  ghost predicate Ascending<T>(calls: seq<(nat, T)>, n: int, end: int) {
    (forall j, k :: 0 <= n <= j < k < |calls| ==> calls[j].0 < calls[k].0) &&
    (forall j :: 0 <= n <= j < |calls| ==> calls[j].0 < end)
  }

  lemma PollCalls<T>(q: Polled<T>, idx: nat, input: Input<T>)
    requires WellFormed(q) && Fits(q, input) && idx < |q.channels|
    ensures var q' := Poll(q, idx, input);
      q'.calls == q.calls || (|q'.calls| == |q.calls| + 1 && q.calls <= q'.calls && q'.calls[|q.calls|].0 == idx)
  {
    ArrivalsJoinTheEnd(q, input.arrivals, idx);
  }

  /** One pass calls the handlers in the order of the list, each at most once. */
  lemma {:induction false} PassIsInOrder<T>(q: Polled<T>, inputs: seq<Input<T>>)
    requires WellFormed(q) && FitsAll(q, inputs)
    ensures q.calls <= Polls(q, inputs).calls && Ascending(Polls(q, inputs).calls, |q.calls|, |inputs|)
    decreases |inputs|
  {
    if inputs != [] {
      var n := |inputs| - 1;
      assert forall k :: 0 <= k < n ==> inputs[..n][k] == inputs[k];
      PassIsInOrder(q, inputs[..n]);
      PollCalls(Polls(q, inputs[..n]), n, inputs[n]);
    }
  }

  // ---- bounded waiting

  function Handled<T>(q: Polled<T>, i: nat): nat {
    |CallsOf(q.calls, i)|
  }

  function Min(a: int, b: int): int {
    if a <= b then a else b
  }

  lemma {:induction false} ArriveKeeps<T>(q: Polled<T>, arrivals: seq<(nat, T)>, i: nat)
    requires WellFormed(q) && Fits(q, Input(arrivals, false)) && i < |q.channels|
    ensures var q' := Arrive(q, arrivals);
      q'.calls == q.calls && |q'.channels[i]| >= |q.channels[i]| && q.sent[i] <= q'.sent[i]
    decreases |arrivals|
  {
    if arrivals != [] {
      assert forall k :: 0 <= k < |arrivals| - 1 ==> arrivals[1..][k] == arrivals[k + 1];
      ArriveKeeps(Put(q, arrivals[0].0, arrivals[0].1), arrivals[1..], i);
    }
  }

  /** A poll of slot idx handles an item of channel i exactly when i is idx, no signal is taken and there is one. */
  lemma PollHandles<T>(q: Polled<T>, idx: nat, input: Input<T>, i: nat)
    requires Faithful(q) && Fits(q, input) && idx < |q.channels| && i < |q.channels|
    ensures var q' := Poll(q, idx, input);
      q.sent[i] <= q'.sent[i] && |q'.channels| == |q.channels| &&
      Handled(q, i) <= Handled(q', i) <= Handled(q, i) + (if i == idx && !input.signal then 1 else 0) &&
      (i == idx && !input.signal && Handled(q, i) < |q.sent[i]| ==> Handled(q', i) == Handled(q, i) + 1)
  {
    var q1 := Arrive(q, input.arrivals);
    ArriveKeeps(q, input.arrivals, i);
    assert CallsOf(q.calls, i) + q.channels[i] == q.sent[i];
    if !input.signal && q1.channels[idx] != [] {
      CallsSnoc(q1.calls, (idx, q1.channels[idx][0]), i);
    }
  }

  /** Whether the poll of slot i is taken by a signal. */
  predicate SignalAt<T>(inputs: seq<Input<T>>, i: nat) {
    i < |inputs| && inputs[i].signal
  }

  lemma {:induction false} PollsHandle<T>(q: Polled<T>, inputs: seq<Input<T>>, i: nat)
    requires Faithful(q) && FitsAll(q, inputs) && i < |q.channels|
    ensures var q' := Polls(q, inputs); var turns := if i < |inputs| && !SignalAt(inputs, i) then 1 else 0;
      q.sent[i] <= q'.sent[i] &&
      Min(|q.sent[i]|, Handled(q, i) + turns) <= Handled(q', i) <= Handled(q, i) + turns &&
      Handled(q, i) <= Handled(q', i)
    decreases |inputs|
  {
    if inputs != [] {
      var n := |inputs| - 1;
      assert forall k :: 0 <= k < n ==> inputs[..n][k] == inputs[k];
      PollsHandle(q, inputs[..n], i);
      PassIsFaithful(q, inputs[..n]);
      PollHandles(Polls(q, inputs[..n]), n, inputs[n], i);
    }
  }

  ghost predicate Passes<T>(q: Polled<T>, passes: seq<seq<Input<T>>>) {
    forall k :: 0 <= k < |passes| ==> |passes[k]| == |q.channels| && FitsAll(q, passes[k])
  }

  ghost function Run<T>(q: Polled<T>, passes: seq<seq<Input<T>>>): (q': Polled<T>)
    requires WellFormed(q) && Passes(q, passes)
    ensures WellFormed(q') && |q'.channels| == |q.channels|
    decreases |passes|
  {
    if passes == [] then q
    else
      var n := |passes| - 1;
      assert forall k :: 0 <= k < n ==> passes[..n][k] == passes[k];
      Polls(Run(q, passes[..n]), passes[n])
  }

  /** How many polls of slot i the signals take. */
  ghost function SignalPolls<T>(passes: seq<seq<Input<T>>>, i: nat): (s: nat)
    ensures s <= |passes|
  {
    if passes == [] then 0
    else
      var n := |passes| - 1;
      SignalPolls(passes[..n], i) + (if SignalAt(passes[n], i) then 1 else 0)
  }

  lemma Served(sent0: nat, sent1: nat, h0: int, h1: int, h2: int, turns: int, turn: int)
    requires sent0 <= sent1 && 0 <= turn
    requires Min(sent0, h0 + turns) <= h1 <= h0 + turns && Min(sent1, h1 + turn) <= h2 <= h1 + turn && h1 <= h2
    ensures Min(sent0, h0 + turns + turn) <= h2 <= h0 + turns + turn
  {
  }

  lemma {:induction false} RunHandles<T>(q: Polled<T>, passes: seq<seq<Input<T>>>, i: nat)
    requires Faithful(q) && Passes(q, passes) && i < |q.channels|
    ensures var q' := Run(q, passes); var turns := |passes| - SignalPolls(passes, i);
      Faithful(q') && q.sent[i] <= q'.sent[i] &&
      Min(|q.sent[i]|, Handled(q, i) + turns) <= Handled(q', i) <= Handled(q, i) + turns &&
      Handled(q, i) <= Handled(q', i)
    decreases |passes|
  {
    if passes != [] {
      var n := |passes| - 1;
      assert forall k :: 0 <= k < n ==> passes[..n][k] == passes[k];
      RunHandles(q, passes[..n], i);
      var q1 := Run(q, passes[..n]);
      var q2 := Polls(q1, passes[n]);
      assert Run(q, passes) == q2;
      PollsHandle(q1, passes[n], i);
      PassIsFaithful(q1, passes[n]);
      Served(|q.sent[i]|, |q1.sent[i]|, Handled(q, i), Handled(q1, i), Handled(q2, i),
             n - SignalPolls(passes[..n], i), if SignalAt(passes[n], i) then 0 else 1);
    }
  }

  /** Handled first come the items handled before, then those that were queued, as far as it got. */
  lemma InOrder<T>(q: Polled<T>, q': Polled<T>, i: nat, ahead: nat)
    requires Faithful(q) && Faithful(q') && i < |q.channels| && i < |q'.channels| && q.sent[i] <= q'.sent[i]
    requires ahead < |q.channels[i]|
    ensures |q.sent[i]| == Handled(q, i) + |q.channels[i]|
    ensures var k := Handled(q, i) + ahead; Handled(q', i) > k ==> CallsOf(q'.calls, i)[k] == q.channels[i][ahead]
  {
    var k := Handled(q, i) + ahead;
    assert CallsOf(q.calls, i) + q.channels[i] == q.sent[i];
    assert CallsOf(q'.calls, i) + q'.channels[i] == q'.sent[i];
    assert q.sent[i][k] == q'.sent[i][k];
  }

  /**
   An item of channel i with ahead items before it is handled within ahead + 1 + s passes, where s is the
   number of polls of its slot that signals take; and no channel is served more than once in a pass.
   */
  lemma BoundedWaiting<T>(q: Polled<T>, passes: seq<seq<Input<T>>>, i: nat, ahead: nat)
    requires Faithful(q) && Passes(q, passes) && i < |q.channels|
    requires ahead < |q.channels[i]| && |passes| >= ahead + 1 + SignalPolls(passes, i)
    ensures var q' := Run(q, passes); var k := Handled(q, i) + ahead;
      Handled(q', i) > k && CallsOf(q'.calls, i)[k] == q.channels[i][ahead]
    ensures Handled(Run(q, passes), i) <= Handled(q, i) + |passes|
  {
    RunHandles(q, passes, i);
    InOrder(q, Run(q, passes), i, ahead);
  }
}
