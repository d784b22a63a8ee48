/** Where the interleaving of the two threads and the drain of the world meet: whatever the
    producer does meanwhile, a drain makes exactly the deliveries of `DrainPlayer` over the
    queue it found and everything pushed before it ended. */
module Drains {
  import opened Messages
  import opened ManagerModel
  import opened Dispatch
  import opened Interleaving

  function PoppedUnder<M, S>(queue: seq<M>, l: seq<S>): (popped: seq<Popped<M, S>>)
    ensures |popped| == |queue| && forall k | 0 <= k < |queue| :: popped[k] == Popped(queue[k], l)
  {
    seq(|queue|, k requires 0 <= k < |queue| => Popped(queue[k], l))
  }

  // What the producer pushes during the moves.
  function Pushed<M, S>(moves: seq<Move<M, S>>): seq<M> {
    if |moves| == 0 then []
    else (if moves[0].Publish? then [moves[0].message] else []) + Pushed(moves[1..])
  }

  // ---------- the calls of one drain ----------

  lemma {:induction false} DrainKeepsItsSnapshot<M, S>(c: Channel<M, S>, moves: seq<Move<M, S>>)
    requires c.consumer.Draining? && Possible(c, moves) && forall k | 0 <= k < |moves| :: !moves[k].EndDrain?
    ensures var d := After(c, moves);
            && d.consumer.Draining? && d.consumer.snapshot == c.consumer.snapshot
            && d.published == c.published + Pushed(moves)
            && |c.consumed| <= |d.consumed| && d.consumed[..|c.consumed|] == c.consumed
            && forall k | |c.consumed| <= k < |d.consumed| :: d.consumed[k].snapshot == c.consumer.snapshot
    decreases |moves|
  {
    if |moves| > 0 {
      var n := Next(c, moves[0]);
      DrainKeepsItsSnapshot(n, moves[1..]);
      var d := After(c, moves);
      assert d.consumed[..|c.consumed|] == d.consumed[..|n.consumed|][..|c.consumed|];
      assert d.published == c.published + Pushed(moves);
    }
  }

  lemma {:induction false} MessagesAppend<M, S>(a: seq<Popped<M, S>>, b: seq<Popped<M, S>>)
    ensures MessagesOf(a + b) == MessagesOf(a) + MessagesOf(b)
    decreases |b|
  {
    if b == [] {
      assert a + b == a;
    } else {
      var front, last := b[..|b| - 1], [b[|b| - 1].message];
      assert (a + b)[..|a + b| - 1] == a + front;
      MessagesAppend(a, front);
      assert MessagesOf(a + b) == MessagesOf(a + front) + last && MessagesOf(b) == MessagesOf(front) + last;
      assert (MessagesOf(a) + MessagesOf(front)) + last == MessagesOf(a) + (MessagesOf(front) + last);
    }
  }

  lemma {:induction false} CallsAppend<M, S>(a: seq<Popped<M, S>>, b: seq<Popped<M, S>>)
    ensures CallsOf(a + b) == CallsOf(a) + CallsOf(b)
    decreases |b|
  {
    if b == [] {
      assert a + b == a;
    } else {
      hide ToEach;
      var front, last := b[..|b| - 1], b[|b| - 1];
      var calls := ToEach(last.message, last.snapshot);
      assert (a + b)[..|a + b| - 1] == a + front && (a + b)[|a + b| - 1] == last;
      CallsAppend(a, front);
      assert CallsOf(a + b) == CallsOf(a + front) + calls && CallsOf(b) == CallsOf(front) + calls;
      assert (CallsOf(a) + CallsOf(front)) + calls == CallsOf(a) + (CallsOf(front) + calls);
    }
  }

  // The messages popped, if they were all popped under one snapshot.
  lemma PoppedIs<M, S>(popped: seq<Popped<M, S>>, messages: seq<M>, l: seq<S>)
    requires MessagesOf(popped) == messages && forall k | 0 <= k < |popped| :: popped[k].snapshot == l
    ensures popped == PoppedUnder(messages, l)
  {
    MessagesAt(popped);
  }

  /** A drain under any interleaving passes the queue it found, and whatever was pushed
      before it ended, to each subscriber the player had when it began, once each, in order:
      no other call is made and nothing is left. */
  lemma DrainMakesTheseCalls<M, S>(c: Channel<M, S>, moves: seq<Move<M, S>>)
    requires Faithful(c) && Enabled(c, BeginDrain) && Possible(Next(c, BeginDrain), moves)
    requires forall k | 0 <= k < |moves| :: !moves[k].EndDrain?
    requires Enabled(After(Next(c, BeginDrain), moves), EndDrain)
    ensures var end := Next(After(Next(c, BeginDrain), moves), EndDrain);
            && end.queue == []
            && end.calls == c.calls + CallsOf(PoppedUnder(c.queue + Pushed(moves), c.subscribers))
  {
    var begun := Next(c, BeginDrain);
    NextKeepsFaithful(c, BeginDrain);
    ExactlyOnceInOrder(begun, moves);
    DrainKeepsItsSnapshot(begun, moves);
    hide Faithful;
    DrainedHistory(c, After(begun, moves), Pushed(moves));
  }

  // A drained channel against the channel as the drain found it.
  lemma DrainedHistory<M, S>(c: Channel<M, S>, d: Channel<M, S>, pushed: seq<M>)
    requires Faithful(c) && c.consumer.Idle? && Faithful(d) && d.consumer.Draining? && d.queue == []
    requires d.published == c.published + pushed
    requires |c.consumed| <= |d.consumed| && d.consumed[..|c.consumed|] == c.consumed
    requires forall k | |c.consumed| <= k < |d.consumed| :: d.consumed[k].snapshot == c.subscribers
    ensures d.calls == c.calls + CallsOf(PoppedUnder(c.queue + pushed, c.subscribers))
  {
    hide MessagesOf, CallsOf, ToEach;
    var popped := d.consumed[|c.consumed|..];
    assert d.consumed == c.consumed + popped;
    MessagesAppend(c.consumed, popped);
    CallsAppend(c.consumed, popped);
    assert d.published == MessagesOf(d.consumed);
    assert (MessagesOf(c.consumed) + c.queue) + pushed == MessagesOf(c.consumed) + (c.queue + pushed);
    SamePrefix(MessagesOf(c.consumed), MessagesOf(popped), c.queue + pushed);
    PoppedIs(popped, c.queue + pushed, c.subscribers);
    assert Underway(c) == [] && Underway(d) == [];
  }

  lemma SamePrefix<T>(a: seq<T>, b: seq<T>, c: seq<T>)
    requires a + b == a + c
    ensures b == c
  {
    assert b == (a + b)[|a|..] && c == (a + c)[|a|..];
  }

  // ---------- the same calls in the world ----------

  // The calls run one after the other.
  function Serve(w: World, id: int, calls: seq<Call<PlayerAction, Subscriber>>, cs: seq<Chance>): (v: World)
    requires RoomsOk(w.rooms) && |cs| == |calls|
    ensures RoomsOk(v.rooms)
    decreases |calls|
  {
    if calls == [] then w
    else Serve(Deliver(w, id, calls[0].subscriber, calls[0].message, cs[0]), id, calls[1..], cs[1..])
  }

  lemma {:induction false} ServeAppend(w: World, id: int, a: seq<Call<PlayerAction, Subscriber>>,
                                       b: seq<Call<PlayerAction, Subscriber>>, cs: seq<Chance>, ds: seq<Chance>)
    requires RoomsOk(w.rooms) && |cs| == |a| && |ds| == |b|
    ensures Serve(w, id, a + b, cs + ds) == Serve(Serve(w, id, a, cs), id, b, ds)
    decreases |a|
  {
    hide Deliver;
    if a == [] {
      assert a + b == b && cs + ds == ds;
    } else {
      assert (a + b)[0] == a[0] && (a + b)[1..] == a[1..] + b;
      assert (cs + ds)[0] == cs[0] && (cs + ds)[1..] == cs[1..] + ds;
      ServeAppend(Deliver(w, id, a[0].subscriber, a[0].message, cs[0]), id, a[1..], b, cs[1..], ds);
    }
  }

  lemma {:induction false} ToEachAt<M, S>(message: M, l: seq<S>)
    ensures |ToEach(message, l)| == |l|
    ensures forall k | 0 <= k < |l| :: ToEach(message, l)[k] == Call(l[k], message)
    decreases |l|
  {
    if l != [] {
      ToEachAt(message, l[..|l| - 1]);
    }
  }

  lemma {:induction false} ServeEach(w: World, id: int, action: PlayerAction, l: seq<Subscriber>, cs: seq<Chance>)
    requires RoomsOk(w.rooms) && |cs| == |l| == |ToEach(action, l)|
    ensures Serve(w, id, ToEach(action, l), cs) == DeliverAll(w, id, l, action, cs)
    decreases |l|
  {
    hide Deliver;
    ToEachAt(action, l);
    if l != [] {
      ToEachAt(action, l[1..]);
      assert ToEach(action, l)[1..] == ToEach(action, l[1..]);
      ServeEach(Deliver(w, id, l[0], action, cs[0]), id, action, l[1..], cs[1..]);
    }
  }

  // What the `n` messages of a drain from the `m`-th on take from outside.
  function DrainChances(supply: Supply, id: int, m: nat, n: nat, listings: nat): seq<Chance>
    decreases n
  {
    if n == 0 then [] else ChancesFor(supply, id, m, listings) + DrainChances(supply, id, m + 1, n - 1, listings)
  }

  lemma CallsOfFirst(queue: seq<PlayerAction>, l: seq<Subscriber>)
    requires queue != []
    ensures CallsOf(PoppedUnder(queue, l)) == ToEach(queue[0], l) + CallsOf(PoppedUnder(queue[1..], l))
  {
    var first := [Popped(queue[0], l)];
    assert PoppedUnder(queue, l) == first + PoppedUnder(queue[1..], l);
    CallsAppend(first, PoppedUnder(queue[1..], l));
    assert first[..0] == [];
    assert CallsOf(first) == ToEach(queue[0], l);
  }

  lemma NoCalls(l: seq<Subscriber>)
    ensures CallsOf<PlayerAction, Subscriber>(PoppedUnder([], l)) == []
  {
  }

  /** The drain of the world is its calls, one after the other. */
  lemma {:induction false} DrainIsItsCalls(
      w: World, id: int, l: seq<Subscriber>, queue: seq<PlayerAction>, m: nat, supply: Supply)
    requires RoomsOk(w.rooms)
    ensures var calls := CallsOf(PoppedUnder(queue, l));
            var cs := DrainChances(supply, id, m, |queue|, |l|);
            |cs| == |calls| && DrainPlayer(w, id, l, queue, m, supply) == Serve(w, id, calls, cs)
    decreases |queue|
  {
    hide Deliver, DeliverAll, CallsOf, ToEach, PoppedUnder;
    if queue == [] {
      assert CallsOf(PoppedUnder(queue, l)) == [] by {
        NoCalls(l);
      }
    } else {
      var cs := ChancesFor(supply, id, m, |l|);
      var next := DeliverAll(w, id, l, queue[0], cs);
      CallsOfFirst(queue, l);
      ToEachAt(queue[0], l);
      ServeEach(w, id, queue[0], l, cs);
      DrainIsItsCalls(next, id, l, queue[1..], m + 1, supply);
      ServeAppend(w, id, ToEach(queue[0], l), CallsOf(PoppedUnder(queue[1..], l)), cs,
                  DrainChances(supply, id, m + 1, |queue| - 1, |l|));
    }
  }

  /** So the calls an interleaved drain makes, run on the world, are `DrainPlayer` over the
      queue found and everything pushed meanwhile: what the network thread pushes during a
      drain is served as if it had been there from the start. */
  lemma InterleavedDrainIsDrainPlayer(c: Channel<PlayerAction, Subscriber>, moves: seq<Move<PlayerAction, Subscriber>>,
                                      w: World, id: int, supply: Supply)
    requires Faithful(c) && Enabled(c, BeginDrain) && Possible(Next(c, BeginDrain), moves)
    requires forall k | 0 <= k < |moves| :: !moves[k].EndDrain?
    requires Enabled(After(Next(c, BeginDrain), moves), EndDrain)
    requires RoomsOk(w.rooms)
    ensures var end := Next(After(Next(c, BeginDrain), moves), EndDrain);
            var queue := c.queue + Pushed(moves);
            var cs := DrainChances(supply, id, 0, |queue|, |c.subscribers|);
            && |c.calls| + |cs| == |end.calls| && end.calls[..|c.calls|] == c.calls
            && DrainPlayer(w, id, c.subscribers, queue, 0, supply) == Serve(w, id, end.calls[|c.calls|..], cs)
  {
    hide Deliver, DrainPlayer;
    var queue := c.queue + Pushed(moves);
    DrainMakesTheseCalls(c, moves);
    DrainIsItsCalls(w, id, c.subscribers, queue, 0, supply);
    var made := CallsOf(PoppedUnder(queue, c.subscribers));
    assert (c.calls + made)[|c.calls|..] == made;
  }
}
