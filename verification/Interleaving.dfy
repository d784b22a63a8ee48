/** Producer and consumer of one player's queue, step by step, in any interleaving. The same
    machine describes both directions: actions on their way to the subscribers of the
    gameplay broker, and gameplay messages on their way to the client's callback. They differ
    in how subscribers come and go. Pushing, reading the front and popping are taken to be
    atomic. */
module Interleaving {
  import opened Messages
  import opened ManagerModel

  datatype Consumer<S> =
    | Idle
    | Draining(snapshot: seq<S>, called: nat)   // the front was passed to snapshot[..called]

  datatype Call<M, S> = Call(subscriber: S, message: M)

  // A message popped, with the snapshot it was popped under.
  datatype Popped<M, S> = Popped(message: M, snapshot: seq<S>)

  datatype Channel<M, S> = Channel(
    queue: seq<M>,
    listed: bool,              // the player has an entry in the subscriber map
    everListed: bool,          // it had one at some time
    subscribers: seq<S>,
    consumer: Consumer<S>,
    published: seq<M>,         // all that was ever pushed
    consumed: seq<Popped<M, S>>,
    calls: seq<Call<M, S>>)    // all callbacks ever run

  function NewChannel<M, S>(): Channel<M, S> {
    Channel([], false, false, [], Idle, [], [], [])
  }

  datatype Move<M, S> =
    | Publish(message: M)      // the producer's thread, at any time
    | Subscribe(subscriber: S) // connectivity, or a callback of this very drain: one more
    | Replace(subscriber: S)   // the consumer's thread between passes: the only one
    | Unlist                   // likewise: the entry is erased
    | BeginDrain               // the dispatch loop reaches the player and copies its list
    | CallNext                 // the next callback of the copy gets the front
    | Pop
    | EndDrain

  predicate Enabled<M, S>(c: Channel<M, S>, a: Move<M, S>) {
    match a
    case Publish(_) => true
    case Subscribe(_) => true
    case Replace(_) => c.consumer.Idle?
    case Unlist => c.consumer.Idle?
    case BeginDrain => c.listed && c.consumer.Idle?
    case CallNext => c.consumer.Draining? && c.queue != [] && c.consumer.called < |c.consumer.snapshot|
    case Pop => c.consumer.Draining? && c.queue != [] && c.consumer.called == |c.consumer.snapshot|
    case EndDrain => c.consumer.Draining? && c.queue == []
  }

  function Next<M, S>(c: Channel<M, S>, a: Move<M, S>): Channel<M, S>
    requires Enabled(c, a)
  {
    match a
    case Publish(m) => c.(queue := c.queue + [m], published := c.published + [m])
    case Subscribe(s) => c.(subscribers := c.subscribers + [s], listed := true, everListed := true)
    case Replace(s) => c.(subscribers := [s], listed := true, everListed := true)
    case Unlist => c.(subscribers := [], listed := false)
    case BeginDrain => c.(consumer := Draining(c.subscribers, 0))
    case CallNext =>
      c.(calls := c.calls + [Call(c.consumer.snapshot[c.consumer.called], c.queue[0])],
         consumer := Draining(c.consumer.snapshot, c.consumer.called + 1))
    case Pop =>
      c.(queue := c.queue[1..],
         consumed := c.consumed + [Popped(c.queue[0], c.consumer.snapshot)],
         consumer := Draining(c.consumer.snapshot, 0))
    case EndDrain => c.(consumer := Idle)
  }

  predicate Possible<M, S>(c: Channel<M, S>, moves: seq<Move<M, S>>)
    decreases |moves|
  {
    |moves| == 0 || (Enabled(c, moves[0]) && Possible(Next(c, moves[0]), moves[1..]))
  }

  function After<M, S>(c: Channel<M, S>, moves: seq<Move<M, S>>): Channel<M, S>
    requires Possible(c, moves)
    decreases |moves|
  {
    if |moves| == 0 then c else After(Next(c, moves[0]), moves[1..])
  }

  // ---------- exactly once, in order ----------

  function MessagesOf<M, S>(popped: seq<Popped<M, S>>): seq<M> {
    if popped == [] then [] else MessagesOf(popped[..|popped| - 1]) + [popped[|popped| - 1].message]
  }

  // One message to every subscriber of a list, in order.
  function ToEach<M, S>(message: M, l: seq<S>): seq<Call<M, S>> {
    if l == [] then [] else ToEach(message, l[..|l| - 1]) + [Call(l[|l| - 1], message)]
  }

  // Every popped message to every subscriber of its snapshot, once, in order.
  function CallsOf<M, S>(popped: seq<Popped<M, S>>): seq<Call<M, S>> {
    if popped == [] then []
    else
      var last := popped[|popped| - 1];
      CallsOf(popped[..|popped| - 1]) + ToEach(last.message, last.snapshot)
  }

  // The callbacks already run for the message at the front.
  function Underway<M, S>(c: Channel<M, S>): seq<Call<M, S>>
    requires c.consumer.Draining? ==> c.consumer.called <= |c.consumer.snapshot|
  {
    if c.consumer.Draining? && c.queue != [] then ToEach(c.queue[0], c.consumer.snapshot[..c.consumer.called]) else []
  }

  ghost predicate Faithful<M, S>(c: Channel<M, S>) {
    && (c.consumer.Draining? ==>
          && c.listed
          && c.consumer.called <= |c.consumer.snapshot|
          && (c.queue == [] ==> c.consumer.called == 0))
    && c.published == MessagesOf(c.consumed) + c.queue
    && c.calls == CallsOf(c.consumed) + Underway(c)
    && (c.listed ==> c.everListed)
    && (!c.everListed ==> c.consumed == [])
  }

  lemma NextKeepsFaithful<M, S>(c: Channel<M, S>, a: Move<M, S>)
    requires Faithful(c) && Enabled(c, a)
    ensures Faithful(Next(c, a))
  {
    var n := Next(c, a);
    match a
    case Publish(m) =>
      assert c.published + [m] == MessagesOf(c.consumed) + n.queue;
    case Subscribe(_) =>
    case Replace(_) =>
    case Unlist =>
    case BeginDrain =>
      assert c.consumer.Idle? && n.consumer.snapshot[..0] == [];
    case CallNext =>
      CallExtendsUnderway(c);
    case Pop =>
      PopClosesTheFront(c);
    case EndDrain =>
      assert c.consumer.snapshot[..c.consumer.called] == [];
  }

  lemma CallExtendsUnderway<M, S>(c: Channel<M, S>)
    requires Faithful(c) && Enabled(c, CallNext)
    ensures Next(c, CallNext).calls == CallsOf(c.consumed) + Underway(Next(c, CallNext))
  {
    var l, k := c.consumer.snapshot, c.consumer.called;
    assert l[..k + 1][..k] == l[..k];
    assert ToEach(c.queue[0], l[..k + 1]) == ToEach(c.queue[0], l[..k]) + [Call(l[k], c.queue[0])];
    assert CallsOf(c.consumed) + ToEach(c.queue[0], l[..k]) + [Call(l[k], c.queue[0])]
        == CallsOf(c.consumed) + (ToEach(c.queue[0], l[..k]) + [Call(l[k], c.queue[0])]);
  }

  lemma PopClosesTheFront<M, S>(c: Channel<M, S>)
    requires Faithful(c) && Enabled(c, Pop)
    ensures Faithful(Next(c, Pop))
  {
    var n := Next(c, Pop);
    assert n.consumed[..|c.consumed|] == c.consumed;
    assert c.consumer.snapshot[..c.consumer.called] == c.consumer.snapshot;
    assert n.consumer.snapshot[..0] == [];
    assert c.queue == [c.queue[0]] + n.queue;
    assert MessagesOf(c.consumed) + ([c.queue[0]] + n.queue) == (MessagesOf(c.consumed) + [c.queue[0]]) + n.queue;
  }

  /** In every interleaving of one producer and one consumer: nothing is lost, duplicated or
      reordered (published = consumed ++ queue); every consumed message was passed exactly
      once to each subscriber of its snapshot, in subscription order, and no other call was
      made but those for the front; and before the player is first listed nothing is consumed. */
  lemma {:induction false} ExactlyOnceInOrder<M, S>(c: Channel<M, S>, moves: seq<Move<M, S>>)
    requires Faithful(c) && Possible(c, moves)
    ensures Faithful(After(c, moves))
    decreases |moves|
  {
    if |moves| > 0 {
      NextKeepsFaithful(c, moves[0]);
      ExactlyOnceInOrder(Next(c, moves[0]), moves[1..]);
    }
  }

  // ---------- how subscribers come and go ----------

  // Toward the server a player's list only grows, by subscriptions.
  predicate ServerSide<M, S>(a: Move<M, S>) {
    !a.Replace? && !a.Unlist?
  }

  // Toward a client there is at most one callback: subscribing overwrites it, and it is
  // erased when the connection is dropped.
  predicate ClientSide<M, S>(a: Move<M, S>) {
    !a.Subscribe?
  }

  ghost predicate SnapshotIsPrefix<M, S>(c: Channel<M, S>) {
    c.consumer.Draining? ==> c.consumer.snapshot <= c.subscribers
  }

  ghost predicate OneCallback<M, S>(c: Channel<M, S>) {
    && |c.subscribers| == (if c.listed then 1 else 0)
    && (c.consumer.Draining? ==> |c.consumer.snapshot| == 1)
    && forall p | p in c.consumed :: |p.snapshot| == 1
  }

  lemma SidesKeepTheirShape<M, S>(c: Channel<M, S>, a: Move<M, S>)
    requires Enabled(c, a)
    ensures ServerSide(a) && SnapshotIsPrefix(c) ==> SnapshotIsPrefix(Next(c, a))
    ensures ClientSide(a) && OneCallback(c) ==> OneCallback(Next(c, a))
  {
  }

  // Who subscribes during the moves, in order.
  function Subscribing<M, S>(moves: seq<Move<M, S>>): seq<S> {
    if |moves| == 0 then []
    else (if moves[0].Subscribe? then [moves[0].subscriber] else []) + Subscribing(moves[1..])
  }

  /** Toward the server: after any moves the player's list is the old one followed by everybody
      who has subscribed since, and the player is listed as soon as somebody has. */
  lemma {:induction false} ServerListsGrow<M, S>(c: Channel<M, S>, moves: seq<Move<M, S>>)
    requires Possible(c, moves) && forall k | 0 <= k < |moves| :: ServerSide(moves[k])
    ensures var d := After(c, moves);
            && d.subscribers == c.subscribers + Subscribing(moves)
            && (d.listed <==> c.listed || |Subscribing(moves)| > 0)
    decreases |moves|
  {
    if |moves| > 0 {
      var first := if moves[0].Subscribe? then [moves[0].subscriber] else [];
      ServerListsGrow(Next(c, moves[0]), moves[1..]);
      SumIsAssociative(c.subscribers, first, Subscribing(moves[1..]));
      assert Next(c, moves[0]).subscribers == c.subscribers + first;
    }
  }

  // Whether the client has a callback after the moves, and which; `before` is what it had.
  function Callback<M, S>(moves: seq<Move<M, S>>, before: Option<S>): Option<S>
    decreases |moves|
  {
    if |moves| == 0 then before
    else
      var last := moves[|moves| - 1];
      if last.Replace? then Some(last.subscriber)
      else if last.Unlist? then None
      else Callback(moves[..|moves| - 1], before)
  }

  lemma {:induction false} AfterLast<M, S>(c: Channel<M, S>, moves: seq<Move<M, S>>, last: Move<M, S>)
    requires Possible(c, moves + [last])
    ensures Possible(c, moves) && Enabled(After(c, moves), last)
    ensures After(c, moves + [last]) == Next(After(c, moves), last)
    decreases |moves|
  {
    hide Next, Enabled;
    if |moves| == 0 {
      assert moves + [last] == [last] && [last][1..] == [];
    } else {
      TailOfSum(moves, [last]);
      AfterLast(Next(c, moves[0]), moves[1..], last);
    }
  }

  /** Toward a client: its callback is the one it subscribed last, if it has not been dropped
      since. */
  lemma {:induction false} LastCallbackCounts<M, S>(c: Channel<M, S>, moves: seq<Move<M, S>>, before: Option<S>)
    requires Possible(c, moves) && forall k | 0 <= k < |moves| :: ClientSide(moves[k])
    requires c.subscribers == (if before.Some? then [before.value] else []) && (c.listed <==> before.Some?)
    ensures var callback := Callback(moves, before);
            && After(c, moves).subscribers == (if callback.Some? then [callback.value] else [])
            && (After(c, moves).listed <==> callback.Some?)
    decreases |moves|
  {
    if |moves| > 0 {
      var front, last := moves[..|moves| - 1], moves[|moves| - 1];
      assert moves == front + [last];
      AfterLast(c, front, last);
      LastCallbackCounts(c, front, before);
    }
  }

  // ---------- all players, both directions ----------

  // The hub's queues as both threads see them, with their histories. A client's callback is
  // told apart by a number, the connection it was made for.
  datatype Bus = Bus(
    toServer: map<int, Channel<PlayerAction, Subscriber>>,
    toClients: map<int, Channel<GameplayMessage, int>>)

  function ChannelOf<M, S>(channels: map<int, Channel<M, S>>, id: int): Channel<M, S> {
    if id in channels then channels[id] else NewChannel()
  }

  datatype BusMove =
    | OnServerSide(id: int, action: Move<PlayerAction, Subscriber>)
    | OnClientSide(id: int, message: Move<GameplayMessage, int>)

  predicate BusEnabled(b: Bus, m: BusMove) {
    match m
    case OnServerSide(id, a) => ServerSide(a) && Enabled(ChannelOf(b.toServer, id), a)
    case OnClientSide(id, a) => ClientSide(a) && Enabled(ChannelOf(b.toClients, id), a)
  }

  function BusNext(b: Bus, m: BusMove): Bus
    requires BusEnabled(b, m)
  {
    match m
    case OnServerSide(id, a) => b.(toServer := b.toServer[id := Next(ChannelOf(b.toServer, id), a)])
    case OnClientSide(id, a) => b.(toClients := b.toClients[id := Next(ChannelOf(b.toClients, id), a)])
  }

  predicate BusPossible(b: Bus, ms: seq<BusMove>)
    decreases |ms|
  {
    ms == [] || (BusEnabled(b, ms[0]) && BusPossible(BusNext(b, ms[0]), ms[1..]))
  }

  function BusAfter(b: Bus, ms: seq<BusMove>): Bus
    requires BusPossible(b, ms)
    decreases |ms|
  {
    if ms == [] then b else BusAfter(BusNext(b, ms[0]), ms[1..])
  }

  ghost predicate BusFaithful(b: Bus) {
    && (forall id :: Faithful(ChannelOf(b.toServer, id)) && SnapshotIsPrefix(ChannelOf(b.toServer, id)))
    && (forall id :: Faithful(ChannelOf(b.toClients, id)) && OneCallback(ChannelOf(b.toClients, id)))
  }

  lemma BusNextKeepsFaithful(b: Bus, m: BusMove)
    requires BusFaithful(b) && BusEnabled(b, m)
    ensures BusFaithful(BusNext(b, m))
  {
    hide Faithful, Next, SnapshotIsPrefix, OneCallback;
    var n := BusNext(b, m);
    match m {
      case OnServerSide(id, a) =>
        NextKeepsFaithful(ChannelOf(b.toServer, id), a);
        SidesKeepTheirShape(ChannelOf(b.toServer, id), a);
        assert forall k :: ChannelOf(n.toServer, k)
                        == if k == id then Next(ChannelOf(b.toServer, id), a) else ChannelOf(b.toServer, k);
      case OnClientSide(id, a) =>
        NextKeepsFaithful(ChannelOf(b.toClients, id), a);
        SidesKeepTheirShape(ChannelOf(b.toClients, id), a);
        assert forall k :: ChannelOf(n.toClients, k)
                        == if k == id then Next(ChannelOf(b.toClients, id), a) else ChannelOf(b.toClients, k);
    }
  }

  /** For every player and in both directions, in every interleaving of pushes, consumer
      steps and changes of subscribers over all queues, starting with the empty hub in
      particular: every queue is faithful, a snapshot of the server's is a prefix of the
      player's list, and every message consumed toward a client went to exactly one callback. */
  lemma {:induction false} EveryQueueIsFaithful(b: Bus, ms: seq<BusMove>)
    requires BusFaithful(b) && BusPossible(b, ms)
    ensures BusFaithful(BusAfter(b, ms))
    decreases |ms|
  {
    if ms != [] {
      BusNextKeepsFaithful(b, ms[0]);
      EveryQueueIsFaithful(BusNext(b, ms[0]), ms[1..]);
    }
  }

  lemma TheEmptyBusIsFaithful()
    ensures BusFaithful(Bus(map[], map[]))
  {
  }

  // With one callback per snapshot the calls are the consumed messages.
  lemma {:induction false} OneCallEach<M, S>(popped: seq<Popped<M, S>>)
    requires forall p | p in popped :: |p.snapshot| == 1
    ensures var calls := CallsOf(popped);
            && |calls| == |popped|
            && forall k | 0 <= k < |popped| :: calls[k] == Call(popped[k].snapshot[0], popped[k].message)
    decreases |popped|
  {
    if popped != [] {
      var last := popped[|popped| - 1];
      OneCallEach(popped[..|popped| - 1]);
      assert last.snapshot[..0] == [];
      assert ToEach(last.message, last.snapshot) == [Call(last.snapshot[0], last.message)];
    }
  }

  /** Toward a client, over every run: between two drains the calls made are exactly the
      messages published to it and no longer queued, once each and in order, each to the
      callback the client then had. */
  lemma ClientsHearOnceInOrder(b: Bus, ms: seq<BusMove>, id: int)
    requires BusFaithful(b) && BusPossible(b, ms) && ChannelOf(BusAfter(b, ms).toClients, id).consumer.Idle?
    ensures var c := ChannelOf(BusAfter(b, ms).toClients, id);
            && |c.published| == |c.calls| + |c.queue| && |c.calls| == |c.consumed|
            && forall k | 0 <= k < |c.calls| ::
                 && c.calls[k].message == c.published[k]
                 && c.consumed[k].snapshot == [c.calls[k].subscriber]
  {
    EveryQueueIsFaithful(b, ms);
    var c := ChannelOf(BusAfter(b, ms).toClients, id);
    OneCallEach(c.consumed);
    MessagesAt(c.consumed);
  }

  lemma {:induction false} MessagesAt<M, S>(popped: seq<Popped<M, S>>)
    ensures |MessagesOf(popped)| == |popped|
    ensures forall k | 0 <= k < |popped| :: MessagesOf(popped)[k] == popped[k].message
    decreases |popped|
  {
    if popped != [] {
      MessagesAt(popped[..|popped| - 1]);
    }
  }

  // ---------- what one subscriber sees ----------

  function Repeated<M>(m: M, n: nat): seq<M> {
    if n == 0 then [] else Repeated(m, n - 1) + [m]
  }

  // The messages one subscriber was called with.
  function HeardBy<M, S(==)>(calls: seq<Call<M, S>>, s: S): seq<M> {
    if calls == [] then []
    else
      var last := calls[|calls| - 1];
      HeardBy(calls[..|calls| - 1], s) + (if last.subscriber == s then [last.message] else [])
  }

  // As many copies of each popped message as the subscriber has entries in its snapshot.
  function DueTo<M, S(==)>(popped: seq<Popped<M, S>>, s: S): seq<M> {
    if popped == [] then []
    else
      var last := popped[|popped| - 1];
      DueTo(popped[..|popped| - 1], s) + Repeated(last.message, multiset(last.snapshot)[s])
  }

  lemma {:induction false} HeardAppend<M, S>(a: seq<Call<M, S>>, b: seq<Call<M, S>>, s: S)
    ensures HeardBy(a + b, s) == HeardBy(a, s) + HeardBy(b, s)
    decreases |b|
  {
    if b == [] {
      assert a + b == a;
    } else {
      var front, last := b[..|b| - 1], b[|b| - 1];
      var heard := if last.subscriber == s then [last.message] else [];
      assert (a + b)[..|a + b| - 1] == a + front && (a + b)[|a + b| - 1] == last;
      HeardAppend(a, front, s);
      assert HeardBy(a + b, s) == HeardBy(a + front, s) + heard && HeardBy(b, s) == HeardBy(front, s) + heard;
      assert (HeardBy(a, s) + HeardBy(front, s)) + heard == HeardBy(a, s) + (HeardBy(front, s) + heard);
    }
  }

  lemma {:induction false} EachHears<M, S>(message: M, l: seq<S>, s: S)
    ensures HeardBy(ToEach(message, l), s) == Repeated(message, multiset(l)[s])
    decreases |l|
  {
    if l != [] {
      var front, last := l[..|l| - 1], l[|l| - 1];
      assert l == front + [last];
      assert multiset(l) == multiset(front) + multiset{last};
      assert multiset(l)[s] == multiset(front)[s] + (if last == s then 1 else 0);
      EachHears(message, front, s);
      var calls := ToEach(message, l);
      assert calls[|calls| - 1] == Call(last, message) && calls[..|calls| - 1] == ToEach(message, front);
    }
  }

  /** A subscriber hears the consumed messages in publication order, each as often as the
      subscriber was listed in the snapshot under which it was consumed. */
  lemma {:induction false} SubscriberHearsItsDue<M, S>(popped: seq<Popped<M, S>>, s: S)
    ensures HeardBy(CallsOf(popped), s) == DueTo(popped, s)
    decreases |popped|
  {
    if popped != [] {
      var last := popped[|popped| - 1];
      SubscriberHearsItsDue(popped[..|popped| - 1], s);
      HeardAppend(CallsOf(popped[..|popped| - 1]), ToEach(last.message, last.snapshot), s);
      EachHears(last.message, last.snapshot, s);
    }
  }

  // ---------- termination ----------

  // Steps left in the drain if the producer stays silent.
  function StepsLeft<M, S>(c: Channel<M, S>): nat
    requires c.consumer.Draining? ==> c.consumer.called <= |c.consumer.snapshot|
    requires c.consumer.Draining? && c.queue == [] ==> c.consumer.called == 0
  {
    match c.consumer
    case Idle => 0
    case Draining(l, called) => 1 + Work(|c.queue|, |l|) - called
  }

  function Work(messages: nat, subscribers: nat): (w: nat)
    ensures messages > 0 ==> w >= subscribers + 1
  {
    if messages == 0 then 0 else subscribers + 1 + Work(messages - 1, subscribers)
  }

  /** With no concurrent producer a drain terminates: each of its steps leaves one step
      less, a subscription made by a callback costs nothing, and some step is always
      enabled until the drain ends. Only a publication adds work. */
  lemma DrainTerminates<M, S>(c: Channel<M, S>, a: Move<M, S>)
    requires Faithful(c) && Enabled(c, a) && c.consumer.Draining?
    ensures Faithful(Next(c, a))
    ensures a.CallNext? || a.Pop? || a.EndDrain? ==> StepsLeft(Next(c, a)) == StepsLeft(c) - 1
    ensures a.Subscribe? ==> StepsLeft(Next(c, a)) == StepsLeft(c)
    ensures a.Publish? ==> StepsLeft(Next(c, a)) == StepsLeft(c) + |c.consumer.snapshot| + 1
    ensures Enabled(c, CallNext) || Enabled(c, Pop) || Enabled(c, EndDrain)
  {
    NextKeepsFaithful(c, a);
  }
}
