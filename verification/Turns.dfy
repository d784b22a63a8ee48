/** What a turn of the gameplay loop does, told by rooms, seats and messages: it ticks every
    room, it takes disconnected players out, it seats newcomers, and it is a run of the server. */
module Turns {
  import opened Messages
  import opened RoomModel
  import opened ManagerModel
  import opened Isolation
  import opened Dispatch
  import opened GameLoop
  import Flags

  // ---------- every room ticks ----------

  function TickedRoom(e: RoomEntry, input: TickInput): RoomEntry
    requires RoomInv(e.room)
  {
    e.(room := Tick(e.room, input.t, input.draw).room)
  }

  // What a player hears of the tick of its room.
  function RoomNews(w: World, tickOf: nat -> TickInput, id: int): seq<GameplayMessage>
    requires RoomsOk(w.rooms)
  {
    var i := FirstWithPlayer(w.rooms, id);
    if i == |w.rooms| then [] else Inbox(id, Tick(w.rooms[i].room, tickOf(i).t, tickOf(i).draw).sent)
  }

  /** `v` is `w` with every room ticked once and every player told what its own room said. */
  ghost predicate AllTicked(w: World, v: World, tickOf: nat -> TickInput)
    requires RoomsOk(w.rooms)
  {
    && |v.rooms| == |w.rooms| && v.subs == w.subs
    && (forall i: nat | i < |w.rooms| :: v.rooms[i] == TickedRoom(w.rooms[i], tickOf(i)))
    && (Structure(w.rooms, w.nextKey) ==> forall id :: Inbox(id, v.sent) == Inbox(id, w.sent) + RoomNews(w, tickOf, id))
  }

  lemma TickFromTicksRooms(w: World, tickOf: nat -> TickInput)
    requires RoomsOk(w.rooms)
    ensures var v := TickFrom(w, 0, TicksFor(tickOf, |w.rooms|));
            && |v.rooms| == |w.rooms| && v.subs == w.subs
            && forall i: nat | i < |w.rooms| :: v.rooms[i] == TickedRoom(w.rooms[i], tickOf(i))
  {
    hide Tick;
    var ticks, indices := TicksFor(tickOf, |w.rooms|), IndexOrder(0, |w.rooms|);
    IndexOrderIsAnOrder(|w.rooms|);
    TickFromIsInOrder(w, 0, ticks);
    TickingIsLocal(w, indices, ticks);
    TicksKeepLists(w, 0, ticks);
  }

  lemma TickFromIsHeard(w: World, tickOf: nat -> TickInput, id: int)
    requires Structure(w.rooms, w.nextKey)
    ensures Inbox(id, TickFrom(w, 0, TicksFor(tickOf, |w.rooms|)).sent) == Inbox(id, w.sent) + RoomNews(w, tickOf, id)
  {
    hide Tick, TickFrom, TickInOrder, Inbox;
    var ticks := TicksFor(tickOf, |w.rooms|);
    IndexOrderIsAnOrder(|w.rooms|);
    TickOrderIsNotObservable(w, IndexOrder(0, |w.rooms|), ticks, id);
  }

  lemma TickFromTicksAll(w: World, tickOf: nat -> TickInput)
    requires RoomsOk(w.rooms)
    ensures AllTicked(w, TickFrom(w, 0, TicksFor(tickOf, |w.rooms|)), tickOf)
  {
    hide TickFrom, RoomNews, Structure;
    TickFromTicksRooms(w, tickOf);
    if Structure(w.rooms, w.nextKey) {
      forall id {
        TickFromIsHeard(w, tickOf, id);
      }
    }
  }

  /** A turn ticks every room of the world its pass leaves, each once. */
  lemma TurnTicksEveryRoom(s: Loop, o: Outside, order: seq<int>)
    requires RoomsOk(s.world.rooms)
    ensures var connected := ProcessConnectivity(s.world, s.connectivity + o.connectivity);
            var drained := DrainPlayers(connected, order, Arrive(s.actions, o.arrivals), o.supply);
            AllTicked(drained, Next(s, o, order).world, o.tickOf)
  {
    hide ProcessConnectivity, DrainPlayers, Arrive, AllTicked;
    var connected := ProcessConnectivity(s.world, s.connectivity + o.connectivity);
    TickFromTicksAll(DrainPlayers(connected, order, Arrive(s.actions, o.arrivals), o.supply), o.tickOf);
  }

  // ---------- quiet turns ----------

  // Nobody of the order has anything queued.
  predicate Quiet(actions: ActionQueues, order: seq<int>) {
    forall id | id in order :: Lookup(actions, id) == []
  }

  lemma {:induction false} QuietPass(w: World, order: seq<int>, actions: ActionQueues, supply: Supply)
    requires RoomsOk(w.rooms) && Quiet(actions, order)
    ensures DrainPlayers(w, order, actions, supply) == w
    decreases |order|
  {
    if order != [] {
      assert order[0] in order && forall id | id in order[1..] :: id in order;
      DrainNothing(w, order[0], Lookup(w.subs, order[0]), 0, supply);
      QuietPass(w, order[1..], actions, supply);
    }
  }

  /** A quiet turn is a tick of every room. */
  lemma QuietTurnTicks(s: Loop, o: Outside, order: seq<int>)
    requires RoomsOk(s.world.rooms) && s.connectivity == [] && o.connectivity == []
    requires Quiet(Arrive(s.actions, o.arrivals), order)
    ensures AllTicked(s.world, Next(s, o, order).world, o.tickOf)
  {
    hide AllTicked, Next, DrainPlayers;
    TurnTicksEveryRoom(s, o, order);
    assert s.connectivity + o.connectivity == [];
    QuietPass(s.world, order, Arrive(s.actions, o.arrivals), o.supply);
  }

  /** Two ready players need nothing more: the next quiet turn starts their game and tells
      both. */
  lemma ReadyPlayersStart(s: Loop, o: Outside, order: seq<int>, i: nat)
    requires WorldInv(s.world) && s.connectivity == [] && o.connectivity == []
    requires Quiet(Arrive(s.actions, o.arrivals), order)
    requires i < |s.world.rooms|
    requires var r := s.world.rooms[i].room;
             && r.phase == WaitingPlayers && r.p1.Some? && r.p2.Some?
             && r.p1.value.isReady && r.p2.value.isReady
    ensures var r := s.world.rooms[i].room;
            var v := Next(s, o, order).world;
            && |v.rooms| == |s.world.rooms| && v.rooms[i].room == r.(phase := Started)
            && forall id | id == r.p1.value.id || id == r.p2.value.id ::
                 Inbox(id, v.sent) == Inbox(id, s.world.sent) + [AllReadyGameStarting]
  {
    var w, v := s.world, Next(s, o, order).world;
    var r := w.rooms[i].room;
    QuietTurnTicks(s, o, order);
    hide Next, Tick;
    Flags.ReadyTick(r, o.tickOf(i).t, o.tickOf(i).draw);
    forall id | id == r.p1.value.id || id == r.p2.value.id
      ensures Inbox(id, v.sent) == Inbox(id, w.sent) + [AllReadyGameStarting]
    {
      assert FirstWithPlayer(w.rooms, id) == i by {
        assert r.HasPlayerWithId(id);
      }
      assert w.rooms[i] in w.rooms;
      InboxOfBoth(r, AllReadyGameStarting, id);
    }
  }

  lemma InboxOfBoth(r: RoomState, m: GameplayMessage, id: int)
    requires r.IsFull() && DistinctIds(r) && r.HasPlayerWithId(id)
    ensures Inbox(id, Flags.Both(r, m)) == [m]
  {
    InboxBroadcast(r, m, id);
    assert Flags.Both(r, m) == Broadcast(r, m);
  }
}
