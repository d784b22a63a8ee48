/** Who is seated after a turn: nobody comes in but by joining and nobody goes but by leaving,
    disconnected players are out, and newcomers are in. */
module Attendance {
  import opened Messages
  import opened Chrono
  import opened RoomModel
  import opened ManagerModel
  import opened ServerRuns
  import opened Dispatch
  import opened GameLoop
  import opened Seats
  import opened Turns

  // ---------- the absent stay absent ----------

  lemma AbsentStaysAbsent(r: RoomState, e: Event, k: int)
    requires RoomInv(r) && !r.HasPlayerWithId(k) && !(e.Join? && e.id == k)
    ensures !Step(r, e).room.HasPlayerWithId(k)
  {
    hide Tick, HandlePlayerMessage, AddPlayer, RemovePlayer;
    match e
    case Join(id, nickname) => AbsentThroughJoin(r, id, nickname, k);
    case Leave(id) => AbsentThroughLeave(r, id, k);
    case Act(id, action, at) => AbsentThroughAction(r, id, action, at, k);
    case TickEvent(t, draw) => TickMembership(r, t, draw, k);
  }

  lemma AbsentThroughJoin(r: RoomState, id: int, nickname: string, k: int)
    requires RoomInv(r) && !r.HasPlayerWithId(k) && id != k
    ensures !AddPlayer(r, id, nickname).room.HasPlayerWithId(k)
  {
  }

  lemma AbsentThroughLeave(r: RoomState, id: int, k: int)
    requires RoomInv(r) && !r.HasPlayerWithId(k)
    ensures !RemovePlayer(r, id).room.HasPlayerWithId(k)
  {
  }

  lemma AbsentThroughAction(r: RoomState, id: int, action: PlayerAction, at: Time, k: int)
    requires RoomInv(r) && !r.HasPlayerWithId(k)
    ensures !HandlePlayerMessage(r, id, action, at).room.HasPlayerWithId(k)
  {
    hide RemovePlayer;
    AbsentThroughLeave(r, id, k);
  }

  lemma NowhereAfterStep(w: World, i: nat, e: Event, k: int)
    requires RoomsOk(w.rooms) && i < |w.rooms| && Nowhere(w.rooms, k) && !(e.Join? && e.id == k)
    ensures Nowhere(StepRoom(w, i, e).rooms, k)
  {
    assert w.rooms[i] in w.rooms;
    AbsentStaysAbsent(w.rooms[i].room, e, k);
  }

  lemma NowhereAfterRemoval(w: World, id: int, k: int)
    requires RoomsOk(w.rooms) && Nowhere(w.rooms, k)
    ensures Nowhere(RemovePlayerFromRoom(w, id).rooms, k)
  {
    hide Step;
    var i := FirstWithPlayer(w.rooms, id);
    if i < |w.rooms| {
      NowhereAfterStep(w, i, Leave(id), k);
    }
  }

  lemma NowhereAfterPlacement(w: World, id: int, nickname: string, d: GameDifficulty, countdown: int, k: int)
    requires RoomsOk(w.rooms) && Nowhere(w.rooms, k) && id != k
    ensures Nowhere(AddPlayerToRoom(w, id, nickname, d, countdown).rooms, k)
  {
    hide Step;
    var i := FirstWithSpace(w.rooms, d);
    if i < |w.rooms| {
      NowhereAfterStep(w, i, Join(id, nickname), k);
    } else {
      var entry := RoomEntry(w.nextKey, NewRoom(RoomConfig(d, countdown, 5, 1)));
      var w1 := w.(rooms := w.rooms + [entry], nextKey := w.nextKey + 1);
      StillNowhere(w.rooms, entry, k);
      NowhereAfterStep(w1, i, Join(id, nickname), k);
    }
  }

  // Only its own JOIN_GAME brings a player in.
  lemma NowhereAfterCall(w: World, id: int, s: Subscriber, action: PlayerAction, c: Chance, k: int)
    requires RoomsOk(w.rooms) && Nowhere(w.rooms, k) && !(id == k && action.JoinGame?)
    ensures Nowhere(Deliver(w, id, s, action, c).rooms, k)
  {
    hide AddPlayerToRoom, RemovePlayerFromRoom, Step, Nowhere;
    match s
    case ToGameplay =>
      if action.JoinGame? {
        NowhereAfterPlacement(w, id, action.nickname, action.difficulty, c.countdown, k);
      } else if action.LeaveGame? {
        NowhereAfterRemoval(w, id, k);
      }
    case ToRoom(key) =>
      var i := FirstWithKey(w.rooms, key);
      if i < |w.rooms| {
        NowhereAfterStep(w, i, Act(id, action, c.at), k);
      }
  }

  lemma {:induction false} NowhereAfterMessage(w: World, id: int, l: seq<Subscriber>, action: PlayerAction,
                                               cs: seq<Chance>, k: int)
    requires RoomsOk(w.rooms) && |cs| == |l| && Nowhere(w.rooms, k) && !(id == k && action.JoinGame?)
    ensures Nowhere(DeliverAll(w, id, l, action, cs).rooms, k)
    decreases |l|
  {
    hide Deliver, Nowhere;
    if l != [] {
      NowhereAfterCall(w, id, l[0], action, cs[0], k);
      NowhereAfterMessage(Deliver(w, id, l[0], action, cs[0]), id, l[1..], action, cs[1..], k);
    }
  }

  predicate NoJoin(queue: seq<PlayerAction>) {
    forall a | a in queue :: !a.JoinGame?
  }

  lemma {:induction false} NowhereAfterDrain(w: World, id: int, l: seq<Subscriber>, queue: seq<PlayerAction>, m: nat,
                                             supply: Supply, k: int)
    requires RoomsOk(w.rooms) && Nowhere(w.rooms, k) && (id == k ==> NoJoin(queue))
    ensures Nowhere(DrainPlayer(w, id, l, queue, m, supply).rooms, k)
    decreases |queue|
  {
    hide DeliverAll, Nowhere;
    if queue != [] {
      var cs := ChancesFor(supply, id, m, |l|);
      assert queue[0] in queue;
      NowhereAfterMessage(w, id, l, queue[0], cs, k);
      NowhereAfterDrain(DeliverAll(w, id, l, queue[0], cs), id, l, queue[1..], m + 1, supply, k);
    }
  }

  lemma {:induction false} NowhereAfterPass(w: World, order: seq<int>, actions: ActionQueues, supply: Supply, k: int)
    requires RoomsOk(w.rooms) && Nowhere(w.rooms, k) && NoJoin(Lookup(actions, k))
    ensures Nowhere(DrainPlayers(w, order, actions, supply).rooms, k)
    decreases |order|
  {
    hide DrainPlayer, Nowhere;
    if order != [] {
      var next := DrainPlayer(w, order[0], Lookup(w.subs, order[0]), Lookup(actions, order[0]), 0, supply);
      NowhereAfterDrain(w, order[0], Lookup(w.subs, order[0]), Lookup(actions, order[0]), 0, supply, k);
      NowhereAfterPass(next, order[1..], actions, supply, k);
    }
  }

  lemma {:induction false} NowhereAfterConnectivity(w: World, messages: seq<ConnectivityMessage>, k: int)
    requires RoomsOk(w.rooms) && Nowhere(w.rooms, k)
    ensures Nowhere(ProcessConnectivity(w, messages).rooms, k)
    decreases |messages|
  {
    hide RemovePlayerFromRoom, Nowhere;
    if messages != [] {
      NowhereAfterRemoval(w, messages[0].playerId, k);
      NowhereAfterConnectivity(ProcessOne(w, messages[0]), messages[1..], k);
    }
  }

  lemma NowhereAfterTicks(w: World, v: World, tickOf: nat -> TickInput, k: int)
    requires RoomsOk(w.rooms) && AllTicked(w, v, tickOf) && Nowhere(w.rooms, k)
    ensures Nowhere(v.rooms, k)
  {
    hide Tick;
    forall e | e in v.rooms
      ensures !e.room.HasPlayerWithId(k)
    {
      var i: nat :| i < |v.rooms| && v.rooms[i] == e;
      assert w.rooms[i] in w.rooms;
      TickMembership(w.rooms[i].room, tickOf(i).t, tickOf(i).draw, k);
    }
  }

  // ---------- disconnected players are out ----------

  lemma {:induction false} DisconnectedIsNowhere(w: World, messages: seq<ConnectivityMessage>, id: int)
    requires ServerInv(w) && LegalConnectivity(w, messages) && Disconnect(id) in messages
    ensures Nowhere(ProcessConnectivity(w, messages).rooms, id)
    decreases |messages|
  {
    var first := messages[0];
    if first == Disconnect(id) {
      DisconnectDeparts(w, id);
      NowhereAfterConnectivity(ProcessOne(w, first), messages[1..], id);
    } else {
      ServerStepKeepsInv(w, if first.Connect? then Connected(first.playerId) else Disconnected(first.playerId));
      DisconnectedIsNowhere(ProcessOne(w, first), messages[1..], id);
    }
  }

  /** After a turn that handles the DISCONNECT of a player, the player is in no room, unless a
      JOIN_GAME of its was still queued. */
  lemma DisconnectedPlayersAreOut(s: Loop, o: Outside, order: seq<int>, id: int)
    requires ServerInv(s.world) && LegalConnectivity(s.world, s.connectivity + o.connectivity)
    requires Disconnect(id) in s.connectivity + o.connectivity && NoJoin(Lookup(Arrive(s.actions, o.arrivals), id))
    ensures Nowhere(Next(s, o, order).world.rooms, id)
  {
    DisconnectedIsNowhere(s.world, s.connectivity + o.connectivity, id);
    hide Next, Nowhere, ServerInv, ProcessConnectivity, DrainPlayers;
    var connected := ProcessConnectivity(s.world, s.connectivity + o.connectivity);
    NowhereAfterPass(connected, order, Arrive(s.actions, o.arrivals), o.supply, id);
    TurnTicksEveryRoom(s, o, order);
    NowhereAfterTicks(DrainPlayers(connected, order, Arrive(s.actions, o.arrivals), o.supply), Next(s, o, order).world,
                      o.tickOf, id);
  }

  /** If that is all that happens, the room mate stays behind in a waiting room and is told,
      and the other rooms only tick. */
  lemma RoomMatesAreTold(s: Loop, o: Outside, order: seq<int>, id: int)
    requires WorldInv(s.world) && s.connectivity + o.connectivity == [Disconnect(id)]
    requires Quiet(Arrive(s.actions, o.arrivals), order)
    requires var i := FirstWithPlayer(s.world.rooms, id);
             && i < |s.world.rooms|
             && s.world.rooms[i].room.SlotOf(id).Some?
             && s.world.rooms[i].room.Slot(Other(s.world.rooms[i].room.SlotOf(id).value)).Some?
    ensures var w, v, i := s.world, Next(s, o, order).world, FirstWithPlayer(s.world.rooms, id);
            var r := w.rooms[i].room;
            var a := r.SlotOf(id).value;
            var mate := r.Slot(Other(a)).value;
            && Nowhere(v.rooms, id) && |v.rooms| == |w.rooms|
            && v.rooms[i].room == NewRoom(r.config).WithSlot(Other(a), Some(LeftBehind(mate)))
            && Inbox(mate.id, v.sent) == Inbox(mate.id, w.sent) + [PlayerLeftRoom(a)]
            && forall j: nat | j < |w.rooms| && j != i :: v.rooms[j] == TickedRoom(w.rooms[j], o.tickOf(j))
  {
    var w := s.world;
    var gone := ProcessOne(w, Disconnect(id));
    DisconnectDeparts(w, id);
    DisconnectKeepsWorldInv(w, id);
    ConnectivityInOrder(w, [], [Disconnect(id)]);
    hide Next, ProcessOne, DrainPlayers, Tick, WorldInv, Nowhere, Departed, AllTicked;
    TurnTicksEveryRoom(s, o, order);
    QuietPass(gone, order, Arrive(s.actions, o.arrivals), o.supply);
    NowhereAfterTicks(gone, Next(s, o, order).world, o.tickOf, id);
    WorldInvHasStructure(gone);
    TickAfterDeparture(w, gone, Next(s, o, order).world, o.tickOf, id);
  }

  // The room left behind has nothing to add, and the mate hears of the departure alone.
  lemma TickAfterDeparture(w: World, gone: World, v: World, tickOf: nat -> TickInput, id: int)
    requires RoomsOk(w.rooms) && Structure(gone.rooms, gone.nextKey)
    requires Departed(w, gone, id) && AllTicked(gone, v, tickOf)
    requires var i := FirstWithPlayer(w.rooms, id);
             && i < |w.rooms|
             && w.rooms[i].room.SlotOf(id).Some?
             && w.rooms[i].room.Slot(Other(w.rooms[i].room.SlotOf(id).value)).Some?
    ensures var i := FirstWithPlayer(w.rooms, id);
            var r := w.rooms[i].room;
            var a := r.SlotOf(id).value;
            var mate := r.Slot(Other(a)).value;
            && |v.rooms| == |w.rooms|
            && v.rooms[i].room == NewRoom(r.config).WithSlot(Other(a), Some(LeftBehind(mate)))
            && Inbox(mate.id, v.sent) == Inbox(mate.id, w.sent) + [PlayerLeftRoom(a)]
            && forall j: nat | j < |w.rooms| && j != i :: v.rooms[j] == TickedRoom(w.rooms[j], tickOf(j))
  {
    hide Tick, Nowhere, Structure;
    var i := FirstWithPlayer(w.rooms, id);
    var a := w.rooms[i].room.SlotOf(id).value;
    var mate := w.rooms[i].room.Slot(Other(a)).value;
    assert RoomInv(gone.rooms[i].room);
    WaitingAloneIsSilent(gone.rooms[i].room, tickOf(i));
    MateIsHere(gone, i, a, mate);
    InboxOfOne(mate.id, w.sent, PlayerLeftRoom(a));
  }

  lemma InboxOfOne(id: int, sent: seq<Envelope>, m: GameplayMessage)
    ensures Inbox(id, sent + [Envelope(id, m)]) == Inbox(id, sent) + [m]
  {
    InboxAppend(id, sent, [Envelope(id, m)]);
    assert [Envelope(id, m)][1..] == [];
  }

  lemma WorldInvHasStructure(w: World)
    requires WorldInv(w)
    ensures Structure(w.rooms, w.nextKey)
  {
  }

  lemma DisconnectKeepsWorldInv(w: World, id: int)
    requires WorldInv(w)
    ensures WorldInv(ProcessOne(w, Disconnect(id)))
  {
    RemoveKeepsInv(w, id);
    UnsubscribeForgetsNobody(RemovePlayerFromRoom(w, id).subs, id, ToGameplay);
  }

  // A lone player's waiting room has nothing to say.
  lemma WaitingAloneIsSilent(r: RoomState, input: TickInput)
    requires RoomInv(r) && r.phase == WaitingPlayers && !r.IsFull()
    ensures Tick(r, input.t, input.draw) == Outcome(r, [])
  {
  }

  lemma MateIsHere(w: World, i: nat, a: PlayerAssignment, mate: PlayerState)
    requires Structure(w.rooms, w.nextKey) && i < |w.rooms|
    requires w.rooms[i].room.Slot(Other(a)) == Some(LeftBehind(mate))
    ensures FirstWithPlayer(w.rooms, mate.id) == i
  {
    assert w.rooms[i].room.HasPlayerWithId(mate.id);
  }

  // ---------- the seated stay seated ----------

  // The player sits under this nickname in a room of this difficulty.
  predicate SitsAs(r: RoomState, id: int, nickname: string, d: GameDifficulty) {
    r.config.difficulty == d && r.SlotOf(id).Some? && r.Slot(r.SlotOf(id).value).value.nickname == nickname
  }

  predicate SeatedAs(rooms: seq<RoomEntry>, id: int, nickname: string, d: GameDifficulty) {
    exists e | e in rooms :: SitsAs(e.room, id, nickname, d)
  }

  lemma SeatThroughEvent(r: RoomState, e: Event, id: int, nickname: string, d: GameDifficulty)
    requires RoomInv(r) && SitsAs(r, id, nickname, d)
    requires e.TickEvent? || e.id != id
    ensures SitsAs(Step(r, e).room, id, nickname, d)
  {
    hide Tick, HandlePlayerMessage, AddPlayer, RemovePlayer;
    match e
    case Join(who, name) => SeatThroughJoin(r, who, name, id, nickname, d);
    case Leave(who) => SeatThroughLeave(r, who, id, nickname, d);
    case Act(who, action, at) => SeatThroughAction(r, who, action, at, id, nickname, d);
    case TickEvent(t, draw) => SeatThroughTick(r, t, draw, id, nickname, d);
  }

  lemma SeatThroughJoin(r: RoomState, who: int, name: string, id: int, nickname: string, d: GameDifficulty)
    requires RoomInv(r) && SitsAs(r, id, nickname, d) && who != id
    ensures SitsAs(AddPlayer(r, who, name).room, id, nickname, d)
  {
  }

  lemma SeatThroughLeave(r: RoomState, who: int, id: int, nickname: string, d: GameDifficulty)
    requires RoomInv(r) && SitsAs(r, id, nickname, d) && who != id
    ensures SitsAs(RemovePlayer(r, who).room, id, nickname, d)
  {
  }

  lemma SeatThroughAction(r: RoomState, who: int, action: PlayerAction, at: Time, id: int, nickname: string,
                          d: GameDifficulty)
    requires RoomInv(r) && SitsAs(r, id, nickname, d) && who != id
    ensures SitsAs(HandlePlayerMessage(r, who, action, at).room, id, nickname, d)
  {
    hide RemovePlayer;
    SeatThroughLeave(r, who, id, nickname, d);
  }

  lemma SeatThroughTick(r: RoomState, t: Readings, draw: nat, id: int, nickname: string, d: GameDifficulty)
    requires RoomInv(r) && SitsAs(r, id, nickname, d)
    ensures SitsAs(Tick(r, t, draw).room, id, nickname, d)
  {
    if r.phase == Over {
    } else {
      TickKeepsPlayers(r, t, draw);
      TickKeepsConfig(r, t, draw);
      hide Tick;
    }
  }

  lemma TickKeepsConfig(r: RoomState, t: Readings, draw: nat)
    requires RoomInv(r)
    ensures Tick(r, t, draw).room.config == r.config
  {
  }

  lemma SeatedAfterStep(w: World, i: nat, e: Event, id: int, nickname: string, d: GameDifficulty)
    requires RoomsOk(w.rooms) && i < |w.rooms| && SeatedAs(w.rooms, id, nickname, d)
    requires e.TickEvent? || e.id != id
    ensures SeatedAs(StepRoom(w, i, e).rooms, id, nickname, d)
  {
    hide Step, SitsAs;
    var j :| 0 <= j < |w.rooms| && SitsAs(w.rooms[j].room, id, nickname, d);
    assert w.rooms[i] in w.rooms;
    if i == j {
      SeatThroughEvent(w.rooms[i].room, e, id, nickname, d);
    }
    assert StepRoom(w, i, e).rooms[j] in StepRoom(w, i, e).rooms;
  }

  lemma SeatedAfterRemoval(w: World, who: int, id: int, nickname: string, d: GameDifficulty)
    requires RoomsOk(w.rooms) && SeatedAs(w.rooms, id, nickname, d) && who != id
    ensures SeatedAs(RemovePlayerFromRoom(w, who).rooms, id, nickname, d)
  {
    hide Step, SeatedAs, Erase;
    var i := FirstWithPlayer(w.rooms, who);
    if i < |w.rooms| {
      SeatedAfterStep(w, i, Leave(who), id, nickname, d);
      var rooms := LeaveAt(w, i, who).rooms;
      if rooms[i].room.IsEmpty() {
        SeatedAfterErase(rooms, i, id, nickname, d);
      }
    }
  }

  lemma SeatedAfterErase(rooms: seq<RoomEntry>, i: nat, id: int, nickname: string, d: GameDifficulty)
    requires i < |rooms| && rooms[i].room.IsEmpty() && SeatedAs(rooms, id, nickname, d)
    ensures SeatedAs(Erase(rooms, i), id, nickname, d)
  {
    var j :| 0 <= j < |rooms| && SitsAs(rooms[j].room, id, nickname, d);
    var left := Erase(rooms, i);
    assert left[if j < i then j else j - 1] == rooms[j];
  }

  lemma SeatedAfterPlacement(w: World, who: int, name: string, dd: GameDifficulty, countdown: int, id: int,
                             nickname: string, d: GameDifficulty)
    requires RoomsOk(w.rooms) && SeatedAs(w.rooms, id, nickname, d) && who != id
    ensures SeatedAs(AddPlayerToRoom(w, who, name, dd, countdown).rooms, id, nickname, d)
  {
    hide Step, SitsAs;
    var i := FirstWithSpace(w.rooms, dd);
    if i < |w.rooms| {
      SeatedAfterStep(w, i, Join(who, name), id, nickname, d);
    } else {
      var entry := RoomEntry(w.nextKey, NewRoom(RoomConfig(dd, countdown, 5, 1)));
      SeatedAfterStep(w.(rooms := w.rooms + [entry], nextKey := w.nextKey + 1), i, Join(who, name), id, nickname, d);
    }
  }

  // Only its own departure takes a player out.
  lemma SeatedAfterCall(w: World, who: int, s: Subscriber, action: PlayerAction, c: Chance, id: int, nickname: string,
                        d: GameDifficulty)
    requires RoomsOk(w.rooms) && SeatedAs(w.rooms, id, nickname, d) && who != id
    ensures SeatedAs(Deliver(w, who, s, action, c).rooms, id, nickname, d)
  {
    hide AddPlayerToRoom, RemovePlayerFromRoom, Step, SeatedAs;
    match s
    case ToGameplay =>
      if action.JoinGame? {
        SeatedAfterPlacement(w, who, action.nickname, action.difficulty, c.countdown, id, nickname, d);
      } else if action.LeaveGame? {
        SeatedAfterRemoval(w, who, id, nickname, d);
      }
    case ToRoom(key) =>
      var i := FirstWithKey(w.rooms, key);
      if i < |w.rooms| {
        SeatedAfterStep(w, i, Act(who, action, c.at), id, nickname, d);
      }
  }

  lemma {:induction false} SeatedAfterMessage(w: World, who: int, l: seq<Subscriber>, action: PlayerAction,
                                              cs: seq<Chance>, id: int, nickname: string, d: GameDifficulty)
    requires RoomsOk(w.rooms) && |cs| == |l| && SeatedAs(w.rooms, id, nickname, d) && who != id
    ensures SeatedAs(DeliverAll(w, who, l, action, cs).rooms, id, nickname, d)
    decreases |l|
  {
    hide Deliver, SeatedAs;
    if l != [] {
      SeatedAfterCall(w, who, l[0], action, cs[0], id, nickname, d);
      SeatedAfterMessage(Deliver(w, who, l[0], action, cs[0]), who, l[1..], action, cs[1..], id, nickname, d);
    }
  }

  lemma {:induction false} SeatedAfterDrain(w: World, who: int, l: seq<Subscriber>, queue: seq<PlayerAction>, m: nat,
                                            supply: Supply, id: int, nickname: string, d: GameDifficulty)
    requires RoomsOk(w.rooms) && SeatedAs(w.rooms, id, nickname, d) && who != id
    ensures SeatedAs(DrainPlayer(w, who, l, queue, m, supply).rooms, id, nickname, d)
    decreases |queue|
  {
    hide DeliverAll, SeatedAs;
    if queue != [] {
      var cs := ChancesFor(supply, who, m, |l|);
      SeatedAfterMessage(w, who, l, queue[0], cs, id, nickname, d);
      SeatedAfterDrain(DeliverAll(w, who, l, queue[0], cs), who, l, queue[1..], m + 1, supply, id, nickname, d);
    }
  }

  lemma {:induction false} SeatedAfterPass(w: World, order: seq<int>, actions: ActionQueues, supply: Supply, id: int,
                                           nickname: string, d: GameDifficulty)
    requires RoomsOk(w.rooms) && SeatedAs(w.rooms, id, nickname, d) && id !in order
    ensures SeatedAs(DrainPlayers(w, order, actions, supply).rooms, id, nickname, d)
    decreases |order|
  {
    hide DrainPlayer, SeatedAs;
    if order != [] {
      var next := DrainPlayer(w, order[0], Lookup(w.subs, order[0]), Lookup(actions, order[0]), 0, supply);
      SeatedAfterDrain(w, order[0], Lookup(w.subs, order[0]), Lookup(actions, order[0]), 0, supply, id, nickname, d);
      SeatedAfterPass(next, order[1..], actions, supply, id, nickname, d);
    }
  }

  lemma SeatedAfterTicks(w: World, v: World, tickOf: nat -> TickInput, id: int, nickname: string, d: GameDifficulty)
    requires RoomsOk(w.rooms) && AllTicked(w, v, tickOf) && SeatedAs(w.rooms, id, nickname, d)
    ensures SeatedAs(v.rooms, id, nickname, d)
  {
    hide Tick, SitsAs;
    var i :| 0 <= i < |w.rooms| && SitsAs(w.rooms[i].room, id, nickname, d);
    assert w.rooms[i] in w.rooms;
    SeatThroughTick(w.rooms[i].room, tickOf(i).t, tickOf(i).draw, id, nickname, d);
    assert v.rooms[i] in v.rooms;
  }

  // ---------- newcomers are in ----------

  // The queue of a newcomer that joins and stays.
  predicate JoinsAndStays(queue: seq<PlayerAction>, nickname: string, d: GameDifficulty) {
    queue != [] && queue[0] == JoinGame(nickname, d) && StaysPut(queue[1..])
  }

  // The newcomer's own drain.
  lemma NewcomerTakesASeat(w: World, id: int, queue: seq<PlayerAction>, supply: Supply, nickname: string,
                           d: GameDifficulty)
    requires WorldInv(w) && Lookup(w.subs, id) == [ToGameplay] && Nowhere(w.rooms, id)
    requires JoinsAndStays(queue, nickname, d)
    ensures SeatedAs(DrainPlayer(w, id, [ToGameplay], queue, 0, supply).rooms, id, nickname, d)
  {
    hide AddPlayerToRoom, DrainPlayer;
    assert queue == [JoinGame(nickname, d)] + queue[1..];
    JoinSwallowsTheRestOfThePass(w, id, [ToGameplay], nickname, d, queue[1..], 0, supply);
    var v := AddPlayerToRoom(w, id, nickname, d, supply(id, 0, 0).countdown);
    PlacementSeats(w, id, nickname, d, supply(id, 0, 0).countdown);
    assert v.rooms[FirstWithPlayer(v.rooms, id)] in v.rooms;
  }

  lemma {:induction false} PassSeatsNewcomer(w: World, order: seq<int>, actions: ActionQueues, supply: Supply, id: int,
                                             nickname: string, d: GameDifficulty)
    requires ServerInv(w) && (forall k | k in order :: k in w.subs) && LegalDrains(w, order, actions, supply)
    requires NoDuplicates(order) && id in order
    requires Lookup(w.subs, id) == [ToGameplay] && Nowhere(w.rooms, id)
    requires JoinsAndStays(Lookup(actions, id), nickname, d)
    ensures SeatedAs(DrainPlayers(w, order, actions, supply).rooms, id, nickname, d)
    decreases |order|
  {
    var first, queue := order[0], Lookup(actions, order[0]);
    var snapshot := Lookup(w.subs, first);
    assert RoomsOk(w.rooms) && WorldInv(w);
    var next := DrainPlayer(w, first, snapshot, queue, 0, supply);
    assert first !in order[1..];
    if first == id {
      NewcomerTakesASeat(w, id, queue, supply, nickname, d);
      SeatedAfterPass(next, order[1..], actions, supply, id, nickname, d);
    } else {
      DrainKeepsInv(w, first, snapshot, queue, 0, supply);
      DrainKeepsOtherLists(w, first, snapshot, queue, 0, supply);
      NowhereAfterDrain(w, first, snapshot, queue, 0, supply, id);
      hide DrainPlayer, Nowhere, ServerInv, LegalDrain, SeatedAs;
      assert order == [first] + order[1..];
      PassSeatsNewcomer(next, order[1..], actions, supply, id, nickname, d);
    }
  }

  // A player not yet heard of, once its CONNECT is handled.
  lemma {:induction false} ConnectedIsListened(w: World, messages: seq<ConnectivityMessage>, id: int)
    requires ServerInv(w) && LegalConnectivity(w, messages)
    requires Lookup(w.subs, id) == (if Connect(id) in messages then [] else [ToGameplay])
    ensures Lookup(ProcessConnectivity(w, messages).subs, id) == [ToGameplay]
    decreases |messages|
  {
    if messages != [] {
      var first := messages[0];
      var next := ProcessOne(w, first);
      ServerStepKeepsInv(w, if first.Connect? then Connected(first.playerId) else Disconnected(first.playerId));
      if first.Connect? {
        ConnectListens(w, first.playerId);
      } else {
        DisconnectDeparts(w, first.playerId);
      }
      assert messages == [first] + messages[1..];
      if first == Connect(id) {
        ConnectedOnce(next, messages[1..], id);
      }
      hide ServerInv, ProcessOne;
      ConnectedIsListened(next, messages[1..], id);
    }
  }

  lemma {:induction false} ConnectedOnce(w: World, messages: seq<ConnectivityMessage>, id: int)
    requires ServerInv(w) && LegalConnectivity(w, messages) && Lookup(w.subs, id) != []
    ensures Connect(id) !in messages
    decreases |messages|
  {
    if messages != [] {
      var first := messages[0];
      ServerStepKeepsInv(w, if first.Connect? then Connected(first.playerId) else Disconnected(first.playerId));
      if first.Connect? {
        ConnectListens(w, first.playerId);
      } else {
        DisconnectDeparts(w, first.playerId);
      }
      hide ServerInv, ProcessOne;
      ConnectedOnce(ProcessOne(w, first), messages[1..], id);
      assert messages == [first] + messages[1..];
    }
  }

  /** A player whose CONNECT and JOIN_GAME reach the server before a turn is seated by it,
      under its nickname and in a room of its difficulty, whatever the others do and in
      whatever order the map yields them. */
  lemma NewcomersAreIn(s: Loop, o: Outside, order: seq<int>, id: int, nickname: string, d: GameDifficulty)
    requires ServerInv(s.world) && InMapOrder(s, o, order) && LegalTurn(s, o, order)
    requires Lookup(s.world.subs, id) == [] && Connect(id) in s.connectivity + o.connectivity
    requires JoinsAndStays(Lookup(Arrive(s.actions, o.arrivals), id), nickname, d)
    ensures SeatedAs(Next(s, o, order).world.rooms, id, nickname, d)
  {
    var messages, actions := s.connectivity + o.connectivity, Arrive(s.actions, o.arrivals);
    var connected := ProcessConnectivity(s.world, messages);
    UnlistedIsNowhere(s.world, id);
    ConnectivityKeepsInv(s.world, messages);
    ConnectedIsListened(s.world, messages, id);
    NowhereAfterConnectivity(s.world, messages, id);
    assert id in connected.subs;
    assert RoomsOk(connected.rooms);
    hide Next, Nowhere, ServerInv, ProcessConnectivity, DrainPlayers, SeatedAs;
    PassSeatsNewcomer(connected, order, actions, o.supply, id, nickname, d);
    TurnTicksEveryRoom(s, o, order);
    SeatedAfterTicks(DrainPlayers(connected, order, actions, o.supply), Next(s, o, order).world, o.tickOf,
                     id, nickname, d);
  }

  lemma UnlistedIsNowhere(w: World, id: int)
    requires WorldInv(w) && Lookup(w.subs, id) == []
    ensures Nowhere(w.rooms, id)
  {
  }
}
