/** How well players are packed into rooms. */
module Packing {
  import opened Messages
  import opened RoomModel
  import opened ManagerModel
  import opened Routing
  import opened ServerRuns

  function Heads(r: RoomState): nat {
    (if r.p1.Some? then 1 else 0) + (if r.p2.Some? then 1 else 0)
  }

  // Rooms, half-full rooms and players of one difficulty.
  function Rooms(rooms: seq<RoomEntry>, d: GameDifficulty): nat {
    if rooms == [] then 0
    else (if rooms[0].room.config.difficulty == d then 1 else 0) + Rooms(rooms[1..], d)
  }

  function HalfFull(rooms: seq<RoomEntry>, d: GameDifficulty): nat {
    if rooms == [] then 0
    else (if rooms[0].room.config.difficulty == d && Heads(rooms[0].room) == 1 then 1 else 0) + HalfFull(rooms[1..], d)
  }

  function Players(rooms: seq<RoomEntry>, d: GameDifficulty): nat {
    if rooms == [] then 0
    else (if rooms[0].room.config.difficulty == d then Heads(rooms[0].room) else 0) + Players(rooms[1..], d)
  }

  lemma {:induction false} CountsAppend(a: seq<RoomEntry>, b: seq<RoomEntry>, d: GameDifficulty)
    ensures Rooms(a + b, d) == Rooms(a, d) + Rooms(b, d)
    ensures HalfFull(a + b, d) == HalfFull(a, d) + HalfFull(b, d)
    ensures Players(a + b, d) == Players(a, d) + Players(b, d)
  {
    if a == [] {
      assert a + b == b;
    } else {
      assert (a + b)[1..] == a[1..] + b;
      CountsAppend(a[1..], b, d);
    }
  }

  // Counting around one room.
  lemma CountsAround(rooms: seq<RoomEntry>, i: nat, d: GameDifficulty)
    requires i < |rooms|
    ensures Rooms(rooms, d) == Rooms(Erase(rooms, i), d) + Rooms([rooms[i]], d)
    ensures HalfFull(rooms, d) == HalfFull(Erase(rooms, i), d) + HalfFull([rooms[i]], d)
    ensures Players(rooms, d) == Players(Erase(rooms, i), d) + Players([rooms[i]], d)
  {
    assert rooms == rooms[..i] + ([rooms[i]] + rooms[i + 1..]);
    CountsAppend(rooms[..i], [rooms[i]] + rooms[i + 1..], d);
    CountsAppend([rooms[i]], rooms[i + 1..], d);
    CountsAppend(rooms[..i], rooms[i + 1..], d);
  }

  lemma CountsUpdate(rooms: seq<RoomEntry>, i: nat, e: RoomEntry, d: GameDifficulty)
    requires i < |rooms|
    ensures Rooms(rooms[i := e], d) - Rooms([e], d) == Rooms(rooms, d) - Rooms([rooms[i]], d)
    ensures HalfFull(rooms[i := e], d) - HalfFull([e], d) == HalfFull(rooms, d) - HalfFull([rooms[i]], d)
    ensures Players(rooms[i := e], d) - Players([e], d) == Players(rooms, d) - Players([rooms[i]], d)
  {
    CountsAround(rooms, i, d);
    CountsAround(rooms[i := e], i, d);
    assert Erase(rooms[i := e], i) == Erase(rooms, i);
  }

  /** With no empty room, a half-full room is exactly a room that is one player short. */
  lemma {:induction false} PlayersFillRooms(rooms: seq<RoomEntry>, d: GameDifficulty)
    requires NoEmptyRoom(rooms)
    ensures Players(rooms, d) == 2 * Rooms(rooms, d) - HalfFull(rooms, d)
  {
    if rooms != [] {
      assert rooms[0] in rooms;
      PlayersFillRooms(rooms[1..], d);
    }
  }

  lemma {:induction false} NoSpaceNoHalfFull(rooms: seq<RoomEntry>, d: GameDifficulty)
    requires forall j | 0 <= j < |rooms| :: !HasSpace(rooms[j].room, d)
    ensures HalfFull(rooms, d) == 0
  {
    if rooms != [] {
      NoSpaceNoHalfFull(rooms[1..], d);
    }
  }

  lemma JoinTakesASeat(r: RoomState, id: int, nickname: string)
    requires RoomInv(r) && !r.IsFull()
    ensures Heads(AddPlayer(r, id, nickname).room) == Heads(r) + 1
    ensures AddPlayer(r, id, nickname).room.config == r.config
  {
  }

  // One more head in room `i`.
  lemma SeatTaken(rooms: seq<RoomEntry>, i: nat, e: RoomEntry, k: GameDifficulty)
    requires i < |rooms| && e.room.config == rooms[i].room.config && Heads(e.room) == Heads(rooms[i].room) + 1
    ensures Rooms(rooms[i := e], k) == Rooms(rooms, k)
    ensures e.room.config.difficulty != k ==>
              Players(rooms[i := e], k) == Players(rooms, k) && HalfFull(rooms[i := e], k) == HalfFull(rooms, k)
    ensures e.room.config.difficulty == k ==>
              && Players(rooms[i := e], k) == Players(rooms, k) + 1
              && HalfFull(rooms[i := e], k) == HalfFull(rooms, k) + (if Heads(rooms[i].room) == 0 then 1 else -1)
              && (Heads(rooms[i].room) == 1 ==> HalfFull(rooms, k) > 0)
  {
    CountsUpdate(rooms, i, e, k);
    CountsAround(rooms, i, k);
  }

  /** A join adds one player. It fills a half-full room if there is one; a room is created
      exactly when every room of the difficulty is full. */
  lemma JoinPacks(w: World, id: int, nickname: string, d: GameDifficulty, countdown: int, k: GameDifficulty)
    requires WorldInv(w)
    ensures var v := AddPlayerToRoom(w, id, nickname, d, countdown).rooms;
            if k != d then
              Rooms(v, k) == Rooms(w.rooms, k) && HalfFull(v, k) == HalfFull(w.rooms, k)
              && Players(v, k) == Players(w.rooms, k)
            else
              && Players(v, d) == Players(w.rooms, d) + 1
              && if HalfFull(w.rooms, d) > 0
                 then HalfFull(v, d) == HalfFull(w.rooms, d) - 1 && Rooms(v, d) == Rooms(w.rooms, d)
                 else HalfFull(v, d) == 1 && Rooms(v, d) == Rooms(w.rooms, d) + 1
  {
    var i := FirstWithSpace(w.rooms, d);
    if i < |w.rooms| {
      var r := w.rooms[i].room;
      assert w.rooms[i] in w.rooms;
      JoinTakesASeat(r, id, nickname);
      SeatTaken(w.rooms, i, w.rooms[i].(room := AddPlayer(r, id, nickname).room), k);
    } else {
      JoinCreatesARoom(w, id, nickname, d, countdown, k);
    }
  }

  lemma JoinCreatesARoom(w: World, id: int, nickname: string, d: GameDifficulty, countdown: int, k: GameDifficulty)
    requires WorldInv(w) && FirstWithSpace(w.rooms, d) == |w.rooms|
    ensures var v := AddPlayerToRoom(w, id, nickname, d, countdown).rooms;
            var n := if k == d then 1 else 0;
            && HalfFull(w.rooms, d) == 0
            && Rooms(v, k) == Rooms(w.rooms, k) + n
            && HalfFull(v, k) == HalfFull(w.rooms, k) + n
            && Players(v, k) == Players(w.rooms, k) + n
  {
    var entry := RoomEntry(w.nextKey, NewRoom(RoomConfig(d, countdown, 5, 1)));
    NoSpaceNoHalfFull(w.rooms, d);
    CountsAppend(w.rooms, [entry], k);
    JoinTakesASeat(entry.room, id, nickname);
    SeatTaken(w.rooms + [entry], |w.rooms|, entry.(room := AddPlayer(entry.room, id, nickname).room), k);
  }

  /** A departure adds at most one half-full room. */
  lemma RemovalUnpacks(w: World, id: int, d: GameDifficulty)
    requires WorldInv(w)
    ensures HalfFull(RemovePlayerFromRoom(w, id).rooms, d) <= HalfFull(w.rooms, d) + 1
  {
    var i := FirstWithPlayer(w.rooms, id);
    if i < |w.rooms| {
      var rooms := StepRoom(w, i, Leave(id)).rooms;
      CountsUpdate(w.rooms, i, rooms[i], d);
      CountsAround(rooms, i, d);
      assert rooms[i].room.config == w.rooms[i].room.config;
    }
  }

  // An event inside a room that moves nobody in or out changes no count.
  lemma QuietStepKeepsCounts(w: World, i: nat, e: Event, d: GameDifficulty)
    requires RoomsOk(w.rooms) && i < |w.rooms|
    requires e.TickEvent? || (e.Act? && !e.action.LeaveGame?)
    ensures HalfFull(StepRoom(w, i, e).rooms, d) == HalfFull(w.rooms, d)
    ensures Rooms(StepRoom(w, i, e).rooms, d) == Rooms(w.rooms, d)
  {
    QuietStepKeepsHeads(w.rooms[i].room, e);
    CountsUpdate(w.rooms, i, StepRoom(w, i, e).rooms[i], d);
  }

  lemma QuietStepKeepsHeads(r: RoomState, e: Event)
    requires RoomInv(r)
    requires e.TickEvent? || (e.Act? && !e.action.LeaveGame?)
    ensures Heads(Step(r, e).room) == Heads(r) && Step(r, e).room.config == r.config
  {
  }

  lemma {:induction false} DeliveriesKeepCounts(w: World, id: int, l: seq<Subscriber>, action: PlayerAction,
                                                cs: seq<Chance>, d: GameDifficulty)
    requires RoomsOk(w.rooms) && |cs| == |l| && OnlyRooms(l) && !action.LeaveGame?
    ensures HalfFull(DeliverAll(w, id, l, action, cs).rooms, d) == HalfFull(w.rooms, d)
    ensures Rooms(DeliverAll(w, id, l, action, cs).rooms, d) == Rooms(w.rooms, d)
    decreases |l|
  {
    if l != [] {
      var i := FirstWithKey(w.rooms, l[0].key);
      if i < |w.rooms| {
        QuietStepKeepsCounts(w, i, Act(id, action, cs[0].at), d);
      }
      DeliveriesKeepCounts(Deliver(w, id, l[0], action, cs[0]), id, l[1..], action, cs[1..], d);
    }
  }

  lemma {:induction false} TicksKeepCounts(w: World, i: nat, ticks: seq<TickInput>, d: GameDifficulty)
    requires RoomsOk(w.rooms) && i <= |w.rooms| == |ticks|
    ensures HalfFull(TickFrom(w, i, ticks).rooms, d) == HalfFull(w.rooms, d)
    ensures Rooms(TickFrom(w, i, ticks).rooms, d) == Rooms(w.rooms, d)
    decreases |w.rooms| - i
  {
    if i < |w.rooms| {
      var e := TickEvent(ticks[i].t, ticks[i].draw);
      QuietStepKeepsCounts(w, i, e, d);
      TicksKeepCounts(StepRoom(w, i, e), i + 1, ticks, d);
    }
  }

  predicate IsRemoval(e: ServerEvent) {
    e.Disconnected? || (e.Dispatched? && e.action.LeaveGame?)
  }

  function Removals(es: seq<ServerEvent>): nat {
    if |es| == 0 then 0 else (if IsRemoval(es[0]) then 1 else 0) + Removals(es[1..])
  }

  lemma EventKeepsPacking(w: World, e: ServerEvent, d: GameDifficulty, bound: nat)
    requires ServerInv(w) && LegalEvent(w, e) && HalfFull(w.rooms, d) <= 1 + bound
    ensures HalfFull(ServerStep(w, e).rooms, d) <= 1 + bound + (if IsRemoval(e) then 1 else 0)
  {
    match e
    case Connected(_) =>
    case Disconnected(id) => RemovalUnpacks(w, id, d);
    case Ticked(ticks) => TicksKeepCounts(w, 0, ticks, d);
    case Dispatched(id, snapshot, action, cs) =>
      if snapshot != [] {
        SnapshotShape(w, id, snapshot);
        match action
        case JoinGame(nickname, k) =>
          JoinIsOnePlacement(w, id, snapshot, nickname, k, cs);
          JoinPacks(w, id, nickname, k, cs[0].countdown, d);
        case LeaveGame =>
          LeaveIsOneRemoval(w, id, snapshot, cs);
          RemovalUnpacks(w, id, d);
        case _ =>
          DeliveriesKeepCounts(w, id, snapshot[1..], action, cs[1..], d);
      }
  }

  lemma {:induction false} PackingFrom(w: World, es: seq<ServerEvent>, d: GameDifficulty, bound: nat)
    requires ServerInv(w) && LegalServerRun(w, es) && HalfFull(w.rooms, d) <= 1 + bound
    ensures HalfFull(ServerRun(w, es).rooms, d) <= 1 + bound + Removals(es)
    decreases |es|
  {
    if |es| > 0 {
      EventKeepsPacking(w, es[0], d, bound);
      ServerStepKeepsInv(w, es[0]);
      PackingFrom(ServerStep(w, es[0]), es[1..], d, bound + if IsRemoval(es[0]) then 1 else 0);
    }
  }

  /** In every run, for each difficulty, players = 2 * rooms - half-full rooms, and there are
      at most 1 + removals half-full rooms. So a run without removals uses exactly half as
      many rooms as players, rounded up. */
  lemma PackingBound(es: seq<ServerEvent>, d: GameDifficulty)
    requires LegalServerRun(EMPTY_WORLD, es)
    ensures var rooms := ServerRun(EMPTY_WORLD, es).rooms;
            && Players(rooms, d) == 2 * Rooms(rooms, d) - HalfFull(rooms, d)
            && HalfFull(rooms, d) <= 1 + Removals(es)
            && (Removals(es) == 0 ==> Rooms(rooms, d) == (Players(rooms, d) + 1) / 2)
  {
    TheServerStartsWell();
    EveryRunKeepsTheInvariant(EMPTY_WORLD, es);
    PackingFrom(EMPTY_WORLD, es, d, 0);
    PlayersFillRooms(ServerRun(EMPTY_WORLD, es).rooms, d);
  }
}
