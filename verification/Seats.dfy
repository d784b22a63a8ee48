/** What a placement, a departure and a connection do to the server, field by field and
    message by message. */
module Seats {
  import opened Messages
  import opened RoomModel
  import opened ManagerModel
  import opened Routing
  import opened Dispatch

  // ---------- placement ----------

  // A newcomer in slot `a`.
  function Newcomer(id: int, nickname: string, a: PlayerAssignment): PlayerState {
    PlayerState(id, nickname, a, isReady := false, canPlay := false, isReadyToReplay := false,
                inputPressed := None, timeToPress := None, inputPressedAtServerTime := None)
  }

  // What the newcomer in slot `a` and its room mate are told.
  function Greetings(id: int, nickname: string, a: PlayerAssignment, mate: Option<PlayerState>): seq<Envelope> {
    if mate.None? then [Envelope(id, RoomJoined(a, None))]
    else
      [Envelope(id, RoomJoined(a, Some(PlayerLobbyDTO(mate.value.nickname, Other(a), mate.value.isReady)))),
       Envelope(mate.value.id, PlayerJoinedRoom(PlayerLobbyDTO(nickname, a, false)))]
  }

  /** A join takes the first free slot with the nickname given, and introduces the two players
      to each other; nothing else in the room changes. A full room turns it away. */
  lemma JoinSeats(r: RoomState, id: int, nickname: string)
    requires RoomInv(r)
    ensures var o := AddPlayer(r, id, nickname);
            if r.p1.None? then
              && o.room == r.(p1 := Some(Newcomer(id, nickname, P1)))
              && o.sent == Greetings(id, nickname, P1, r.p2)
            else if r.p2.None? then
              && o.room == r.(p2 := Some(Newcomer(id, nickname, P2)))
              && o.sent == Greetings(id, nickname, P2, r.p1)
            else o == Outcome(r, [])
  {
  }

  // The room is no place for a newcomer of the difficulty.
  predicate Unsuitable(r: RoomState, d: GameDifficulty) {
    (r.p1.Some? && r.p2.Some?) || r.config.difficulty != d
  }

  /** `v` is `w` after the newcomer took its seat: in the first room of the difficulty with a
      free slot, else in a new room with the countdown given. */
  ghost predicate Seated(w: World, v: World, id: int, nickname: string, d: GameDifficulty, countdown: int) {
    var i := FirstWithPlayer(v.rooms, id);
    && i < |v.rooms| && v.rooms[i].room.SlotOf(id).Some?
    && var r := v.rooms[i].room;
       var a := r.SlotOf(id).value;
       && r.Slot(a) == Some(Newcomer(id, nickname, a))
       && r.config.difficulty == d && r.phase == WaitingPlayers
       && v.sent == w.sent + Greetings(id, nickname, a, r.Slot(Other(a)))
       && Lookup(v.subs, id) == Lookup(w.subs, id) + [ToRoom(v.rooms[i].key)]
       && (forall k | k != id :: Lookup(v.subs, k) == Lookup(w.subs, k))
       && i <= |w.rooms| && (forall j | 0 <= j < i :: Unsuitable(w.rooms[j].room, d))
       && if i < |w.rooms| then
            && |v.rooms| == |w.rooms| && v.nextKey == w.nextKey
            && (forall j | 0 <= j < |w.rooms| && j != i :: v.rooms[j] == w.rooms[j])
            && v.rooms[i].key == w.rooms[i].key && r.WithSlot(a, None) == w.rooms[i].room
          else
            && v.rooms == w.rooms + [v.rooms[i]] && v.rooms[i].key == w.nextKey && v.nextKey == w.nextKey + 1
            && r == RoomState(RoomConfig(d, countdown, 5, 1), WaitingPlayers, Some(Newcomer(id, nickname, P1)), None,
                              North, None, None)
  }

  // A join into room `i`, which has a free slot.
  lemma JoinAtSeats(w: World, i: nat, id: int, nickname: string)
    requires RoomsOk(w.rooms) && Nowhere(w.rooms, id) && i < |w.rooms| && !w.rooms[i].room.IsFull()
    ensures var v := JoinAt(w, i, id, nickname);
            && |v.rooms| == |w.rooms| && v.nextKey == w.nextKey && v.rooms[i].key == w.rooms[i].key
            && (forall j | 0 <= j < |w.rooms| && j != i :: v.rooms[j] == w.rooms[j])
            && FirstWithPlayer(v.rooms, id) == i && v.rooms[i].room.SlotOf(id).Some?
            && var r := v.rooms[i].room;
               var a := r.SlotOf(id).value;
               && r.Slot(a) == Some(Newcomer(id, nickname, a)) && r.WithSlot(a, None) == w.rooms[i].room
               && a == (if w.rooms[i].room.p1.None? then P1 else P2)
               && v.sent == w.sent + Greetings(id, nickname, a, r.Slot(Other(a)))
               && Lookup(v.subs, id) == Lookup(w.subs, id) + [ToRoom(w.rooms[i].key)]
               && forall k | k != id :: Lookup(v.subs, k) == Lookup(w.subs, k)
  {
    var v := JoinAt(w, i, id, nickname);
    assert w.rooms[i] in w.rooms;
    JoinSeats(w.rooms[i].room, id, nickname);
    hide AddPlayer, Greetings;
    assert v.rooms[i].room.HasPlayerWithId(id);
    assert forall j | 0 <= j < i :: w.rooms[j] in w.rooms && v.rooms[j] == w.rooms[j];
  }

  lemma PlacementSeats(w: World, id: int, nickname: string, d: GameDifficulty, countdown: int)
    requires RoomsOk(w.rooms) && Nowhere(w.rooms, id)
    ensures Seated(w, AddPlayerToRoom(w, id, nickname, d, countdown), id, nickname, d, countdown)
  {
    hide JoinAt, Greetings, Nowhere;
    var i := FirstWithSpace(w.rooms, d);
    if i < |w.rooms| {
      assert RoomInv(w.rooms[i].room) by {
        assert w.rooms[i] in w.rooms;
      }
      JoinAtSeats(w, i, id, nickname);
    } else {
      NewRoomSeats(w, id, nickname, d, countdown);
    }
  }

  lemma NewRoomSeats(w: World, id: int, nickname: string, d: GameDifficulty, countdown: int)
    requires RoomsOk(w.rooms) && Nowhere(w.rooms, id) && FirstWithSpace(w.rooms, d) == |w.rooms|
    ensures Seated(w, AddPlayerToRoom(w, id, nickname, d, countdown), id, nickname, d, countdown)
  {
    hide JoinAt, Greetings, Nowhere, FirstWithSpace;
    var config := RoomConfig(d, countdown, 5, 1);
    var entry := RoomEntry(w.nextKey, NewRoom(config));
    var w1 := w.(rooms := w.rooms + [entry], nextKey := w.nextKey + 1);
    var v := JoinAt(w1, |w.rooms|, id, nickname);
    StillNowhere(w.rooms, entry, id);
    JoinAtSeats(w1, |w.rooms|, id, nickname);
    NewRoomIsTheLast(w, w1, v);
    assert v.rooms[|w.rooms|].room == NewRoom(config).(p1 := Some(Newcomer(id, nickname, P1)));
  }

  lemma StillNowhere(rooms: seq<RoomEntry>, entry: RoomEntry, id: int)
    requires Nowhere(rooms, id) && !entry.room.HasPlayerWithId(id)
    ensures Nowhere(rooms + [entry], id)
  {
  }

  lemma NewRoomIsTheLast(w: World, w1: World, v: World)
    requires |v.rooms| == |w1.rooms| == |w.rooms| + 1 && w1.rooms[..|w.rooms|] == w.rooms
    requires forall j | 0 <= j < |w.rooms| :: v.rooms[j] == w1.rooms[j]
    ensures v.rooms == w.rooms + [v.rooms[|w.rooms|]]
  {
    assert forall j | 0 <= j < |w.rooms| :: w.rooms[j] == w1.rooms[..|w.rooms|][j];
  }

  // ---------- departure ----------

  // A player whose room mate has left.
  function LeftBehind(p: PlayerState): PlayerState {
    p.(isReady := true, canPlay := false, isReadyToReplay := false, inputPressed := None, timeToPress := None)
  }

  /** `v` is `w` after the player left: a room mate stays behind in a waiting room and is told
      which slot was left; a room without anybody is gone; all else is as it was. */
  ghost predicate Departed(w: World, v: World, id: int) {
    var i := FirstWithPlayer(w.rooms, id);
    && Nowhere(v.rooms, id)
    && v.nextKey == w.nextKey && (forall k :: Lookup(v.subs, k) == Lookup(w.subs, k))
    && if i == |w.rooms| then v.rooms == w.rooms && v.sent == w.sent
       else
         var r := w.rooms[i].room;
         r.SlotOf(id).Some? &&
         var a := r.SlotOf(id).value;
         var mate := r.Slot(Other(a));
         if mate.None? then v.rooms == w.rooms[..i] + w.rooms[i + 1..] && v.sent == w.sent
         else
           && |v.rooms| == |w.rooms| && (forall j | 0 <= j < |w.rooms| && j != i :: v.rooms[j] == w.rooms[j])
           && v.rooms[i].key == w.rooms[i].key
           && v.rooms[i].room == NewRoom(r.config).WithSlot(Other(a), Some(LeftBehind(mate.value)))
           && v.sent == w.sent + [Envelope(mate.value.id, PlayerLeftRoom(a))]
  }

  lemma LeaveVacates(r: RoomState, id: int)
    requires RoomInv(r) && r.SlotOf(id).Some?
    ensures var a := r.SlotOf(id).value;
            var mate := r.Slot(Other(a));
            var o := RemovePlayer(r, id);
            if mate.None? then o == Outcome(NewRoom(r.config), [])
            else && o.room == NewRoom(r.config).WithSlot(Other(a), Some(LeftBehind(mate.value)))
                 && o.sent == [Envelope(mate.value.id, PlayerLeftRoom(a))]
  {
  }

  lemma RemovalDeparts(w: World, id: int)
    requires WorldInv(w)
    ensures Departed(w, RemovePlayerFromRoom(w, id), id)
  {
    var i := FirstWithPlayer(w.rooms, id);
    RemoveKeepsInv(w, id);
    if i < |w.rooms| {
      assert w.rooms[i] in w.rooms;
      LeaveVacates(w.rooms[i].room, id);
      UnsubscribeForgetsNobody(w.subs, id, ToRoom(w.rooms[i].key));
      hide RemovePlayer, Nowhere, WorldInv;
    }
  }

  /** LEAVE_GAME, whatever the snapshot it is passed through. */
  lemma LeavingDeparts(w: World, id: int, snapshot: seq<Subscriber>, cs: seq<Chance>)
    requires WorldInv(w) && Snapshot(w, id, snapshot) && snapshot != [] && |cs| == |snapshot|
    ensures Departed(w, DeliverAll(w, id, snapshot, LeaveGame, cs), id)
  {
    hide DeliverAll, Departed;
    LeaveIsOneRemoval(w, id, snapshot, cs);
    RemovalDeparts(w, id);
  }

  /** JOIN_GAME of a player who is nowhere, whatever the snapshot it is passed through. */
  lemma JoiningSeats(w: World, id: int, snapshot: seq<Subscriber>, nickname: string, d: GameDifficulty,
                     cs: seq<Chance>)
    requires WorldInv(w) && Nowhere(w.rooms, id)
    requires Snapshot(w, id, snapshot) && snapshot != [] && |cs| == |snapshot|
    ensures Seated(w, DeliverAll(w, id, snapshot, JoinGame(nickname, d), cs), id, nickname, d, cs[0].countdown)
  {
    hide DeliverAll, Seated;
    JoinIsOnePlacement(w, id, snapshot, nickname, d, cs);
    PlacementSeats(w, id, nickname, d, cs[0].countdown);
  }

  // ---------- connectivity ----------

  /** DISCONNECT takes the player out as a departure does. */
  lemma DisconnectDeparts(w: World, id: int)
    requires WorldInv(w)
    ensures Departed(w, ProcessOne(w, Disconnect(id)), id)
  {
    var v := RemovePlayerFromRoom(w, id);
    RemovalDeparts(w, id);
    UnsubscribeForgetsNobody(v.subs, id, ToGameplay);
  }

  /** CONNECT makes Gameplay listen to the player, and does nothing else. */
  lemma ConnectListens(w: World, id: int)
    requires RoomsOk(w.rooms)
    ensures var v := ProcessOne(w, Connect(id));
            && v.rooms == w.rooms && v.nextKey == w.nextKey && v.sent == w.sent
            && forall k :: Lookup(v.subs, k) == Lookup(w.subs, k) + if k == id then [ToGameplay] else []
  {
  }

  /** All connectivity messages are handled, in order. */
  lemma {:induction false} ConnectivityInOrder(w: World, a: seq<ConnectivityMessage>, b: seq<ConnectivityMessage>)
    requires RoomsOk(w.rooms)
    ensures ProcessConnectivity(w, a + b) == ProcessConnectivity(ProcessConnectivity(w, a), b)
    ensures forall m :: ProcessConnectivity(w, [m]) == ProcessOne(w, m)
    decreases |a|
  {
    hide ProcessOne;
    forall m
      ensures ProcessConnectivity(w, [m]) == ProcessOne(w, m)
    {
      assert [m][1..] == [];
    }
    if a == [] {
      assert a + b == b;
    } else {
      TailOfSum(a, b);
      ConnectivityInOrder(ProcessOne(w, a[0]), a[1..], b);
    }
  }
}
