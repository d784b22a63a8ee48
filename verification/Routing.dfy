/** Every action goes to Gameplay first and then to every room the player ever subscribed.
    This double, sometimes stale and sometimes duplicate routing does exactly what handling
    the action once does. */
module Routing {
  import opened Messages
  import opened Chrono
  import opened RoomModel
  import opened ManagerModel
  import CleanSlate

  predicate OnlyRooms(l: seq<Subscriber>) {
    forall s | s in l :: s.ToRoom?
  }

  // ---------- callbacks that change nothing ----------

  lemma SilentStepRoom(w: World, i: nat, e: Event)
    requires RoomsOk(w.rooms) && i < |w.rooms|
    requires Step(w.rooms[i].room, e) == Outcome(w.rooms[i].room, [])
    ensures StepRoom(w, i, e) == w
  {
    assert w.rooms[i := w.rooms[i]] == w.rooms;
  }

  lemma RoomsIgnoreOne(w: World, id: int, s: Subscriber, action: PlayerAction, c: Chance)
    requires RoomsOk(w.rooms) && s.ToRoom?
    requires action.JoinGame? || Nowhere(w.rooms, id)
    ensures Deliver(w, id, s, action, c) == w
  {
    var i := FirstWithKey(w.rooms, s.key);
    if i < |w.rooms| {
      assert w.rooms[i] in w.rooms;
      SilentStepRoom(w, i, Act(id, action, c.at));
    }
  }

  lemma {:induction false} RoomsIgnore(w: World, id: int, l: seq<Subscriber>, action: PlayerAction, cs: seq<Chance>)
    requires RoomsOk(w.rooms) && |cs| == |l| && OnlyRooms(l)
    requires action.JoinGame? || Nowhere(w.rooms, id)
    ensures DeliverAll(w, id, l, action, cs) == w
    decreases |l|
  {
    if l != [] {
      RoomsIgnoreOne(w, id, l[0], action, cs[0]);
      RoomsIgnore(w, id, l[1..], action, cs[1..]);
    }
  }

  // ---------- join and leave ----------

  // A snapshot taken of the player's list, at or before the current state.
  predicate Snapshot(w: World, id: int, snapshot: seq<Subscriber>) {
    snapshot <= Lookup(w.subs, id)
  }

  lemma SnapshotShape(w: World, id: int, snapshot: seq<Subscriber>)
    requires WorldInv(w) && Snapshot(w, id, snapshot)
    ensures snapshot != [] ==> snapshot[0] == ToGameplay && OnlyRooms(snapshot[1..])
  {
    if snapshot != [] {
      var l := w.subs[id];
      assert forall j | 0 <= j < |snapshot| :: snapshot[j] == l[j];
    }
  }

  /** LEAVE_GAME: the manager removes the player and erases an emptied room before any room
      hears of it, and every room's own handler is then a no-op. */
  lemma LeaveIsOneRemoval(w: World, id: int, snapshot: seq<Subscriber>, cs: seq<Chance>)
    requires WorldInv(w) && Snapshot(w, id, snapshot) && snapshot != [] && |cs| == |snapshot|
    ensures DeliverAll(w, id, snapshot, LeaveGame, cs) == RemovePlayerFromRoom(w, id)
    ensures Nowhere(RemovePlayerFromRoom(w, id).rooms, id)
  {
    SnapshotShape(w, id, snapshot);
    RemoveKeepsInv(w, id);
    RoomsIgnore(RemovePlayerFromRoom(w, id), id, snapshot[1..], LeaveGame, cs[1..]);
  }

  /** After LEAVE_GAME a key has no stored room any more exactly when it had none before, or
      its room is the leaver's and the leaver was its last occupant. In the code this is the
      exact case in which the rest of the snapshot calls back into an erased room. */
  lemma RoomIsGoneIffLastOccupant(w: World, id: int, i: nat, key: nat)
    requires WorldInv(w) && i < |w.rooms| && w.rooms[i].room.HasPlayerWithId(id)
    ensures var rooms := RemovePlayerFromRoom(w, id).rooms;
            var r := w.rooms[i].room;
            FirstWithKey(rooms, key) == |rooms| <==>
              || FirstWithKey(w.rooms, key) == |w.rooms|
              || (key == w.rooms[i].key && r.Slot(Other(r.SlotOf(id).value)).None?)
  {
    assert RoomsOk(w.rooms);
    hide Step, WorldInv;
    var rooms := LeaveAt(w, i, id).rooms;
    LeaveFindsTheRoom(w, id, i);
    KeyIsFoundIffStored(w.rooms, key);
    KeyIsFoundIffStored(rooms, key);
    SameKeys(w.rooms, rooms, key);
    if rooms[i].room.IsEmpty() {
      ErasedKeys(rooms, i, key);
      KeyIsFoundIffStored(Erase(rooms, i), key);
    }
  }

  // The room the manager takes the leaver out of, and what it finds there.
  lemma LeaveFindsTheRoom(w: World, id: int, i: nat)
    requires WorldInv(w) && i < |w.rooms| && w.rooms[i].room.HasPlayerWithId(id)
    ensures var rooms := LeaveAt(w, i, id).rooms;
            var r := w.rooms[i].room;
            && (forall j, k | 0 <= j < k < |rooms| :: rooms[j].key != rooms[k].key)
            && (forall j | 0 <= j < |rooms| :: rooms[j].key == w.rooms[j].key)
            && (rooms[i].room.IsEmpty() <==> r.Slot(Other(r.SlotOf(id).value)).None?)
            && RemovePlayerFromRoom(w, id).rooms == if rooms[i].room.IsEmpty() then Erase(rooms, i) else rooms
  {
    LeaverEmptiesIffAlone(w.rooms[i].room, id);
    hide Step;
    assert FirstWithPlayer(w.rooms, id) == i;
    assert forall j | 0 <= j < |w.rooms| :: LeaveAt(w, i, id).rooms[j].key == w.rooms[j].key;
  }

  lemma SameKeys(a: seq<RoomEntry>, b: seq<RoomEntry>, key: nat)
    requires |a| == |b| && forall j | 0 <= j < |a| :: a[j].key == b[j].key
    ensures (exists e | e in a :: e.key == key) <==> (exists e | e in b :: e.key == key)
  {
    if j: nat :| j < |a| && a[j].key == key {
      assert b[j] in b && a[j] in a;
    }
  }

  lemma LeaverEmptiesIffAlone(r: RoomState, id: int)
    requires RoomInv(r) && r.HasPlayerWithId(id)
    ensures RemovePlayer(r, id).room.IsEmpty() <==> r.Slot(Other(r.SlotOf(id).value)).None?
    ensures Step(r, Leave(id)) == RemovePlayer(r, id)
  {
  }

  lemma KeyIsFoundIffStored(rooms: seq<RoomEntry>, key: nat)
    ensures FirstWithKey(rooms, key) < |rooms| <==> exists e | e in rooms :: e.key == key
  {
    if FirstWithKey(rooms, key) < |rooms| {
      assert rooms[FirstWithKey(rooms, key)] in rooms;
    }
  }

  lemma ErasedKeys(rooms: seq<RoomEntry>, i: nat, key: nat)
    requires i < |rooms| && forall j, k | 0 <= j < k < |rooms| :: rooms[j].key != rooms[k].key
    ensures (exists e | e in Erase(rooms, i) :: e.key == key)
            <==> (exists e | e in rooms :: e.key == key) && key != rooms[i].key
  {
    var left := Erase(rooms, i);
    assert forall j | 0 <= j < |left| :: left[j] == rooms[if j < i then j else j + 1];
    forall j | 0 <= j < |rooms| && j != i
      ensures rooms[j] in left
    {
      assert left[if j < i then j else j - 1] == rooms[j];
    }
  }

  /** JOIN_GAME: the manager alone acts on it, even if the room joined is in the snapshot. */
  lemma JoinIsOnePlacement(w: World, id: int, snapshot: seq<Subscriber>, nickname: string, d: GameDifficulty,
                           cs: seq<Chance>)
    requires WorldInv(w) && Snapshot(w, id, snapshot) && snapshot != [] && |cs| == |snapshot|
    ensures DeliverAll(w, id, snapshot, JoinGame(nickname, d), cs)
         == AddPlayerToRoom(w, id, nickname, d, cs[0].countdown)
  {
    SnapshotShape(w, id, snapshot);
    var v := AddPlayerToRoom(w, id, nickname, d, cs[0].countdown);
    RoomsIgnore(v, id, snapshot[1..], JoinGame(nickname, d), cs[1..]);
  }

  /** A second departure, or a repeated disconnection, changes no room and publishes
      nothing. */
  lemma RepeatedRemovalIsSilent(w: World, id: int)
    requires WorldInv(w)
    ensures RemovePlayerFromRoom(RemovePlayerFromRoom(w, id), id) == RemovePlayerFromRoom(w, id)
  {
    RemoveKeepsInv(w, id);
    NobodyToFind(RemovePlayerFromRoom(w, id).rooms, id);
  }

  // ---------- the other actions ----------

  // The readings of the deliveries to the room `key`, in order.
  function TimesFor(l: seq<Subscriber>, key: nat, cs: seq<Chance>): (ats: seq<Time>)
    requires |cs| == |l|
    ensures ats == [] <==> ToRoom(key) !in l
  {
    if l == [] then []
    else (if l[0] == ToRoom(key) then [cs[0].at] else []) + TimesFor(l[1..], key, cs[1..])
  }

  lemma {:induction false} TimesCountListings(l: seq<Subscriber>, key: nat, cs: seq<Chance>)
    requires |cs| == |l|
    ensures |TimesFor(l, key, cs)| == multiset(l)[ToRoom(key)]
    decreases |l|
  {
    if l != [] {
      TimesCountListings(l[1..], key, cs[1..]);
      assert l == [l[0]] + l[1..];
      assert multiset(l) == multiset{l[0]} + multiset(l[1..]);
    }
  }

  // One room handling the same action at each of the given times.
  function HandleAt(r: RoomState, id: int, action: PlayerAction, ats: seq<Time>): (o: Outcome)
    requires RoomInv(r)
    ensures RoomInv(o.room)
    decreases |ats|
  {
    if ats == [] then Outcome(r, [])
    else
      var o1 := HandlePlayerMessage(r, id, action, ats[0]);
      var o2 := HandleAt(o1.room, id, action, ats[1..]);
      Outcome(o2.room, o1.sent + o2.sent)
  }

  function Repeat(s: seq<Envelope>, n: nat): seq<Envelope> {
    if n == 0 then [] else s + Repeat(s, n - 1)
  }

  /** Handling an action several times is handling it once, up to receipt times, with the
      messages repeated. */
  lemma {:induction false} HandlingAgainIsHandlingOnce(r: RoomState, id: int, action: PlayerAction, ats: seq<Time>)
    requires RoomInv(r) && DistinctIds(r) && !action.LeaveGame? && ats != []
    ensures var once := HandlePlayerMessage(r, id, action, ats[0]);
            var all := HandleAt(r, id, action, ats);
            && CleanSlate.WithoutReceipts(all.room) == CleanSlate.WithoutReceipts(once.room)
            && all.sent == Repeat(once.sent, |ats|)
    decreases |ats|
  {
    var once := HandlePlayerMessage(r, id, action, ats[0]);
    if |ats| > 1 {
      CleanSlate.RedeliveryIsIdempotent(r, id, action, ats[0], ats[1]);
      StepKeepsDistinctIds(r, Act(id, action, ats[0]));
      HandlingAgainIsHandlingOnce(once.room, id, action, ats[1..]);
    }
  }

  lemma KeysLocate(rooms: seq<RoomEntry>, nextKey: nat, i: nat)
    requires Structure(rooms, nextKey) && i < |rooms|
    ensures FirstWithKey(rooms, rooms[i].key) == i
  {
  }

  lemma RoomDelivery(w: World, id: int, s: Subscriber, action: PlayerAction, c: Chance, i: nat)
    requires Structure(w.rooms, w.nextKey) && s.ToRoom?
    requires i < |w.rooms| && w.rooms[i].room.HasPlayerWithId(id)
    requires !action.LeaveGame?
    ensures Deliver(w, id, s, action, c)
         == if s == ToRoom(w.rooms[i].key) then StepRoom(w, i, Act(id, action, c.at)) else w
  {
    KeysLocate(w.rooms, w.nextKey, i);
    var j := FirstWithKey(w.rooms, s.key);
    if j < |w.rooms| && j != i {
      assert !w.rooms[j].room.HasPlayerWithId(id);
      SilentStepRoom(w, j, Act(id, action, c.at));
    }
  }

  // What the deliveries to rooms amount to: only room `i` moves.
  function Moved(w: World, i: nat, o: Outcome): World
    requires i < |w.rooms|
  {
    w.(rooms := w.rooms[i := w.rooms[i].(room := o.room)], sent := w.sent + o.sent)
  }

  lemma MovedTwice(w: World, i: nat, o1: Outcome, o2: Outcome)
    requires i < |w.rooms|
    ensures Moved(Moved(w, i, o1), i, o2) == Moved(w, i, Outcome(o2.room, o1.sent + o2.sent))
  {
    assert Moved(Moved(w, i, o1), i, o2).rooms == Moved(w, i, o2).rooms;
    assert w.sent + o1.sent + o2.sent == w.sent + (o1.sent + o2.sent);
  }

  lemma {:induction false} RoomDeliveries(w: World, id: int, l: seq<Subscriber>, action: PlayerAction, cs: seq<Chance>,
                                          i: nat)
    requires Structure(w.rooms, w.nextKey) && |cs| == |l| && OnlyRooms(l)
    requires i < |w.rooms| && w.rooms[i].room.HasPlayerWithId(id)
    requires !action.LeaveGame?
    ensures DeliverAll(w, id, l, action, cs)
         == Moved(w, i, HandleAt(w.rooms[i].room, id, action, TimesFor(l, w.rooms[i].key, cs)))
    decreases |l|
  {
    var ats := TimesFor(l, w.rooms[i].key, cs);
    if l == [] {
      assert w.rooms[i := w.rooms[i]] == w.rooms;
    } else {
      RoomDelivery(w, id, l[0], action, cs[0], i);
      if l[0] == ToRoom(w.rooms[i].key) {
        var e := Act(id, action, cs[0].at);
        var o1 := Step(w.rooms[i].room, e);
        var w1 := Moved(w, i, o1);
        assert w1 == StepRoom(w, i, e);
        StepRoomKeepsStructure(w, i, e);
        Membership(w.rooms[i].room, e, id);
        RoomDeliveries(w1, id, l[1..], action, cs[1..], i);
        assert ats[0] == cs[0].at && ats[1..] == TimesFor(l[1..], w.rooms[i].key, cs[1..]);
        MovedTwice(w, i, o1, HandleAt(o1.room, id, action, ats[1..]));
      } else {
        assert ats == TimesFor(l[1..], w.rooms[i].key, cs[1..]);
        RoomDeliveries(w, id, l[1..], action, cs[1..], i);
      }
    }
  }

  /** Any other action of a player in room `i`, through a list with stale and duplicate
      entries: nothing if the snapshot predates the player's arrival in the room; else the
      room handles it once, up to receipt times, and its messages are repeated once per
      duplicate. No other room is touched. */
  lemma ActionIsHandledOnce(w: World, id: int, snapshot: seq<Subscriber>, action: PlayerAction, cs: seq<Chance>, i: nat)
    requires WorldInv(w) && Snapshot(w, id, snapshot) && |cs| == |snapshot|
    requires i < |w.rooms| && w.rooms[i].room.HasPlayerWithId(id)
    requires !action.JoinGame? && !action.LeaveGame?
    ensures var v := DeliverAll(w, id, snapshot, action, cs);
            var ats := TimesFor(snapshot, w.rooms[i].key, cs);
            if ToRoom(w.rooms[i].key) !in snapshot then v == w
            else
              var once := HandlePlayerMessage(w.rooms[i].room, id, action, ats[0]);
              && |v.rooms| == |w.rooms|
              && (forall j | 0 <= j < |w.rooms| && j != i :: v.rooms[j] == w.rooms[j])
              && v.rooms[i].key == w.rooms[i].key
              && CleanSlate.WithoutReceipts(v.rooms[i].room) == CleanSlate.WithoutReceipts(once.room)
              && v.sent == w.sent + Repeat(once.sent, |ats|)
              && v.subs == w.subs && v.nextKey == w.nextKey
  {
    hide HandlePlayerMessage;
    if snapshot == [] {
    } else {
      SnapshotShape(w, id, snapshot);
      var ats := TimesFor(snapshot, w.rooms[i].key, cs);
      assert ats == TimesFor(snapshot[1..], w.rooms[i].key, cs[1..]);
      RoomDeliveries(w, id, snapshot[1..], action, cs[1..], i);
      if ats != [] {
        HandlingAgainIsHandlingOnce(w.rooms[i].room, id, action, ats);
      } else {
        assert Moved(w, i, Outcome(w.rooms[i].room, [])).rooms == w.rooms;
      }
    }
  }

  lemma {:induction false} DeliveriesKeepWorldInv(w: World, id: int, l: seq<Subscriber>, action: PlayerAction,
                                                  cs: seq<Chance>)
    requires WorldInv(w) && |cs| == |l| && !action.JoinGame? && !action.LeaveGame?
    ensures WorldInv(DeliverAll(w, id, l, action, cs))
    decreases |l|
  {
    hide Step;
    if l != [] {
      if l[0].ToRoom? {
        var i := FirstWithKey(w.rooms, l[0].key);
        if i < |w.rooms| {
          QuietStepKeepsInv(w, i, Act(id, action, cs[0].at));
        }
      }
      DeliveriesKeepWorldInv(Deliver(w, id, l[0], action, cs[0]), id, l[1..], action, cs[1..]);
    }
  }

  /** A player who is nowhere cannot be heard, except to join. */
  lemma StrangersAreIgnored(w: World, id: int, snapshot: seq<Subscriber>, action: PlayerAction, cs: seq<Chance>)
    requires WorldInv(w) && Snapshot(w, id, snapshot) && |cs| == |snapshot|
    requires Nowhere(w.rooms, id) && !action.JoinGame?
    ensures DeliverAll(w, id, snapshot, action, cs) == w
  {
    if snapshot != [] {
      SnapshotShape(w, id, snapshot);
      NobodyToFind(w.rooms, id);
      assert Deliver(w, id, snapshot[0], action, cs[0]) == w;
      RoomsIgnore(w, id, snapshot[1..], action, cs[1..]);
    }
  }

  /** An action, whatever it is but a join, leaves alone every room that does not hold its
      sender, stale subscriptions or not. */
  lemma OtherRoomsAreUntouched(w: World, id: int, snapshot: seq<Subscriber>, action: PlayerAction, cs: seq<Chance>)
    requires WorldInv(w) && Snapshot(w, id, snapshot) && |cs| == |snapshot|
    requires !action.JoinGame?
    ensures forall e | e in w.rooms && !e.room.HasPlayerWithId(id) :: e in DeliverAll(w, id, snapshot, action, cs).rooms
  {
    var i := FirstWithPlayer(w.rooms, id);
    if snapshot == [] {
    } else if i == |w.rooms| {
      NobodyToFind(w.rooms, id);
      StrangersAreIgnored(w, id, snapshot, action, cs);
    } else if action.LeaveGame? {
      LeaveIsOneRemoval(w, id, snapshot, cs);
      LeaveTouchesOneRoom(w, id);
    } else {
      ActionIsHandledOnce(w, id, snapshot, action, cs, i);
    }
  }

  lemma LeaveTouchesOneRoom(w: World, id: int)
    requires WorldInv(w)
    ensures forall e | e in w.rooms && !e.room.HasPlayerWithId(id) :: e in RemovePlayerFromRoom(w, id).rooms
  {
    var i := FirstWithPlayer(w.rooms, id);
    if i < |w.rooms| {
      var rooms := StepRoom(w, i, Leave(id)).rooms;
      StepRoomKeepsStructure(w, i, Leave(id));
      EraseKeepsStructure(rooms, i, w.nextKey);
      assert forall j | 0 <= j < |rooms| && j != i :: rooms[j] == w.rooms[j];
    }
  }
}
