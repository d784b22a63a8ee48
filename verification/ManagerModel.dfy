/** The gameplay side as a state machine: the rooms of the manager, the subscriber lists of
    the broker and the log of everything published to players. */
module ManagerModel {
  import opened Messages
  import opened Chrono
  import opened RoomModel

  // The context of a subscription: the Gameplay object, or a room. Rooms are told apart by
  // a key, as the code tells them apart by address.
  datatype Subscriber = ToGameplay | ToRoom(key: nat)

  type SubscriberLists = map<int, seq<Subscriber>>

  datatype RoomEntry = RoomEntry(key: nat, room: RoomState)

  datatype World = World(rooms: seq<RoomEntry>, nextKey: nat, subs: SubscriberLists, sent: seq<Envelope>)

  const EMPTY_WORLD := World([], 0, map[], [])

  // What one callback may take from outside: the clock, and the countdown of a new room.
  datatype Chance = Chance(at: Time, countdown: int)

  // ---------- subscriptions ----------

  function Subscribe(subs: SubscriberLists, id: int, s: Subscriber): SubscriberLists {
    subs[id := Lookup(subs, id) + [s]]
  }

  // unsubscribeToPlayerActionMessages as written: it filters a copy, so the only effect on
  // the stored lists is the empty entry that indexing a missing key creates.
  function Unsubscribe(subs: SubscriberLists, id: int, s: Subscriber): SubscriberLists {
    subs[id := Lookup(subs, id)]
  }

  lemma SubscribeAddsOne(subs: SubscriberLists, id: int, s: Subscriber)
    ensures forall k, x ::
              x in Lookup(Subscribe(subs, id, s), k) <==> (x in Lookup(subs, k) || (k == id && x == s))
  {
  }

  lemma UnsubscribeForgetsNobody(subs: SubscriberLists, id: int, s: Subscriber)
    ensures forall k :: Lookup(Unsubscribe(subs, id, s), k) == Lookup(subs, k)
  {
  }

  // ---------- the room manager ----------

  predicate RoomsOk(rooms: seq<RoomEntry>) {
    forall e | e in rooms :: RoomInv(e.room)
  }

  predicate HasSpace(r: RoomState, d: GameDifficulty) {
    !r.IsFull() && r.config.difficulty == d
  }

  // The first room of the difficulty with a free slot, or |rooms|.
  function FirstWithSpace(rooms: seq<RoomEntry>, d: GameDifficulty): (i: nat)
    ensures i <= |rooms|
    ensures i < |rooms| ==> HasSpace(rooms[i].room, d)
    ensures forall j | 0 <= j < i :: !HasSpace(rooms[j].room, d)
  {
    if rooms == [] || HasSpace(rooms[0].room, d) then 0 else 1 + FirstWithSpace(rooms[1..], d)
  }

  // The first room holding the player, or |rooms|.
  function FirstWithPlayer(rooms: seq<RoomEntry>, id: int): (i: nat)
    ensures i <= |rooms|
    ensures i < |rooms| ==> rooms[i].room.HasPlayerWithId(id)
    ensures forall j | 0 <= j < i :: !rooms[j].room.HasPlayerWithId(id)
  {
    if rooms == [] || rooms[0].room.HasPlayerWithId(id) then 0 else 1 + FirstWithPlayer(rooms[1..], id)
  }

  function FirstWithKey(rooms: seq<RoomEntry>, key: nat): (i: nat)
    ensures i <= |rooms|
    ensures i < |rooms| ==> rooms[i].key == key
    ensures forall j | 0 <= j < i :: rooms[j].key != key
  {
    if rooms == [] || rooms[0].key == key then 0 else 1 + FirstWithKey(rooms[1..], key)
  }

  // One event in one room.
  function StepRoom(w: World, i: nat, e: Event): (v: World)
    requires RoomsOk(w.rooms) && i < |w.rooms|
    ensures RoomsOk(v.rooms)
  {
    var o := Step(w.rooms[i].room, e);
    w.(rooms := w.rooms[i := w.rooms[i].(room := o.room)], sent := w.sent + o.sent)
  }

  // A join, a departure and an action in room `i`, with their effect on the subscriptions.

  function JoinAt(w: World, i: nat, id: int, nickname: string): (v: World)
    requires RoomsOk(w.rooms) && i < |w.rooms|
    ensures RoomsOk(v.rooms)
  {
    StepRoom(w, i, Join(id, nickname)).(subs := Subscribe(w.subs, id, ToRoom(w.rooms[i].key)))
  }

  function LeaveAt(w: World, i: nat, id: int): (v: World)
    requires RoomsOk(w.rooms) && i < |w.rooms|
    ensures RoomsOk(v.rooms) && |v.rooms| == |w.rooms|
  {
    StepRoom(w, i, Leave(id)).(subs := Unsubscribe(w.subs, id, ToRoom(w.rooms[i].key)))
  }

  function ActAt(w: World, i: nat, id: int, action: PlayerAction, at: Time): (v: World)
    requires RoomsOk(w.rooms) && i < |w.rooms|
    ensures RoomsOk(v.rooms)
  {
    var v := StepRoom(w, i, Act(id, action, at));
    if action.LeaveGame? && w.rooms[i].room.HasPlayerWithId(id)
    then v.(subs := Unsubscribe(w.subs, id, ToRoom(w.rooms[i].key))) else v
  }

  function Erase(rooms: seq<RoomEntry>, i: nat): seq<RoomEntry>
    requires i < |rooms|
  {
    rooms[..i] + rooms[i + 1..]
  }

  function AddPlayerToRoom(w: World, id: int, nickname: string, d: GameDifficulty, countdown: int): (v: World)
    requires RoomsOk(w.rooms)
    ensures RoomsOk(v.rooms)
  {
    var i := FirstWithSpace(w.rooms, d);
    if i < |w.rooms| then JoinAt(w, i, id, nickname)
    else
      var entry := RoomEntry(w.nextKey, NewRoom(RoomConfig(d, countdown, 5, 1)));
      JoinAt(w.(rooms := w.rooms + [entry], nextKey := w.nextKey + 1), i, id, nickname)
  }

  function RemovePlayerFromRoom(w: World, id: int): (v: World)
    requires RoomsOk(w.rooms)
    ensures RoomsOk(v.rooms)
  {
    var i := FirstWithPlayer(w.rooms, id);
    if i < |w.rooms| then
      var v := LeaveAt(w, i, id);
      if v.rooms[i].room.IsEmpty() then v.(rooms := Erase(v.rooms, i)) else v
    else w
  }

  // One callback. A key without a room is that of an erased room: a detached, empty room.
  function Deliver(w: World, id: int, s: Subscriber, action: PlayerAction, c: Chance): (v: World)
    requires RoomsOk(w.rooms)
    ensures RoomsOk(v.rooms)
  {
    match s
    case ToGameplay =>
      (match action
       case JoinGame(nickname, d) => AddPlayerToRoom(w, id, nickname, d, c.countdown)
       case LeaveGame => RemovePlayerFromRoom(w, id)
       case _ => w)
    case ToRoom(key) =>
      var i := FirstWithKey(w.rooms, key);
      if i < |w.rooms| then ActAt(w, i, id, action, c.at) else w
  }

  // One message, to every subscriber of the snapshot in order.
  function DeliverAll(w: World, id: int, snapshot: seq<Subscriber>, action: PlayerAction, cs: seq<Chance>): (v: World)
    requires RoomsOk(w.rooms) && |cs| == |snapshot|
    ensures RoomsOk(v.rooms)
    decreases |snapshot|
  {
    if snapshot == [] then w
    else DeliverAll(Deliver(w, id, snapshot[0], action, cs[0]), id, snapshot[1..], action, cs[1..])
  }

  lemma DeliverToNobody(w: World, id: int, action: PlayerAction)
    requires RoomsOk(w.rooms)
    ensures DeliverAll(w, id, [], action, []) == w
  {
  }

  lemma DeliverNext(w: World, id: int, snapshot: seq<Subscriber>, action: PlayerAction, cs: seq<Chance>, j: nat)
    requires RoomsOk(w.rooms) && |cs| == |snapshot| && j < |snapshot|
    ensures DeliverAll(w, id, snapshot[j..], action, cs[j..])
         == DeliverAll(Deliver(w, id, snapshot[j], action, cs[j]), id, snapshot[j + 1..], action, cs[j + 1..])
  {
    hide Deliver;
    assert snapshot[j..][0] == snapshot[j] && snapshot[j..][1..] == snapshot[j + 1..];
    assert cs[j..][0] == cs[j] && cs[j..][1..] == cs[j + 1..];
  }

  datatype TickInput = TickInput(t: Readings, draw: nat)

  // The rooms from index `i` on tick in order.
  function TickFrom(w: World, i: nat, ticks: seq<TickInput>): (v: World)
    requires RoomsOk(w.rooms) && i <= |w.rooms| == |ticks|
    ensures RoomsOk(v.rooms) && |v.rooms| == |w.rooms|
    decreases |w.rooms| - i
  {
    if i == |w.rooms| then w
    else TickFrom(StepRoom(w, i, TickEvent(ticks[i].t, ticks[i].draw)), i + 1, ticks)
  }

  lemma TickFromNext(w: World, i: nat, ticks: seq<TickInput>)
    requires RoomsOk(w.rooms) && i < |w.rooms| == |ticks|
    ensures TickFrom(w, i, ticks) == TickFrom(StepRoom(w, i, TickEvent(ticks[i].t, ticks[i].draw)), i + 1, ticks)
  {
  }

  // ---------- the invariant ----------

  predicate Nowhere(rooms: seq<RoomEntry>, id: int) {
    forall e | e in rooms :: !e.room.HasPlayerWithId(id)
  }

  lemma NobodyToFind(rooms: seq<RoomEntry>, id: int)
    ensures Nowhere(rooms, id) <==> FirstWithPlayer(rooms, id) == |rooms|
  {
  }

  // Well-formed rooms with distinct keys and disjoint player sets.
  ghost predicate Structure(rooms: seq<RoomEntry>, nextKey: nat) {
    && RoomsOk(rooms)
    && (forall e | e in rooms :: DistinctIds(e.room) && e.key < nextKey)
    && (forall i, j | 0 <= i < j < |rooms| :: rooms[i].key != rooms[j].key)
    && (forall i, j, id | 0 <= i < j < |rooms| ::
          !(rooms[i].room.HasPlayerWithId(id) && rooms[j].room.HasPlayerWithId(id)))
  }

  predicate NoEmptyRoom(rooms: seq<RoomEntry>) {
    forall e | e in rooms :: !e.room.IsEmpty()
  }

  // Whoever sits in a room has the room among its subscribers.
  ghost predicate Subscribed(rooms: seq<RoomEntry>, subs: SubscriberLists) {
    forall e, id | e in rooms && e.room.HasPlayerWithId(id) :: ToRoom(e.key) in Lookup(subs, id)
  }

  // Gameplay subscribed first and once; rooms follow.
  predicate GoodList(l: seq<Subscriber>, nextKey: nat) {
    forall j | 0 <= j < |l| :: if j == 0 then l[j] == ToGameplay else l[j].ToRoom? && l[j].key < nextKey
  }

  ghost predicate WorldInv(w: World) {
    && Structure(w.rooms, w.nextKey)
    && NoEmptyRoom(w.rooms)
    && Subscribed(w.rooms, w.subs)
    && (forall id | id in w.subs :: GoodList(w.subs[id], w.nextKey))
  }

  // ---------- who is in a room after a step ----------

  lemma JoinMembership(r: RoomState, id: int, nickname: string, k: int)
    requires RoomInv(r)
    ensures AddPlayer(r, id, nickname).room.HasPlayerWithId(k)
            <==> (r.HasPlayerWithId(k) || (!r.IsFull() && k == id))
  {
  }

  lemma LeaveMembership(r: RoomState, id: int, k: int)
    requires RoomInv(r) && DistinctIds(r)
    ensures RemovePlayer(r, id).room.HasPlayerWithId(k) <==> (r.HasPlayerWithId(k) && k != id)
  {
  }

  lemma TickMembership(r: RoomState, t: Readings, draw: nat, k: int)
    requires RoomInv(r)
    ensures Tick(r, t, draw).room.HasPlayerWithId(k) <==> r.HasPlayerWithId(k)
  {
  }

  lemma ActMembership(r: RoomState, id: int, action: PlayerAction, at: Time, k: int)
    requires RoomInv(r) && DistinctIds(r)
    ensures HandlePlayerMessage(r, id, action, at).room.HasPlayerWithId(k)
            <==> (r.HasPlayerWithId(k) && !(action.LeaveGame? && k == id))
  {
    if r.SlotOf(id).Some? && action.LeaveGame? {
      LeaveMembership(r, id, k);
    }
  }

  predicate TakesOut(e: Event, k: int) {
    (e.Leave? && e.id == k) || (e.Act? && e.action.LeaveGame? && e.id == k)
  }

  /** Only a join into a free slot brings a player in, and only its own departure takes one
      out. */
  lemma Membership(r: RoomState, e: Event, k: int)
    requires RoomInv(r) && DistinctIds(r)
    ensures Step(r, e).room.HasPlayerWithId(k)
            <==> ((r.HasPlayerWithId(k) && !TakesOut(e, k)) || (e.Join? && !r.IsFull() && e.id == k))
  {
    match e
    case Join(id, nickname) => JoinMembership(r, id, nickname, k);
    case Leave(id) => LeaveMembership(r, id, k);
    case Act(id, action, at) => ActMembership(r, id, action, at, k);
    case TickEvent(t, draw) => TickMembership(r, t, draw, k);
  }

  lemma MembershipOfAll(r: RoomState, e: Event)
    requires RoomInv(r) && DistinctIds(r)
    ensures forall k ::
              Step(r, e).room.HasPlayerWithId(k) <==>
              ((r.HasPlayerWithId(k) && !TakesOut(e, k)) || (e.Join? && !r.IsFull() && e.id == k))
  {
    forall k
      ensures Step(r, e).room.HasPlayerWithId(k)
              <==> ((r.HasPlayerWithId(k) && !TakesOut(e, k)) || (e.Join? && !r.IsFull() && e.id == k))
    {
      Membership(r, e, k);
    }
  }

  lemma InhabitedIffSomeone(r: RoomState)
    ensures r.IsEmpty() <==> forall k :: !r.HasPlayerWithId(k)
  {
    if !r.IsEmpty() {
      assert r.HasPlayerWithId(if r.p1.Some? then r.p1.value.id else r.p2.value.id);
    }
  }

  // ---------- each operation keeps the invariant ----------

  lemma StepRoomKeepsStructure(w: World, i: nat, e: Event)
    requires Structure(w.rooms, w.nextKey) && i < |w.rooms|
    requires e.Join? ==> Nowhere(w.rooms, e.id)
    ensures Structure(StepRoom(w, i, e).rooms, w.nextKey)
  {
    StepKeepsDistinctIds(w.rooms[i].room, e);
    MembershipOfAll(w.rooms[i].room, e);
    var rooms := StepRoom(w, i, e).rooms;
    assert forall k | 0 <= k < |rooms| :: rooms[k].key == w.rooms[k].key;
  }

  lemma EraseKeepsStructure(rooms: seq<RoomEntry>, i: nat, nextKey: nat)
    requires Structure(rooms, nextKey) && i < |rooms|
    ensures Structure(Erase(rooms, i), nextKey)
    ensures forall e | e in Erase(rooms, i) :: e in rooms
    ensures forall j | 0 <= j < |rooms| && j != i :: rooms[j] in Erase(rooms, i)
  {
    var left := Erase(rooms, i);
    assert forall j | 0 <= j < |left| :: left[j] == rooms[if j < i then j else j + 1];
    forall j | 0 <= j < |rooms| && j != i
      ensures rooms[j] in left
    {
      assert left[if j < i then j else j - 1] == rooms[j];
    }
  }

  // A step that takes nobody out keeps the rooms inhabited and the subscriptions matched.
  lemma QuietStepKeepsInv(w: World, i: nat, e: Event)
    requires WorldInv(w) && i < |w.rooms|
    requires e.TickEvent? || (e.Act? && !e.action.LeaveGame?)
    ensures WorldInv(StepRoom(w, i, e))
    ensures forall j, k | 0 <= j < |w.rooms| ::
              StepRoom(w, i, e).rooms[j].room.HasPlayerWithId(k) <==> w.rooms[j].room.HasPlayerWithId(k)
  {
    StepRoomKeepsStructure(w, i, e);
    MembershipOfAll(w.rooms[i].room, e);
    InhabitedIffSomeone(w.rooms[i].room);
  }

  lemma JoinRoomKeepsInv(w: World, i: nat, id: int, nickname: string)
    requires Structure(w.rooms, w.nextKey) && Subscribed(w.rooms, w.subs) && i < |w.rooms|
    requires forall k | k in w.subs :: GoodList(w.subs[k], w.nextKey)
    requires forall e | e in w.rooms && e.room.IsEmpty() :: e == w.rooms[i]
    requires Nowhere(w.rooms, id) && Lookup(w.subs, id) != [] && !w.rooms[i].room.IsFull()
    ensures var v := StepRoom(w, i, Join(id, nickname)).(subs := Subscribe(w.subs, id, ToRoom(w.rooms[i].key)));
            WorldInv(v) && !Nowhere(v.rooms, id)
  {
    var v := StepRoom(w, i, Join(id, nickname)).(subs := Subscribe(w.subs, id, ToRoom(w.rooms[i].key)));
    StepRoomKeepsStructure(w, i, Join(id, nickname));
    MembershipOfAll(w.rooms[i].room, Join(id, nickname));
    InhabitedIffSomeone(v.rooms[i].room);
    assert v.rooms[i] in v.rooms && v.rooms[i].room.HasPlayerWithId(id);
    SubscribeAddsOne(w.subs, id, ToRoom(w.rooms[i].key));
    assert Subscribed(v.rooms, v.subs) by {
      forall e, k | e in v.rooms && e.room.HasPlayerWithId(k)
        ensures ToRoom(e.key) in Lookup(v.subs, k)
      {
        var j :| 0 <= j < |v.rooms| && v.rooms[j] == e;
        assert w.rooms[j] in w.rooms;
      }
    }
  }

  lemma NewRoomKeepsStructure(rooms: seq<RoomEntry>, config: RoomConfig, nextKey: nat)
    requires Structure(rooms, nextKey)
    ensures Structure(rooms + [RoomEntry(nextKey, NewRoom(config))], nextKey + 1)
  {
  }

  /** A join keeps the invariant, if the player is nowhere yet. */
  lemma AddKeepsInv(w: World, id: int, nickname: string, d: GameDifficulty, countdown: int)
    requires WorldInv(w) && Nowhere(w.rooms, id) && Lookup(w.subs, id) != []
    ensures WorldInv(AddPlayerToRoom(w, id, nickname, d, countdown))
    ensures !Nowhere(AddPlayerToRoom(w, id, nickname, d, countdown).rooms, id)
  {
    hide Step;
    var i := FirstWithSpace(w.rooms, d);
    if i < |w.rooms| {
      JoinRoomKeepsInv(w, i, id, nickname);
    } else {
      var entry := RoomEntry(w.nextKey, NewRoom(RoomConfig(d, countdown, 5, 1)));
      var w1 := w.(rooms := w.rooms + [entry], nextKey := w.nextKey + 1);
      NewRoomKeepsStructure(w.rooms, entry.room.config, w.nextKey);
      JoinRoomKeepsInv(w1, i, id, nickname);
    }
  }

  /** The manager does not check that the player is in no room, and the invariant depends
      on it: exactly then a join keeps it. */
  lemma JoinKeepsInvIffNowhere(w: World, id: int, nickname: string, d: GameDifficulty, countdown: int)
    requires WorldInv(w) && Lookup(w.subs, id) != []
    ensures WorldInv(AddPlayerToRoom(w, id, nickname, d, countdown)) <==> Nowhere(w.rooms, id)
  {
    if Nowhere(w.rooms, id) {
      AddKeepsInv(w, id, nickname, d, countdown);
    } else {
      SecondSeatBreaksStructure(w, id, nickname, d, countdown);
    }
  }

  lemma SecondSeatBreaksStructure(w: World, id: int, nickname: string, d: GameDifficulty, countdown: int)
    requires RoomsOk(w.rooms) && !Nowhere(w.rooms, id)
    ensures var v := AddPlayerToRoom(w, id, nickname, d, countdown); !Structure(v.rooms, v.nextKey)
  {
    var i, j := FirstWithSpace(w.rooms, d), FirstWithPlayer(w.rooms, id);
    NobodyToFind(w.rooms, id);
    var v := AddPlayerToRoom(w, id, nickname, d, countdown);
    assert v.rooms[i] in v.rooms && v.rooms[i].room.HasPlayerWithId(id);
    if i == j {
      assert !DistinctIds(v.rooms[i].room);
    } else {
      assert v.rooms[j] == w.rooms[j];
    }
  }

  lemma LeaveRoomKeepsRest(w: World, i: nat, id: int)
    requires WorldInv(w) && i < |w.rooms| && w.rooms[i].room.HasPlayerWithId(id)
    ensures var rooms := StepRoom(w, i, Leave(id)).rooms;
            && Structure(rooms, w.nextKey)
            && Subscribed(rooms, w.subs)
            && Nowhere(rooms, id)
            && forall j | 0 <= j < |rooms| && j != i :: !rooms[j].room.IsEmpty()
  {
    StepRoomKeepsStructure(w, i, Leave(id));
    MembershipOfAll(w.rooms[i].room, Leave(id));
    var rooms := StepRoom(w, i, Leave(id)).rooms;
    assert forall j | 0 <= j < |rooms| && j != i :: rooms[j] in w.rooms && !rooms[j].room.HasPlayerWithId(id);
  }

  lemma EraseKeepsRest(rooms: seq<RoomEntry>, i: nat, nextKey: nat, subs: SubscriberLists)
    requires Structure(rooms, nextKey) && Subscribed(rooms, subs) && i < |rooms|
    requires forall j | 0 <= j < |rooms| && j != i :: !rooms[j].room.IsEmpty()
    ensures Structure(Erase(rooms, i), nextKey) && Subscribed(Erase(rooms, i), subs) && NoEmptyRoom(Erase(rooms, i))
  {
    EraseKeepsStructure(rooms, i, nextKey);
    var left := Erase(rooms, i);
    forall e | e in left
      ensures !e.room.IsEmpty()
    {
      var j :| 0 <= j < |left| && left[j] == e;
      assert e == rooms[if j < i then j else j + 1];
    }
  }

  /** A departure keeps the invariant: an emptied room is erased. */
  lemma RemoveKeepsInv(w: World, id: int)
    requires WorldInv(w)
    ensures WorldInv(RemovePlayerFromRoom(w, id))
    ensures Nowhere(RemovePlayerFromRoom(w, id).rooms, id)
  {
    var i := FirstWithPlayer(w.rooms, id);
    if i == |w.rooms| {
      NobodyToFind(w.rooms, id);
    } else {
      var rooms := StepRoom(w, i, Leave(id)).rooms;
      LeaveRoomKeepsRest(w, i, id);
      UnsubscribeForgetsNobody(w.subs, id, ToRoom(w.rooms[i].key));
      EraseKeepsRest(rooms, i, w.nextKey, w.subs);
      EraseKeepsStructure(rooms, i, w.nextKey);
    }
  }
}
