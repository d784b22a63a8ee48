/** Runs of the gameplay side: connections, disconnections, dispatched actions and ticks of
    all rooms, and what every such run keeps. */
module ServerRuns {
  import opened Messages
  import opened RoomModel
  import opened ManagerModel
  import opened ClientView
  import opened Routing

  datatype ServerEvent =
    | Connected(id: int)
    | Disconnected(id: int)
    | Dispatched(id: int, snapshot: seq<Subscriber>, action: PlayerAction, chances: seq<Chance>)
    | Ticked(ticks: seq<TickInput>)

  // Ids are fresh at connection, a snapshot is a stage of the player's list, and a player
  // asks to join only when it is in no room.
  predicate LegalEvent(w: World, e: ServerEvent) {
    match e
    case Connected(id) => Lookup(w.subs, id) == []
    case Disconnected(_) => true
    case Dispatched(id, snapshot, action, chances) =>
      && Snapshot(w, id, snapshot)
      && |chances| == |snapshot|
      && (action.JoinGame? ==> Nowhere(w.rooms, id))
    case Ticked(ticks) => |ticks| == |w.rooms|
  }

  function ServerStep(w: World, e: ServerEvent): (v: World)
    requires RoomsOk(w.rooms) && LegalEvent(w, e)
    ensures RoomsOk(v.rooms)
  {
    match e
    case Connected(id) => w.(subs := Subscribe(w.subs, id, ToGameplay))
    case Disconnected(id) =>
      var v := RemovePlayerFromRoom(w, id);
      v.(subs := Unsubscribe(v.subs, id, ToGameplay))
    case Dispatched(id, snapshot, action, chances) => DeliverAll(w, id, snapshot, action, chances)
    case Ticked(ticks) => TickFrom(w, 0, ticks)
  }

  predicate LegalServerRun(w: World, es: seq<ServerEvent>)
    requires RoomsOk(w.rooms)
    decreases |es|
  {
    es == [] || (LegalEvent(w, es[0]) && LegalServerRun(ServerStep(w, es[0]), es[1..]))
  }

  function ServerRun(w: World, es: seq<ServerEvent>): (v: World)
    requires RoomsOk(w.rooms) && LegalServerRun(w, es)
    ensures RoomsOk(v.rooms)
    decreases |es|
  {
    if es == [] then w else ServerRun(ServerStep(w, es[0]), es[1..])
  }

  // ---------- what the players have been told ----------

  /** For every player, the messages published to it so far are an accepted conversation,
      and folding them gives the truth about the room it is in. */
  ghost predicate Informed(w: World) {
    forall id ::
      && Accepted(Outside, Inbox(id, w.sent))
      && forall e | e in w.rooms :: Knows(LearnAll(Outside, Inbox(id, w.sent)), e.room, id)
  }

  lemma StepRoomInforms(w: World, i: nat, e: Event, id: int)
    requires Structure(w.rooms, w.nextKey) && Informed(w) && i < |w.rooms|
    requires e.Join? ==> Nowhere(w.rooms, e.id)
    ensures var v := StepRoom(w, i, e);
            && Accepted(Outside, Inbox(id, v.sent))
            && forall x | x in v.rooms :: Knows(LearnAll(Outside, Inbox(id, v.sent)), x.room, id)
  {
    var r := w.rooms[i].room;
    var o := Step(r, e);
    var v := StepRoom(w, i, e);
    assert w.rooms[i] in w.rooms;
    StepInforms(r, e, id);
    Membership(r, e, id);
    InboxAppend(id, w.sent, o.sent);
    LearnAppend(Outside, Inbox(id, w.sent), Inbox(id, o.sent));
    forall x | x in v.rooms
      ensures Knows(LearnAll(Outside, Inbox(id, v.sent)), x.room, id)
    {
      var j :| 0 <= j < |v.rooms| && v.rooms[j] == x;
      if j != i {
        assert w.rooms[j] in w.rooms;
        assert x.room.HasPlayerWithId(id) ==> !o.room.HasPlayerWithId(id);
      }
    }
  }

  lemma StepRoomKeepsInformed(w: World, i: nat, e: Event)
    requires Structure(w.rooms, w.nextKey) && Informed(w) && i < |w.rooms|
    requires e.Join? ==> Nowhere(w.rooms, e.id)
    ensures Informed(StepRoom(w, i, e))
  {
    forall id
      ensures var v := StepRoom(w, i, e);
              && Accepted(Outside, Inbox(id, v.sent))
              && forall x | x in v.rooms :: Knows(LearnAll(Outside, Inbox(id, v.sent)), x.room, id)
    {
      StepRoomInforms(w, i, e, id);
    }
  }

  lemma AddKeepsInformed(w: World, id: int, nickname: string, d: GameDifficulty, countdown: int)
    requires WorldInv(w) && Informed(w) && Nowhere(w.rooms, id)
    ensures Informed(AddPlayerToRoom(w, id, nickname, d, countdown))
  {
    var i := FirstWithSpace(w.rooms, d);
    if i < |w.rooms| {
      StepRoomKeepsInformed(w, i, Join(id, nickname));
    } else {
      var config := RoomConfig(d, countdown, 5, 1);
      var w1 := w.(rooms := w.rooms + [RoomEntry(w.nextKey, NewRoom(config))], nextKey := w.nextKey + 1);
      NewRoomKeepsStructure(w.rooms, config, w.nextKey);
      assert Informed(w1);
      StepRoomKeepsInformed(w1, i, Join(id, nickname));
    }
  }

  lemma RemoveKeepsInformed(w: World, id: int)
    requires WorldInv(w) && Informed(w)
    ensures Informed(RemovePlayerFromRoom(w, id))
  {
    var i := FirstWithPlayer(w.rooms, id);
    if i < |w.rooms| {
      StepRoomKeepsInformed(w, i, Leave(id));
    }
  }

  // ---------- the invariants over runs ----------

  ghost predicate ServerInv(w: World) {
    WorldInv(w) && Informed(w)
  }

  lemma {:induction false} RoomDeliveriesKeepInv(w: World, id: int, l: seq<Subscriber>, action: PlayerAction,
                                                 cs: seq<Chance>)
    requires ServerInv(w) && |cs| == |l| && OnlyRooms(l) && !action.LeaveGame?
    ensures ServerInv(DeliverAll(w, id, l, action, cs))
    decreases |l|
  {
    if l != [] {
      var i := FirstWithKey(w.rooms, l[0].key);
      if i < |w.rooms| {
        QuietStepKeepsInv(w, i, Act(id, action, cs[0].at));
        StepRoomKeepsInformed(w, i, Act(id, action, cs[0].at));
      }
      RoomDeliveriesKeepInv(Deliver(w, id, l[0], action, cs[0]), id, l[1..], action, cs[1..]);
    }
  }

  lemma DispatchKeepsInv(w: World, id: int, snapshot: seq<Subscriber>, action: PlayerAction, cs: seq<Chance>)
    requires ServerInv(w) && LegalEvent(w, Dispatched(id, snapshot, action, cs))
    ensures ServerInv(DeliverAll(w, id, snapshot, action, cs))
  {
    if snapshot != [] {
      SnapshotShape(w, id, snapshot);
      match action
      case JoinGame(nickname, d) =>
        JoinIsOnePlacement(w, id, snapshot, nickname, d, cs);
        AddKeepsInv(w, id, nickname, d, cs[0].countdown);
        AddKeepsInformed(w, id, nickname, d, cs[0].countdown);
      case LeaveGame =>
        LeaveIsOneRemoval(w, id, snapshot, cs);
        RemoveKeepsInv(w, id);
        RemoveKeepsInformed(w, id);
      case _ =>
        RoomDeliveriesKeepInv(w, id, snapshot[1..], action, cs[1..]);
    }
  }

  lemma {:induction false} TickFromKeepsInv(w: World, i: nat, ticks: seq<TickInput>)
    requires ServerInv(w) && i <= |w.rooms| == |ticks|
    ensures ServerInv(TickFrom(w, i, ticks))
    decreases |w.rooms| - i
  {
    hide Step, Informed;
    if i < |w.rooms| {
      var e := TickEvent(ticks[i].t, ticks[i].draw);
      QuietStepKeepsInv(w, i, e);
      StepRoomKeepsInformed(w, i, e);
      TickFromKeepsInv(StepRoom(w, i, e), i + 1, ticks);
    }
  }

  lemma ServerStepKeepsInv(w: World, e: ServerEvent)
    requires ServerInv(w) && LegalEvent(w, e)
    ensures ServerInv(ServerStep(w, e))
  {
    match e
    case Connected(id) => SubscribeAddsOne(w.subs, id, ToGameplay);
    case Disconnected(id) =>
      RemoveKeepsInv(w, id);
      RemoveKeepsInformed(w, id);
      UnsubscribeForgetsNobody(RemovePlayerFromRoom(w, id).subs, id, ToGameplay);
    case Dispatched(id, snapshot, action, chances) => DispatchKeepsInv(w, id, snapshot, action, chances);
    case Ticked(ticks) => TickFromKeepsInv(w, 0, ticks);
  }

  /** In every legal run of the server: no stored room is empty, every player is in at most
      one room and subscribed to it, Gameplay comes first in every list, and every player's
      messages are an accepted conversation that tells it the truth about its room. */
  lemma {:induction false} EveryRunKeepsTheInvariant(w: World, es: seq<ServerEvent>)
    requires ServerInv(w) && LegalServerRun(w, es)
    ensures ServerInv(ServerRun(w, es))
    decreases |es|
  {
    if es != [] {
      ServerStepKeepsInv(w, es[0]);
      EveryRunKeepsTheInvariant(ServerStep(w, es[0]), es[1..]);
    }
  }

  lemma TheServerStartsWell()
    ensures ServerInv(EMPTY_WORLD)
  {
  }

  // Subscriber lists only grow.
  predicate Grown(l: SubscriberLists, m: SubscriberLists) {
    forall id | id in l :: id in m && l[id] <= m[id]
  }

  // `m` is `l` up to a longer list for `id`.
  predicate GrownFor(l: SubscriberLists, m: SubscriberLists, id: int) {
    && Grown(l, m)
    && (forall k | k in m && k != id :: k in l && m[k] == l[k])
    && (id in l ==> m.Keys == l.Keys)
  }

  lemma DeliveryGrowsList(w: World, id: int, s: Subscriber, action: PlayerAction, c: Chance)
    requires RoomsOk(w.rooms)
    ensures GrownFor(w.subs, Deliver(w, id, s, action, c).subs, id)
  {
    hide Step, FirstWithSpace, FirstWithPlayer, FirstWithKey;
    var v := Deliver(w, id, s, action, c);
    assert v.subs == w.subs || exists s :: v.subs == Subscribe(w.subs, id, s) || v.subs == Unsubscribe(w.subs, id, s);
  }

  lemma {:induction false} DeliveriesGrowLists(w: World, id: int, l: seq<Subscriber>, action: PlayerAction,
                                               cs: seq<Chance>)
    requires RoomsOk(w.rooms) && |cs| == |l|
    ensures GrownFor(w.subs, DeliverAll(w, id, l, action, cs).subs, id)
    decreases |l|
  {
    if l != [] {
      DeliveryGrowsList(w, id, l[0], action, cs[0]);
      DeliveriesGrowLists(Deliver(w, id, l[0], action, cs[0]), id, l[1..], action, cs[1..]);
    }
  }
}
