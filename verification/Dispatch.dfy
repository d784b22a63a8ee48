/** One dispatch pass of the gameplay broker: connectivity first, then each listed player's
    queue, drained into the subscribers that player had when its turn came. */
module Dispatch {
  import opened Messages
  import opened Chrono
  import opened RoomModel
  import opened ManagerModel
  import opened Routing
  import opened ServerRuns
  import CleanSlate

  type ActionQueues = map<int, seq<PlayerAction>>

  // What the j-th callback for the m-th message of a player takes from outside.
  type Supply = (int, nat, nat) -> Chance

  function ChancesFor(supply: Supply, id: int, m: nat, n: nat): (cs: seq<Chance>)
    ensures |cs| == n && forall j | 0 <= j < n :: cs[j] == supply(id, m, j)
  {
    seq(n, j requires 0 <= j < n => supply(id, m, j))
  }

  function ProcessConnectivity(w: World, messages: seq<ConnectivityMessage>): (v: World)
    requires RoomsOk(w.rooms)
    ensures RoomsOk(v.rooms)
    decreases |messages|
  {
    if messages == [] then w
    else ProcessConnectivity(ProcessOne(w, messages[0]), messages[1..])
  }

  function ProcessOne(w: World, message: ConnectivityMessage): (v: World)
    requires RoomsOk(w.rooms)
    ensures RoomsOk(v.rooms)
  {
    match message
    case Connect(id) => w.(subs := Subscribe(w.subs, id, ToGameplay))
    case Disconnect(id) => ServerStep(w, Disconnected(id))
  }

  // The queue of one player into a fixed snapshot; `m` counts the messages.
  function DrainPlayer(w: World, id: int, snapshot: seq<Subscriber>, queue: seq<PlayerAction>, m: nat, supply: Supply)
    : (v: World)
    requires RoomsOk(w.rooms)
    ensures RoomsOk(v.rooms)
    decreases |queue|
  {
    if queue == [] then w
    else
      var next := DeliverAll(w, id, snapshot, queue[0], ChancesFor(supply, id, m, |snapshot|));
      DrainPlayer(next, id, snapshot, queue[1..], m + 1, supply)
  }

  lemma DrainNothing(w: World, id: int, snapshot: seq<Subscriber>, m: nat, supply: Supply)
    requires RoomsOk(w.rooms)
    ensures DrainPlayer(w, id, snapshot, [], m, supply) == w
  {
  }

  lemma DrainNext(w: World, id: int, snapshot: seq<Subscriber>, queue: seq<PlayerAction>, m: nat, supply: Supply)
    requires RoomsOk(w.rooms) && queue != []
    ensures DrainPlayer(w, id, snapshot, queue, m, supply)
         == DrainPlayer(DeliverAll(w, id, snapshot, queue[0], ChancesFor(supply, id, m, |snapshot|)),
                        id, snapshot, queue[1..], m + 1, supply)
  {
  }

  // The players of the subscriber map, in the map's unspecified order.
  function DrainPlayers(w: World, order: seq<int>, actions: ActionQueues, supply: Supply): (v: World)
    requires RoomsOk(w.rooms)
    ensures RoomsOk(v.rooms)
    decreases |order|
  {
    if order == [] then w
    else
      var next := DrainPlayer(w, order[0], Lookup(w.subs, order[0]), Lookup(actions, order[0]), 0, supply);
      DrainPlayers(next, order[1..], actions, supply)
  }

  function Emptied(actions: ActionQueues, order: seq<int>): ActionQueues
    decreases |order|
  {
    if order == [] then actions else Emptied(actions[order[0] := []], order[1..])
  }

  lemma {:induction false} DrainPlayersAppend(
      w: World, order: seq<int>, id: int, actions: ActionQueues, supply: Supply)
    requires RoomsOk(w.rooms)
    ensures var v := DrainPlayers(w, order, actions, supply);
            DrainPlayers(w, order + [id], actions, supply)
            == DrainPlayer(v, id, Lookup(v.subs, id), Lookup(actions, id), 0, supply)
    ensures Emptied(actions, order + [id]) == Emptied(actions, order)[id := []]
    decreases |order|
  {
    var all := order + [id];
    if order == [] {
      assert all[1..] == [];
    } else {
      assert all[1..] == order[1..] + [id];
      var next := DrainPlayer(w, order[0], Lookup(w.subs, order[0]), Lookup(actions, order[0]), 0, supply);
      DrainPlayersAppend(next, order[1..], id, actions, supply);
      EmptiedAppend(actions[order[0] := []], order[1..], id);
    }
  }

  lemma {:induction false} EmptiedAppend(actions: ActionQueues, order: seq<int>, id: int)
    ensures Emptied(actions, order + [id]) == Emptied(actions, order)[id := []]
    decreases |order|
  {
    var all := order + [id];
    if order == [] {
      assert all[1..] == [];
    } else {
      assert all[1..] == order[1..] + [id];
      EmptiedAppend(actions[order[0] := []], order[1..], id);
    }
  }

  // `order` visits each of the `keys` exactly once; a partial visit leaves `toVisit`.
  predicate Visits(order: seq<int>, keys: set<int>, toVisit: set<int>) {
    && NoDuplicates(order)
    && (forall id | id in order :: id in keys && id !in toVisit)
    && (forall id | id in keys :: id in order || id in toVisit)
    && toVisit <= keys
  }

  lemma VisitNext(order: seq<int>, keys: set<int>, toVisit: set<int>, id: int)
    requires Visits(order, keys, toVisit) && id in toVisit
    ensures Visits(order + [id], keys, toVisit - {id})
  {
  }

  // The inputs of a tick of `n` rooms.
  function TicksFor(tickOf: nat -> TickInput, n: nat): (ticks: seq<TickInput>)
    ensures |ticks| == n && forall i | 0 <= i < n :: ticks[i] == tickOf(i)
  {
    seq(n, i requires 0 <= i < n => tickOf(i))
  }

  /** What one turn of the gameplay thread makes of the world: connectivity, a drain of all
      subscribed players in the order the map yields them, then a tick of every room. */
  function Turn(w: World, connectivity: seq<ConnectivityMessage>, order: seq<int>, actions: ActionQueues,
                supply: Supply, tickOf: nat -> TickInput): (v: World)
    requires RoomsOk(w.rooms)
    ensures RoomsOk(v.rooms)
  {
    var drained := DrainPlayers(ProcessConnectivity(w, connectivity), order, actions, supply);
    TickFrom(drained, 0, TicksFor(tickOf, |drained.rooms|))
  }

  // ---------- the shape of a pass ----------

  /** Draining a player never adds or drops a key of the subscriber map, so the iteration
      stays valid, and leaves the other players' lists alone. */
  lemma {:induction false} DrainKeepsOtherLists(
      w: World, id: int, snapshot: seq<Subscriber>, queue: seq<PlayerAction>, m: nat, supply: Supply)
    requires RoomsOk(w.rooms) && id in w.subs
    ensures var v := DrainPlayer(w, id, snapshot, queue, m, supply);
            && v.subs.Keys == w.subs.Keys
            && Grown(w.subs, v.subs)
            && forall k | k != id :: Lookup(v.subs, k) == Lookup(w.subs, k)
    decreases |queue|
  {
    if queue != [] {
      var cs := ChancesFor(supply, id, m, |snapshot|);
      DeliveriesGrowLists(w, id, snapshot, queue[0], cs);
      DrainKeepsOtherLists(DeliverAll(w, id, snapshot, queue[0], cs), id, snapshot, queue[1..], m + 1, supply);
    }
  }

  /** Every player's snapshot is the list it had when the drain of the pass began, whatever
      the earlier players did, and the subscriber map keeps its keys throughout. */
  lemma {:induction false} SnapshotsDateFromThePassStart(
      w: World, order: seq<int>, actions: ActionQueues, supply: Supply, n: nat)
    requires RoomsOk(w.rooms) && NoDuplicates(order) && n < |order| && forall id | id in order :: id in w.subs
    ensures var v := DrainPlayers(w, order[..n], actions, supply);
            v.subs.Keys == w.subs.Keys && Lookup(v.subs, order[n]) == Lookup(w.subs, order[n])
    decreases n
  {
    if n > 0 {
      var id := order[0];
      var next := DrainPlayer(w, id, Lookup(w.subs, id), Lookup(actions, id), 0, supply);
      DrainKeepsOtherLists(w, id, Lookup(w.subs, id), Lookup(actions, id), 0, supply);
      SnapshotsDateFromThePassStart(next, order[1..], actions, supply, n - 1);
      assert order[..n][1..] == order[1..][..n - 1];
    }
  }

  /** A pass empties exactly the queues of the listed players: what a player sent before its
      connection is processed waits for it. */
  lemma {:induction false} OnlyListedQueuesAreEmptied(actions: ActionQueues, order: seq<int>, id: int)
    ensures Lookup(Emptied(actions, order), id) == if id in order then [] else Lookup(actions, id)
    decreases |order|
  {
    if order != [] {
      OnlyListedQueuesAreEmptied(actions[order[0] := []], order[1..], id);
    }
  }

  // ---------- what a snapshot misses ----------

  predicate StaysPut(queue: seq<PlayerAction>) {
    forall a | a in queue :: !a.JoinGame? && !a.LeaveGame?
  }

  /** A room the player entered after the snapshot was taken hears nothing of the rest of
      the pass: the messages are consumed without effect. */
  lemma {:induction false} LateRoomsHearNothing(
      w: World, id: int, snapshot: seq<Subscriber>, queue: seq<PlayerAction>, m: nat, supply: Supply, i: nat)
    requires WorldInv(w) && Snapshot(w, id, snapshot) && StaysPut(queue)
    requires i < |w.rooms| && w.rooms[i].room.HasPlayerWithId(id) && ToRoom(w.rooms[i].key) !in snapshot
    ensures DrainPlayer(w, id, snapshot, queue, m, supply) == w
    decreases |queue|
  {
    if queue != [] {
      ActionIsHandledOnce(w, id, snapshot, queue[0], ChancesFor(supply, id, m, |snapshot|), i);
      assert queue[0] in queue;
      LateRoomsHearNothing(w, id, snapshot, queue[1..], m + 1, supply, i);
    }
  }

  /** So whatever a newcomer queues behind its JOIN_GAME is lost if it is drained in the
      same pass, unless it had already subscribed to that room in an earlier stay. */
  lemma JoinSwallowsTheRestOfThePass(
      w: World, id: int, snapshot: seq<Subscriber>, nickname: string, d: GameDifficulty, rest: seq<PlayerAction>,
      m: nat, supply: Supply)
    requires WorldInv(w) && Snapshot(w, id, snapshot) && snapshot != [] && Nowhere(w.rooms, id) && StaysPut(rest)
    requires var i := FirstWithSpace(w.rooms, d);
             ToRoom(if i < |w.rooms| then w.rooms[i].key else w.nextKey) !in snapshot
    ensures DrainPlayer(w, id, snapshot, [JoinGame(nickname, d)] + rest, m, supply)
         == AddPlayerToRoom(w, id, nickname, d, supply(id, m, 0).countdown)
  {
    var queue := [JoinGame(nickname, d)] + rest;
    var cs := ChancesFor(supply, id, m, |snapshot|);
    var v := AddPlayerToRoom(w, id, nickname, d, cs[0].countdown);
    JoinIsOnePlacement(w, id, snapshot, nickname, d, cs);
    AddKeepsInv(w, id, nickname, d, cs[0].countdown);
    var i := FirstWithSpace(w.rooms, d);
    assert queue[1..] == rest;
    assert v.rooms[i].room.HasPlayerWithId(id);
    LateRoomsHearNothing(v, id, snapshot, rest, m + 1, supply, i);
  }

  // The joins and departures of a queue alone, through the manager; everything else is
  // consumed without effect. `m` counts all messages.
  function SeatMoves(w: World, id: int, queue: seq<PlayerAction>, m: nat, supply: Supply): (v: World)
    requires RoomsOk(w.rooms)
    ensures RoomsOk(v.rooms)
    decreases |queue|
  {
    if queue == [] then w
    else
      var next :=
        match queue[0]
        case JoinGame(nickname, d) => AddPlayerToRoom(w, id, nickname, d, supply(id, m, 0).countdown)
        case LeaveGame => RemovePlayerFromRoom(w, id)
        case _ => w;
      SeatMoves(next, id, queue[1..], m + 1, supply)
  }

  /** A newcomer's first pass, whatever it queued, joins and departures in any number
      included: only they count, and no room ever hears the newcomer. */
  lemma {:induction false} NewcomersOnlyMoveSeats(
      w: World, id: int, queue: seq<PlayerAction>, m: nat, supply: Supply)
    requires RoomsOk(w.rooms)
    ensures DrainPlayer(w, id, [ToGameplay], queue, m, supply) == SeatMoves(w, id, queue, m, supply)
    decreases |queue|
  {
    hide AddPlayerToRoom, RemovePlayerFromRoom;
    if queue != [] {
      var cs := ChancesFor(supply, id, m, 1);
      var next := Deliver(w, id, ToGameplay, queue[0], cs[0]);
      assert [ToGameplay][1..] == [];
      assert DeliverAll(w, id, [ToGameplay], queue[0], cs) == next;
      NewcomersOnlyMoveSeats(next, id, queue[1..], m + 1, supply);
    }
  }

  // ---------- any queue through any list ----------

  // One message in one move: a join or a departure through the manager; anything else in
  // the room the player is in, once per listing of the room in the snapshot.
  function MoveOnce(w: World, id: int, snapshot: seq<Subscriber>, action: PlayerAction, cs: seq<Chance>): (v: World)
    requires RoomsOk(w.rooms) && |cs| == |snapshot| > 0
    ensures RoomsOk(v.rooms)
  {
    match action
    case JoinGame(nickname, d) => AddPlayerToRoom(w, id, nickname, d, cs[0].countdown)
    case LeaveGame => RemovePlayerFromRoom(w, id)
    case _ =>
      var i := FirstWithPlayer(w.rooms, id);
      if i == |w.rooms| then w
      else Moved(w, i, HandleAt(w.rooms[i].room, id, action, TimesFor(snapshot, w.rooms[i].key, cs)))
  }

  function MoveAll(w: World, id: int, snapshot: seq<Subscriber>, queue: seq<PlayerAction>, m: nat, supply: Supply)
    : (v: World)
    requires RoomsOk(w.rooms) && snapshot != []
    ensures RoomsOk(v.rooms)
    decreases |queue|
  {
    if queue == [] then w
    else
      var next := MoveOnce(w, id, snapshot, queue[0], ChancesFor(supply, id, m, |snapshot|));
      MoveAll(next, id, snapshot, queue[1..], m + 1, supply)
  }

  // Every JOIN_GAME reaches the manager when its player is in no room.
  predicate LegalDrain(w: World, id: int, snapshot: seq<Subscriber>, queue: seq<PlayerAction>, m: nat, supply: Supply)
    requires RoomsOk(w.rooms)
    decreases |queue|
  {
    queue == [] ||
    (&& (queue[0].JoinGame? ==> Nowhere(w.rooms, id))
     && LegalDrain(DeliverAll(w, id, snapshot, queue[0], ChancesFor(supply, id, m, |snapshot|)),
                   id, snapshot, queue[1..], m + 1, supply))
  }

  lemma DeliveryIsOneMove(w: World, id: int, snapshot: seq<Subscriber>, action: PlayerAction, cs: seq<Chance>)
    requires WorldInv(w) && Snapshot(w, id, snapshot) && |cs| == |snapshot| > 0
    ensures DeliverAll(w, id, snapshot, action, cs) == MoveOnce(w, id, snapshot, action, cs)
  {
    hide Step, HandleAt, AddPlayerToRoom, RemovePlayerFromRoom;
    match action
    case JoinGame(nickname, d) => JoinIsOnePlacement(w, id, snapshot, nickname, d, cs);
    case LeaveGame => LeaveIsOneRemoval(w, id, snapshot, cs);
    case _ =>
      var i := FirstWithPlayer(w.rooms, id);
      if i == |w.rooms| {
        NobodyToFind(w.rooms, id);
        StrangersAreIgnored(w, id, snapshot, action, cs);
      } else {
        OtherDeliveryIsOneMove(w, id, snapshot, action, cs, i);
      }
  }

  lemma OtherDeliveryIsOneMove(w: World, id: int, snapshot: seq<Subscriber>, action: PlayerAction, cs: seq<Chance>,
                               i: nat)
    requires WorldInv(w) && Snapshot(w, id, snapshot) && |cs| == |snapshot| > 0
    requires !action.JoinGame? && !action.LeaveGame?
    requires i < |w.rooms| && w.rooms[i].room.HasPlayerWithId(id)
    ensures DeliverAll(w, id, snapshot, action, cs)
         == Moved(w, i, HandleAt(w.rooms[i].room, id, action, TimesFor(snapshot, w.rooms[i].key, cs)))
  {
    SnapshotShape(w, id, snapshot);
    RoomDeliveries(w, id, snapshot[1..], action, cs[1..], i);
    hide WorldInv, Step, HandleAt, Moved;
    var key := w.rooms[i].key;
    assert Deliver(w, id, snapshot[0], action, cs[0]) == w;
    assert TimesFor(snapshot, key, cs) == [] + TimesFor(snapshot[1..], key, cs[1..]);
    assert TimesFor(snapshot, key, cs) == TimesFor(snapshot[1..], key, cs[1..]);
  }

  lemma DeliveryKeepsWorldInv(w: World, id: int, snapshot: seq<Subscriber>, action: PlayerAction, cs: seq<Chance>)
    requires WorldInv(w) && Snapshot(w, id, snapshot) && |cs| == |snapshot| > 0
    requires action.JoinGame? ==> Nowhere(w.rooms, id)
    ensures WorldInv(DeliverAll(w, id, snapshot, action, cs))
    ensures Snapshot(DeliverAll(w, id, snapshot, action, cs), id, snapshot)
  {
    hide Step;
    DeliveriesGrowLists(w, id, snapshot, action, cs);
    match action
    case JoinGame(nickname, d) =>
      JoinIsOnePlacement(w, id, snapshot, nickname, d, cs);
      AddKeepsInv(w, id, nickname, d, cs[0].countdown);
    case LeaveGame =>
      LeaveIsOneRemoval(w, id, snapshot, cs);
      RemoveKeepsInv(w, id);
    case _ => DeliveriesKeepWorldInv(w, id, snapshot, action, cs);
  }

  /** Any queue, with joins and departures in any number, drained into any snapshot, with
      rooms of earlier stays in it or not, is one move per message. */
  lemma {:induction false} DrainIsOneMoveEach(
      w: World, id: int, snapshot: seq<Subscriber>, queue: seq<PlayerAction>, m: nat, supply: Supply)
    requires WorldInv(w) && Snapshot(w, id, snapshot) && snapshot != []
    requires LegalDrain(w, id, snapshot, queue, m, supply)
    ensures DrainPlayer(w, id, snapshot, queue, m, supply) == MoveAll(w, id, snapshot, queue, m, supply)
    decreases |queue|
  {
    assert RoomsOk(w.rooms);
    hide WorldInv, DeliverAll, MoveOnce, Snapshot;
    if queue != [] {
      var cs := ChancesFor(supply, id, m, |snapshot|);
      DeliveryIsOneMove(w, id, snapshot, queue[0], cs);
      DeliveryKeepsWorldInv(w, id, snapshot, queue[0], cs);
      DrainIsOneMoveEach(DeliverAll(w, id, snapshot, queue[0], cs), id, snapshot, queue[1..], m + 1, supply);
    }
  }

  // The player sits in no room of the list.
  predicate Unlisted(w: World, id: int, l: seq<Subscriber>) {
    forall e | e in w.rooms && e.room.HasPlayerWithId(id) :: ToRoom(e.key) !in l
  }

  // Nor does it after any of its joins and departures.
  predicate StaysUnlisted(w: World, id: int, l: seq<Subscriber>, queue: seq<PlayerAction>, m: nat, supply: Supply)
    requires RoomsOk(w.rooms)
    decreases |queue|
  {
    Unlisted(w, id, l) &&
    (queue == [] || StaysUnlisted(SeatMoves(w, id, queue[..1], m, supply), id, l, queue[1..], m + 1, supply))
  }

  lemma UnlistedMoveIsSeatMove(w: World, id: int, snapshot: seq<Subscriber>, queue: seq<PlayerAction>, m: nat,
                               supply: Supply)
    requires RoomsOk(w.rooms) && snapshot != [] && Unlisted(w, id, snapshot) && queue != []
    ensures MoveOnce(w, id, snapshot, queue[0], ChancesFor(supply, id, m, |snapshot|))
         == SeatMoves(w, id, queue[..1], m, supply)
    ensures SeatMoves(w, id, queue, m, supply)
         == SeatMoves(SeatMoves(w, id, queue[..1], m, supply), id, queue[1..], m + 1, supply)
  {
    hide AddPlayerToRoom, RemovePlayerFromRoom;
    assert queue[..1][1..] == [];
    var i := FirstWithPlayer(w.rooms, id);
    if i < |w.rooms| {
      assert w.rooms[i] in w.rooms;
      assert w.rooms[i := w.rooms[i]] == w.rooms;
    }
  }

  /** A player whose rooms are not in the snapshot is heard by no room, whatever it does in
      between: its pass is its joins and departures alone. */
  lemma {:induction false} UnlistedRoomsHearNothing(
      w: World, id: int, snapshot: seq<Subscriber>, queue: seq<PlayerAction>, m: nat, supply: Supply)
    requires WorldInv(w) && Snapshot(w, id, snapshot) && snapshot != []
    requires LegalDrain(w, id, snapshot, queue, m, supply) && StaysUnlisted(w, id, snapshot, queue, m, supply)
    ensures DrainPlayer(w, id, snapshot, queue, m, supply) == SeatMoves(w, id, queue, m, supply)
    decreases |queue|
  {
    assert RoomsOk(w.rooms);
    hide WorldInv, DeliverAll, MoveOnce, Snapshot, Unlisted;
    if queue != [] {
      var cs := ChancesFor(supply, id, m, |snapshot|);
      DeliveryIsOneMove(w, id, snapshot, queue[0], cs);
      DeliveryKeepsWorldInv(w, id, snapshot, queue[0], cs);
      UnlistedMoveIsSeatMove(w, id, snapshot, queue, m, supply);
      UnlistedRoomsHearNothing(DeliverAll(w, id, snapshot, queue[0], cs), id, snapshot, queue[1..], m + 1, supply);
    }
  }

  // ---------- what a room hears ----------

  // A room handling a queue, with the messages of each action repeated `n` times.
  function Hear(r: RoomState, id: int, queue: seq<PlayerAction>, n: nat, at: Time): (o: Outcome)
    requires RoomInv(r)
    ensures RoomInv(o.room)
    decreases |queue|
  {
    if queue == [] then Outcome(r, [])
    else
      var first := HandlePlayerMessage(r, id, queue[0], at);
      var rest := Hear(first.room, id, queue[1..], n, at);
      Outcome(rest.room, Repeat(first.sent, n) + rest.sent)
  }

  // Room `i` became `o`, up to receipts, and nothing else changed.
  predicate Heard(w: World, v: World, i: nat, o: Outcome)
    requires i < |w.rooms|
  {
    && |v.rooms| == |w.rooms|
    && (forall j | 0 <= j < |w.rooms| && j != i :: v.rooms[j] == w.rooms[j])
    && v.rooms[i].key == w.rooms[i].key
    && CleanSlate.WithoutReceipts(v.rooms[i].room) == CleanSlate.WithoutReceipts(o.room)
    && v.sent == w.sent + o.sent
    && v.subs == w.subs && v.nextKey == w.nextKey
  }

  lemma HeardThenHeard(w: World, v: World, x: World, i: nat, o1: Outcome, o2: Outcome)
    requires i < |w.rooms| && Heard(w, v, i, o1) && Heard(v, x, i, o2)
    ensures Heard(w, x, i, Outcome(o2.room, o1.sent + o2.sent))
  {
  }

  // One action of a player in room `i`; `r` is that room up to receipts, `at` any reading.
  lemma OneIsHeard(w: World, id: int, snapshot: seq<Subscriber>, action: PlayerAction, cs: seq<Chance>, i: nat,
                   r: RoomState, at: Time)
    requires WorldInv(w) && Snapshot(w, id, snapshot) && |cs| == |snapshot|
    requires i < |w.rooms| && w.rooms[i].room.HasPlayerWithId(id) && ToRoom(w.rooms[i].key) in snapshot
    requires !action.JoinGame? && !action.LeaveGame?
    requires RoomInv(r) && CleanSlate.WithoutReceipts(r) == CleanSlate.WithoutReceipts(w.rooms[i].room)
    ensures var v := DeliverAll(w, id, snapshot, action, cs);
            var once := HandlePlayerMessage(r, id, action, at);
            && Heard(w, v, i, Outcome(once.room, Repeat(once.sent, multiset(snapshot)[ToRoom(w.rooms[i].key)])))
            && WorldInv(v) && v.rooms[i].room.HasPlayerWithId(id)
  {
    hide HandlePlayerMessage;
    var room := w.rooms[i].room;
    var ats := TimesFor(snapshot, w.rooms[i].key, cs);
    assert w.rooms[i] in w.rooms;
    ActionIsHandledOnce(w, id, snapshot, action, cs, i);
    TimesCountListings(snapshot, w.rooms[i].key, cs);
    CleanSlate.ActionsIgnoreReceipts(room, r, id, action, ats[0], at);
    ActMembership(room, id, action, ats[0], id);
    CleanSlate.ReceiptsAside(DeliverAll(w, id, snapshot, action, cs).rooms[i].room,
                             HandlePlayerMessage(room, id, action, ats[0]).room, id);
    DeliveriesKeepWorldInv(w, id, snapshot, action, cs);
  }

  lemma {:induction false} QueueIsHeard(
      w: World, id: int, snapshot: seq<Subscriber>, queue: seq<PlayerAction>, m: nat, supply: Supply, i: nat,
      r: RoomState, at: Time)
    requires WorldInv(w) && Snapshot(w, id, snapshot) && StaysPut(queue)
    requires i < |w.rooms| && w.rooms[i].room.HasPlayerWithId(id) && ToRoom(w.rooms[i].key) in snapshot
    requires RoomInv(r) && CleanSlate.WithoutReceipts(r) == CleanSlate.WithoutReceipts(w.rooms[i].room)
    ensures Heard(w, DrainPlayer(w, id, snapshot, queue, m, supply), i,
                  Hear(r, id, queue, multiset(snapshot)[ToRoom(w.rooms[i].key)], at))
    decreases |queue|
  {
    assert RoomsOk(w.rooms);
    hide DeliverAll, HandlePlayerMessage, CleanSlate.WithoutReceipts, WorldInv;
    if queue != [] {
      var n := multiset(snapshot)[ToRoom(w.rooms[i].key)];
      var cs := ChancesFor(supply, id, m, |snapshot|);
      assert queue[0] in queue;
      OneIsHeard(w, id, snapshot, queue[0], cs, i, r, at);
      var v := DeliverAll(w, id, snapshot, queue[0], cs);
      var once := HandlePlayerMessage(r, id, queue[0], at);
      QueueIsHeard(v, id, snapshot, queue[1..], m + 1, supply, i, once.room, at);
      HeardThenHeard(w, v, DrainPlayer(v, id, snapshot, queue[1..], m + 1, supply), i,
                     Outcome(once.room, Repeat(once.sent, n)), Hear(once.room, id, queue[1..], n, at));
    }
  }

  /** From the next pass on the room hears everything: a whole queue drained into the
      player's list is the room handling its messages one by one, up to receipt times, with
      what it publishes repeated once per listing of the room, of which there is at least
      one; nothing else in the world moves. */
  lemma LaterPassesAreHeard(w: World, id: int, queue: seq<PlayerAction>, supply: Supply, i: nat, at: Time)
    requires WorldInv(w) && i < |w.rooms| && w.rooms[i].room.HasPlayerWithId(id) && StaysPut(queue)
    ensures var listings := multiset(Lookup(w.subs, id))[ToRoom(w.rooms[i].key)];
            && listings >= 1
            && Heard(w, DrainPlayer(w, id, Lookup(w.subs, id), queue, 0, supply), i,
                     Hear(w.rooms[i].room, id, queue, listings, at))
  {
    assert w.rooms[i] in w.rooms;
    assert ToRoom(w.rooms[i].key) in multiset(Lookup(w.subs, id));
    QueueIsHeard(w, id, Lookup(w.subs, id), queue, 0, supply, i, w.rooms[i].room, at);
  }

  // ---------- passes keep the invariants ----------

  predicate LegalDrains(w: World, order: seq<int>, actions: ActionQueues, supply: Supply)
    requires RoomsOk(w.rooms)
    decreases |order|
  {
    order == [] ||
    (var id, snapshot, queue := order[0], Lookup(w.subs, order[0]), Lookup(actions, order[0]);
     && LegalDrain(w, id, snapshot, queue, 0, supply)
     && LegalDrains(DrainPlayer(w, id, snapshot, queue, 0, supply), order[1..], actions, supply))
  }

  lemma {:induction false} DrainKeepsInv(
      w: World, id: int, snapshot: seq<Subscriber>, queue: seq<PlayerAction>, m: nat, supply: Supply)
    requires ServerInv(w) && id in w.subs && Snapshot(w, id, snapshot)
    requires LegalDrain(w, id, snapshot, queue, m, supply)
    ensures ServerInv(DrainPlayer(w, id, snapshot, queue, m, supply))
    decreases |queue|
  {
    if queue != [] {
      var cs := ChancesFor(supply, id, m, |snapshot|);
      DispatchKeepsInv(w, id, snapshot, queue[0], cs);
      DeliveriesGrowLists(w, id, snapshot, queue[0], cs);
      DrainKeepsInv(DeliverAll(w, id, snapshot, queue[0], cs), id, snapshot, queue[1..], m + 1, supply);
    }
  }

  /** A whole pass over the subscribed players keeps every server invariant, in any order of
      the players. */
  lemma {:induction false} PassKeepsInv(w: World, order: seq<int>, actions: ActionQueues, supply: Supply)
    requires ServerInv(w) && (forall id | id in order :: id in w.subs) && LegalDrains(w, order, actions, supply)
    ensures ServerInv(DrainPlayers(w, order, actions, supply))
    decreases |order|
  {
    if order != [] {
      var id, snapshot, queue := order[0], Lookup(w.subs, order[0]), Lookup(actions, order[0]);
      DrainKeepsInv(w, id, snapshot, queue, 0, supply);
      DrainKeepsOtherLists(w, id, snapshot, queue, 0, supply);
      PassKeepsInv(DrainPlayer(w, id, snapshot, queue, 0, supply), order[1..], actions, supply);
    }
  }

  // Every connection is that of a new player.
  predicate LegalConnectivity(w: World, messages: seq<ConnectivityMessage>)
    requires RoomsOk(w.rooms)
    decreases |messages|
  {
    messages == [] ||
    (&& (messages[0].Connect? ==> Lookup(w.subs, messages[0].playerId) == [])
     && LegalConnectivity(ProcessOne(w, messages[0]), messages[1..]))
  }

  lemma {:induction false} ConnectivityKeepsInv(w: World, messages: seq<ConnectivityMessage>)
    requires ServerInv(w) && LegalConnectivity(w, messages)
    ensures ServerInv(ProcessConnectivity(w, messages))
    decreases |messages|
  {
    if messages != [] {
      var id := messages[0].playerId;
      ServerStepKeepsInv(w, if messages[0].Connect? then Connected(id) else Disconnected(id));
      ConnectivityKeepsInv(ProcessOne(w, messages[0]), messages[1..]);
    }
  }

  /** A turn of the gameplay thread keeps every server invariant, whatever the order in
      which the map yields the players. */
  lemma TurnKeepsInv(w: World, connectivity: seq<ConnectivityMessage>, order: seq<int>, actions: ActionQueues,
                     supply: Supply, tickOf: nat -> TickInput)
    requires ServerInv(w) && LegalConnectivity(w, connectivity)
    requires var connected := ProcessConnectivity(w, connectivity);
             Visits(order, connected.subs.Keys, {}) && LegalDrains(connected, order, actions, supply)
    ensures ServerInv(Turn(w, connectivity, order, actions, supply, tickOf))
  {
    ConnectivityKeepsInv(w, connectivity);
    var connected := ProcessConnectivity(w, connectivity);
    PassKeepsInv(connected, order, actions, supply);
    var drained := DrainPlayers(connected, order, actions, supply);
    ServerStepKeepsInv(drained, Ticked(TicksFor(tickOf, |drained.rooms|)));
  }

  // ---------- unsubscribing ----------

  // The entries with another context, in order.
  function Without(l: seq<Subscriber>, s: Subscriber): seq<Subscriber> {
    if l == [] then [] else (if l[0] == s then [] else [l[0]]) + Without(l[1..], s)
  }

  // The unsubscribe the code means: the filtered list written back.
  function IntendedUnsubscribe(subs: SubscriberLists, id: int, s: Subscriber): SubscriberLists {
    subs[id := Without(Lookup(subs, id), s)]
  }

  lemma {:induction false} WithoutRemovesAll(l: seq<Subscriber>, s: Subscriber)
    ensures s !in Without(l, s)
    ensures |Without(l, s)| <= |l| && (|Without(l, s)| == |l| <==> s !in l)
    ensures s !in l ==> Without(l, s) == l
  {
    if l != [] {
      var first, rest := if l[0] == s then [] else [l[0]], Without(l[1..], s);
      WithoutRemovesAll(l[1..], s);
      assert Without(l, s) == first + rest;
      assert l == [l[0]] + l[1..];
      assert s in l <==> l[0] == s || s in l[1..];
    }
  }

  /** Every other entry survives, as often as it was there. */
  lemma {:induction false} WithoutKeepsTheRest(l: seq<Subscriber>, s: Subscriber)
    ensures multiset(Without(l, s)) == multiset(l)[s := 0]
  {
    if l != [] {
      WithoutKeepsTheRest(l[1..], s);
      assert l == [l[0]] + l[1..];
      assert multiset(l) == multiset{l[0]} + multiset(l[1..]);
    }
  }

  /** The survivors keep their order: filtering a list in two parts is filtering each. */
  lemma {:induction false} WithoutKeepsOrder(a: seq<Subscriber>, b: seq<Subscriber>, s: Subscriber)
    ensures Without(a + b, s) == Without(a, s) + Without(b, s)
    decreases |a|
  {
    if a == [] {
      assert a + b == b;
    } else {
      var first := if a[0] == s then [] else [a[0]];
      TailOfSum(a, b);
      WithoutKeepsOrder(a[1..], b, s);
      assert Without(a + b, s) == first + Without(a[1..] + b, s) && Without(a, s) == first + Without(a[1..], s);
      SumIsAssociative(first, Without(a[1..], s), Without(b, s));
    }
  }

  /** As written, unsubscribing has the intended effect exactly when there is nothing to
      unsubscribe. */
  lemma UnsubscribeWorksIffNotSubscribed(subs: SubscriberLists, id: int, s: Subscriber)
    ensures Unsubscribe(subs, id, s) == IntendedUnsubscribe(subs, id, s) <==> s !in Lookup(subs, id)
  {
    WithoutRemovesAll(Lookup(subs, id), s);
    assert Unsubscribe(subs, id, s)[id] == Lookup(subs, id);
    assert IntendedUnsubscribe(subs, id, s)[id] == Without(Lookup(subs, id), s);
  }

  /** One consequence: a JOIN_GAME still queued when its player disconnects is served, and
      puts the departed player into a room; had the subscription been removed, it would be
      consumed without effect. */
  lemma DepartedPlayersStillJoin(w: World, id: int, nickname: string, d: GameDifficulty, supply: Supply)
    requires WorldInv(w) && Lookup(w.subs, id) != []
    ensures var gone := ProcessOne(w, Disconnect(id));
            && !Nowhere(DrainPlayer(gone, id, Lookup(gone.subs, id), [JoinGame(nickname, d)], 0, supply).rooms, id)
            && var intended := gone.(subs := IntendedUnsubscribe(gone.subs, id, ToGameplay));
               DrainPlayer(intended, id, Lookup(intended.subs, id), [JoinGame(nickname, d)], 0, supply) == intended
  {
    var gone := ProcessOne(w, Disconnect(id));
    RemoveKeepsInv(w, id);
    UnsubscribeForgetsNobody(RemovePlayerFromRoom(w, id).subs, id, ToGameplay);
    var l := Lookup(gone.subs, id);
    var cs := ChancesFor(supply, id, 0, |l|);
    JoinIsOnePlacement(gone, id, l, nickname, d, cs);
    AddKeepsInv(gone, id, nickname, d, cs[0].countdown);
    assert [JoinGame(nickname, d)][1..] == [];
    var kept := Without(l, ToGameplay);
    SnapshotShape(gone, id, l);
    assert OnlyRooms(kept) by {
      WithoutRemovesAll(l, ToGameplay);
    }
    var intended := gone.(subs := IntendedUnsubscribe(gone.subs, id, ToGameplay));
    RoomsIgnore(intended, id, kept, JoinGame(nickname, d), ChancesFor(supply, id, 0, |kept|));
  }

  lemma ServerStepGrowsLists(w: World, e: ServerEvent)
    requires RoomsOk(w.rooms) && LegalEvent(w, e)
    ensures Grown(w.subs, ServerStep(w, e).subs)
  {
    match e
    case Connected(_) =>
    case Disconnected(_) =>
    case Dispatched(id, snapshot, action, cs) => DeliveriesGrowLists(w, id, snapshot, action, cs);
    case Ticked(ticks) => TicksKeepLists(w, 0, ticks);
  }

  lemma {:induction false} TicksKeepLists(w: World, i: nat, ticks: seq<TickInput>)
    requires RoomsOk(w.rooms) && i <= |w.rooms| == |ticks|
    ensures TickFrom(w, i, ticks).subs == w.subs
    decreases |w.rooms| - i
  {
    if i < |w.rooms| {
      TicksKeepLists(StepRoom(w, i, TickEvent(ticks[i].t, ticks[i].draw)), i + 1, ticks);
    }
  }

  /** So over any run no subscription is ever lost, not even at a disconnection. */
  lemma {:induction false} SubscriptionsAreForever(w: World, es: seq<ServerEvent>)
    requires RoomsOk(w.rooms) && LegalServerRun(w, es)
    ensures Grown(w.subs, ServerRun(w, es).subs)
    decreases |es|
  {
    if es != [] {
      ServerStepGrowsLists(w, es[0]);
      SubscriptionsAreForever(ServerStep(w, es[0]), es[1..]);
    }
  }

  /** A player that leaves a room and is placed into it again is subscribed to it twice. */
  lemma RejoiningSubscribesTwice(w: World, id: int, nickname: string, d: GameDifficulty, countdown: int, i: nat)
    requires WorldInv(w) && i < |w.rooms| && w.rooms[i].room.HasPlayerWithId(id)
    requires var v := RemovePlayerFromRoom(w, id).rooms;
             FirstWithSpace(v, d) < |v| && v[FirstWithSpace(v, d)].key == w.rooms[i].key
    ensures var v := AddPlayerToRoom(RemovePlayerFromRoom(w, id), id, nickname, d, countdown);
            multiset(Lookup(v.subs, id))[ToRoom(w.rooms[i].key)] >= 2
  {
    var s := ToRoom(w.rooms[i].key);
    assert w.rooms[i] in w.rooms;
    var l := Lookup(w.subs, id);
    assert s in multiset(l);
    var left := RemovePlayerFromRoom(w, id);
    assert Lookup(left.subs, id) == l;
    assert Lookup(AddPlayerToRoom(left, id, nickname, d, countdown).subs, id) == l + [s];
  }
}
