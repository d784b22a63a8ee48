/** Ticking all rooms: the order of the rooms is not observable. */
module Isolation {
  import opened Messages
  import opened RoomModel
  import opened ManagerModel
  import opened ClientView

  predicate InRange(order: seq<nat>, n: nat) {
    forall j | 0 <= j < |order| :: order[j] < n
  }

  // Every room exactly once.
  predicate IsOrder(order: seq<nat>, n: nat) {
    && InRange(order, n)
    && NoDuplicates(order)
    && forall i: nat | i < n :: i in order
  }

  function TickOf(input: TickInput): Event {
    TickEvent(input.t, input.draw)
  }

  // The rooms tick in the order given by their indices.
  function TickInOrder(w: World, order: seq<nat>, ticks: seq<TickInput>): (v: World)
    requires RoomsOk(w.rooms) && |ticks| == |w.rooms| && InRange(order, |w.rooms|)
    ensures RoomsOk(v.rooms) && |v.rooms| == |w.rooms|
    decreases |order|
  {
    if order == [] then w
    else TickInOrder(StepRoom(w, order[0], TickOf(ticks[order[0]])), order[1..], ticks)
  }

  // Each room of the order ticks once, from the state it had, and no other room moves.
  lemma {:induction false} TickingIsLocal(w: World, order: seq<nat>, ticks: seq<TickInput>)
    requires RoomsOk(w.rooms) && |ticks| == |w.rooms| && InRange(order, |w.rooms|) && NoDuplicates(order)
    ensures forall i: nat | i < |w.rooms| ::
              TickInOrder(w, order, ticks).rooms[i] ==
              if i in order then w.rooms[i].(room := Step(w.rooms[i].room, TickOf(ticks[i])).room) else w.rooms[i]
    decreases |order|
  {
    if order != [] {
      assert order[0] !in order[1..];
      TickingIsLocal(StepRoom(w, order[0], TickOf(ticks[order[0]])), order[1..], ticks);
    }
  }

  lemma TickIsHeardInside(r: RoomState, input: TickInput, id: int)
    requires RoomInv(r) && DistinctIds(r)
    ensures !r.HasPlayerWithId(id) ==> Inbox(id, Step(r, TickOf(input)).sent) == []
  {
    StepInforms(r, TickOf(input), id);
    TickMembership(r, input.t, input.draw, id);
  }

  // A player in room `home`, or in no room when home == |rooms|.
  predicate LivesAt(rooms: seq<RoomEntry>, id: int, home: nat) {
    forall i | 0 <= i < |rooms| :: DistinctIds(rooms[i].room) && (rooms[i].room.HasPlayerWithId(id) <==> i == home)
  }

  // What the player's own room has to say.
  function News(w: World, ticks: seq<TickInput>, id: int, home: nat): seq<GameplayMessage>
    requires RoomsOk(w.rooms) && |ticks| == |w.rooms|
  {
    if home < |w.rooms| then Inbox(id, Step(w.rooms[home].room, TickOf(ticks[home])).sent) else []
  }

  lemma OneTickIsHeardAtHome(w: World, first: nat, ticks: seq<TickInput>, id: int, home: nat)
    requires RoomsOk(w.rooms) && |ticks| == |w.rooms| && LivesAt(w.rooms, id, home) && first < |w.rooms|
    ensures var v := StepRoom(w, first, TickOf(ticks[first]));
            && LivesAt(v.rooms, id, home)
            && Inbox(id, v.sent) == Inbox(id, w.sent) + (if home == first then News(w, ticks, id, home) else [])
            && (home != first ==> News(v, ticks, id, home) == News(w, ticks, id, home))
  {
    var r, e := w.rooms[first].room, TickOf(ticks[first]);
    StepKeepsDistinctIds(r, e);
    TickMembership(r, e.t, e.draw, id);
    TickIsHeardInside(r, ticks[first], id);
    InboxAppend(id, w.sent, Step(r, e).sent);
  }

  lemma HeardInTurn(before: seq<GameplayMessage>, after: seq<GameplayMessage>, last: seq<GameplayMessage>,
                    news: seq<GameplayMessage>, newsLeft: seq<GameplayMessage>, order: seq<nat>, home: nat)
    requires order != [] && order[0] !in order[1..]
    requires after == before + (if home == order[0] then news else [])
    requires last == after + (if home in order[1..] then newsLeft else [])
    requires home != order[0] ==> newsLeft == news
    ensures last == before + (if home in order then news else [])
  {
    assert order == [order[0]] + order[1..];
  }

  lemma {:induction false} TickingIsHeardAtHome(w: World, order: seq<nat>, ticks: seq<TickInput>, id: int, home: nat)
    requires RoomsOk(w.rooms) && |ticks| == |w.rooms| && LivesAt(w.rooms, id, home)
    requires InRange(order, |w.rooms|) && NoDuplicates(order)
    ensures Inbox(id, TickInOrder(w, order, ticks).sent)
         == Inbox(id, w.sent) + (if home in order then News(w, ticks, id, home) else [])
    decreases |order|
  {
    if order != [] {
      var first := order[0];
      assert first !in order[1..];
      OneTickIsHeardAtHome(w, first, ticks, id, home);
      var v := StepRoom(w, first, TickOf(ticks[first]));
      TickingIsHeardAtHome(v, order[1..], ticks, id, home);
      HeardInTurn(Inbox(id, w.sent), Inbox(id, v.sent), Inbox(id, TickInOrder(v, order[1..], ticks).sent),
                  News(w, ticks, id, home), News(v, ticks, id, home), order, home);
    }
  }

  // The order the server uses.
  function IndexOrder(i: nat, n: nat): (order: seq<nat>)
    requires i <= n
    ensures |order| == n - i && forall k | 0 <= k < n - i :: order[k] == i + k
    decreases n - i
  {
    if i == n then [] else [i] + IndexOrder(i + 1, n)
  }

  lemma IndexOrderIsAnOrder(n: nat)
    ensures IsOrder(IndexOrder(0, n), n)
  {
    var order := IndexOrder(0, n);
    forall i: nat | i < n
      ensures i in order
    {
      assert order[i] == i;
    }
  }

  lemma {:induction false} TickFromIsInOrder(w: World, i: nat, ticks: seq<TickInput>)
    requires RoomsOk(w.rooms) && i <= |w.rooms| == |ticks|
    ensures TickFrom(w, i, ticks) == TickInOrder(w, IndexOrder(i, |w.rooms|), ticks)
    decreases |w.rooms| - i
  {
    if i < |w.rooms| {
      TickFromIsInOrder(StepRoom(w, i, TickOf(ticks[i])), i + 1, ticks);
      assert IndexOrder(i, |w.rooms|)[1..] == IndexOrder(i + 1, |w.rooms|);
    }
  }

  // Disjoint player sets: every player lives in exactly one room or in none.
  lemma EveryoneLivesSomewhere(rooms: seq<RoomEntry>, nextKey: nat, id: int)
    requires Structure(rooms, nextKey)
    ensures LivesAt(rooms, id, FirstWithPlayer(rooms, id))
  {
  }

  /** Whatever order the rooms tick in, with the same readings and draws per room the rooms
      end up the same, and every player hears the same: its earlier messages followed by
      the broadcasts of the room it is in, nothing if it is in no room. */
  lemma TickOrderIsNotObservable(w: World, order: seq<nat>, ticks: seq<TickInput>, id: int)
    requires Structure(w.rooms, w.nextKey) && |ticks| == |w.rooms| && IsOrder(order, |w.rooms|)
    ensures TickInOrder(w, order, ticks).rooms == TickFrom(w, 0, ticks).rooms
    ensures Inbox(id, TickInOrder(w, order, ticks).sent) == Inbox(id, TickFrom(w, 0, ticks).sent)
         == Inbox(id, w.sent) + News(w, ticks, id, FirstWithPlayer(w.rooms, id))
  {
    var indices, home := IndexOrder(0, |w.rooms|), FirstWithPlayer(w.rooms, id);
    IndexOrderIsAnOrder(|w.rooms|);
    EveryoneLivesSomewhere(w.rooms, w.nextKey, id);
    hide Structure, Step;
    TickFromIsInOrder(w, 0, ticks);
    TickingIsLocal(w, order, ticks);
    TickingIsLocal(w, indices, ticks);
    TickingIsHeardAtHome(w, order, ticks, id, home);
    TickingIsHeardAtHome(w, indices, ticks, id, home);
  }
}
