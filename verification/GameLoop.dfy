/** The endless loop of the gameplay thread, cut after any number of turns. What the network
    thread pushes arrives between two turns. */
module GameLoop {
  import opened Messages
  import opened ManagerModel
  import opened ServerRuns
  import opened Dispatch

  datatype Arrival = Arrival(id: int, action: PlayerAction)

  // What one turn takes from outside: the messages pushed before it, clock and chance.
  datatype Outside = Outside(
    connectivity: seq<ConnectivityMessage>,
    arrivals: seq<Arrival>,
    supply: Supply,
    tickOf: nat -> TickInput)

  // What the loop carries from turn to turn.
  datatype Loop = Loop(world: World, connectivity: seq<ConnectivityMessage>, actions: ActionQueues)

  function Arrive(actions: ActionQueues, arrivals: seq<Arrival>): ActionQueues
    decreases |arrivals|
  {
    if arrivals == [] then actions
    else
      var rest, last := arrivals[..|arrivals| - 1], arrivals[|arrivals| - 1];
      var before := Arrive(actions, rest);
      before[last.id := Lookup(before, last.id) + [last.action]]
  }

  lemma ArriveNext(actions: ActionQueues, arrivals: seq<Arrival>, i: nat)
    requires i < |arrivals|
    ensures var before := Arrive(actions, arrivals[..i]);
            Arrive(actions, arrivals[..i + 1])
            == before[arrivals[i].id := Lookup(before, arrivals[i].id) + [arrivals[i].action]]
  {
    assert arrivals[..i + 1][..i] == arrivals[..i];
  }

  function Receive(s: Loop, o: Outside): Loop {
    s.(connectivity := s.connectivity + o.connectivity, actions := Arrive(s.actions, o.arrivals))
  }

  // A turn after everything has been received; `order` is that of the subscriber map.
  function AfterTurn(s: Loop, order: seq<int>, supply: Supply, tickOf: nat -> TickInput): (v: Loop)
    requires RoomsOk(s.world.rooms)
    ensures RoomsOk(v.world.rooms)
  {
    Loop(Turn(s.world, s.connectivity, order, s.actions, supply, tickOf), [], Emptied(s.actions, order))
  }

  function Next(s: Loop, o: Outside, order: seq<int>): (v: Loop)
    requires RoomsOk(s.world.rooms)
    ensures RoomsOk(v.world.rooms)
  {
    AfterTurn(Receive(s, o), order, o.supply, o.tickOf)
  }

  function After(s: Loop, os: seq<Outside>, orders: seq<seq<int>>): (v: Loop)
    requires RoomsOk(s.world.rooms) && |orders| == |os|
    ensures RoomsOk(v.world.rooms)
    decreases |os|
  {
    if |os| == 0 then s else After(Next(s, os[0], orders[0]), os[1..], orders[1..])
  }

  lemma {:induction false} AfterAppend(s: Loop, os: seq<Outside>, orders: seq<seq<int>>, o: Outside, order: seq<int>)
    requires RoomsOk(s.world.rooms) && |orders| == |os|
    ensures After(s, os + [o], orders + [order]) == Next(After(s, os, orders), o, order)
    decreases |os|
  {
    hide Next;
    if |os| == 0 {
      assert os + [o] == [o] && orders + [order] == [order];
      assert [o][1..] == [] && [order][1..] == [];
    } else {
      assert (os + [o])[0] == os[0] && (os + [o])[1..] == os[1..] + [o];
      assert (orders + [order])[0] == orders[0] && (orders + [order])[1..] == orders[1..] + [order];
      AfterAppend(Next(s, os[0], orders[0]), os[1..], orders[1..], o, order);
    }
  }

  // The order of a turn is one of its subscriber map.
  predicate InMapOrder(s: Loop, o: Outside, order: seq<int>)
    requires RoomsOk(s.world.rooms)
  {
    Visits(order, ProcessConnectivity(s.world, s.connectivity + o.connectivity).subs.Keys, {})
  }

  predicate InMapOrders(s: Loop, os: seq<Outside>, orders: seq<seq<int>>)
    requires RoomsOk(s.world.rooms) && |orders| == |os|
    decreases |os|
  {
    |os| == 0 || (InMapOrder(s, os[0], orders[0]) && InMapOrders(Next(s, os[0], orders[0]), os[1..], orders[1..]))
  }

  lemma {:induction false} InMapOrdersAppend(s: Loop, os: seq<Outside>, orders: seq<seq<int>>, o: Outside,
                                             order: seq<int>)
    requires RoomsOk(s.world.rooms) && |orders| == |os|
    requires InMapOrders(s, os, orders) && InMapOrder(After(s, os, orders), o, order)
    ensures InMapOrders(s, os + [o], orders + [order])
    decreases |os|
  {
    hide Next, InMapOrder;
    if |os| == 0 {
      assert os + [o] == [o] && orders + [order] == [order];
      assert [o][1..] == [] && [order][1..] == [];
    } else {
      assert (os + [o])[0] == os[0] && (os + [o])[1..] == os[1..] + [o];
      assert (orders + [order])[0] == orders[0] && (orders + [order])[1..] == orders[1..] + [order];
      InMapOrdersAppend(Next(s, os[0], orders[0]), os[1..], orders[1..], o, order);
    }
  }

  // ---------- the invariants over the loop ----------

  // Connections are those of new players, and joins reach the manager from players in no room.
  predicate LegalTurn(s: Loop, o: Outside, order: seq<int>)
    requires RoomsOk(s.world.rooms)
  {
    var r := Receive(s, o);
    && LegalConnectivity(s.world, r.connectivity)
    && LegalDrains(ProcessConnectivity(s.world, r.connectivity), order, r.actions, o.supply)
  }

  predicate LegalLoop(s: Loop, os: seq<Outside>, orders: seq<seq<int>>)
    requires RoomsOk(s.world.rooms) && |orders| == |os|
    decreases |os|
  {
    |os| == 0 || (LegalTurn(s, os[0], orders[0]) && LegalLoop(Next(s, os[0], orders[0]), os[1..], orders[1..]))
  }

  lemma NextKeepsInv(s: Loop, o: Outside, order: seq<int>)
    requires ServerInv(s.world) && InMapOrder(s, o, order) && LegalTurn(s, o, order)
    ensures ServerInv(Next(s, o, order).world)
  {
    assert RoomsOk(s.world.rooms);
    hide ServerInv, LegalDrains, LegalConnectivity, Visits, DrainPlayers, ProcessConnectivity, Emptied;
    var r := Receive(s, o);
    TurnKeepsInv(s.world, r.connectivity, order, r.actions, o.supply, o.tickOf);
  }

  /** After any number of turns, whatever is pushed between them and whatever orders the map
      yields, every server invariant holds. */
  lemma {:induction false} LoopKeepsInv(s: Loop, os: seq<Outside>, orders: seq<seq<int>>)
    requires ServerInv(s.world) && |orders| == |os|
    requires InMapOrders(s, os, orders) && LegalLoop(s, os, orders)
    ensures ServerInv(After(s, os, orders).world)
    decreases |os|
  {
    assert RoomsOk(s.world.rooms);
    hide ServerInv, Next, InMapOrder, LegalTurn;
    if |os| > 0 {
      NextKeepsInv(s, os[0], orders[0]);
      LoopKeepsInv(Next(s, os[0], orders[0]), os[1..], orders[1..]);
    }
  }

  // ---------- nothing is lost between turns ----------

  function ArrivedFor(id: int, arrivals: seq<Arrival>): seq<PlayerAction> {
    if arrivals == [] then []
    else
      var rest, last := arrivals[..|arrivals| - 1], arrivals[|arrivals| - 1];
      ArrivedFor(id, rest) + (if last.id == id then [last.action] else [])
  }

  lemma {:induction false} ArriveAppends(actions: ActionQueues, arrivals: seq<Arrival>, id: int)
    ensures Lookup(Arrive(actions, arrivals), id) == Lookup(actions, id) + ArrivedFor(id, arrivals)
    decreases |arrivals|
  {
    if arrivals != [] {
      ArriveAppends(actions, arrivals[..|arrivals| - 1], id);
    }
  }

  // All that arrives for the player over the turns.
  function AllArrivedFor(id: int, os: seq<Outside>): seq<PlayerAction> {
    if |os| == 0 then [] else ArrivedFor(id, os[0].arrivals) + AllArrivedFor(id, os[1..])
  }

  // All that the turns drain of the player's queue.
  function AllServedTo(id: int, s: Loop, os: seq<Outside>, orders: seq<seq<int>>): seq<PlayerAction>
    requires RoomsOk(s.world.rooms) && |orders| == |os|
    decreases |os|
  {
    if |os| == 0 then []
    else
      (if id in orders[0] then Lookup(Receive(s, os[0]).actions, id) else []) +
      AllServedTo(id, Next(s, os[0], orders[0]), os[1..], orders[1..])
  }

  lemma ServedInOneTurn(id: int, s: Loop, o: Outside, order: seq<int>)
    requires RoomsOk(s.world.rooms)
    ensures Lookup(s.actions, id) + ArrivedFor(id, o.arrivals)
         == (if id in order then Lookup(Receive(s, o).actions, id) else []) + Lookup(Next(s, o, order).actions, id)
  {
    hide Turn, Emptied, ArrivedFor, Arrive;
    ArriveAppends(s.actions, o.arrivals, id);
    OnlyListedQueuesAreEmptied(Arrive(s.actions, o.arrivals), order, id);
  }

  /** Over any number of turns a player's actions are served in the order in which they
      arrived, each in one turn, but for those still queued at the end. */
  lemma {:induction false} ServedInOrderOfArrival(id: int, s: Loop, os: seq<Outside>, orders: seq<seq<int>>)
    requires RoomsOk(s.world.rooms) && |orders| == |os|
    ensures Lookup(s.actions, id) + AllArrivedFor(id, os)
         == AllServedTo(id, s, os, orders) + Lookup(After(s, os, orders).actions, id)
    decreases |os|
  {
    if |os| > 0 {
      hide Next, Receive, Lookup, ArrivedFor;
      var next := Next(s, os[0], orders[0]);
      var served := if id in orders[0] then Lookup(Receive(s, os[0]).actions, id) else [];
      ServedInOneTurn(id, s, os[0], orders[0]);
      ServedInOrderOfArrival(id, next, os[1..], orders[1..]);
      Regroup(Lookup(s.actions, id), ArrivedFor(id, os[0].arrivals), AllArrivedFor(id, os[1..]),
              served, Lookup(next.actions, id), AllServedTo(id, next, os[1..], orders[1..]),
              Lookup(After(next, os[1..], orders[1..]).actions, id));
    }
  }

  lemma Regroup<T>(a: seq<T>, b: seq<T>, c: seq<T>, d: seq<T>, e: seq<T>, f: seq<T>, g: seq<T>)
    requires a + b == d + e && e + c == f + g
    ensures a + (b + c) == (d + f) + g
  {
    assert a + (b + c) == (a + b) + c == (d + e) + c == d + (e + c);
    assert d + (f + g) == (d + f) + g;
  }

  /** A listed player waits for nothing: after every turn its queue is empty. */
  lemma ListedQueuesAreEmptyAfterATurn(s: Loop, o: Outside, order: seq<int>, id: int)
    requires RoomsOk(s.world.rooms) && InMapOrder(s, o, order)
    ensures id in ProcessConnectivity(s.world, s.connectivity + o.connectivity).subs ==>
              Lookup(Next(s, o, order).actions, id) == []
  {
    OnlyListedQueuesAreEmptied(Receive(s, o).actions, order, id);
  }
}
