/** Turns of the gameplay loop are runs of the server's state machine, so what holds of every
    run holds of every turn. */
module ServerTurns {
  import opened Messages
  import opened ManagerModel
  import opened Routing
  import opened ServerRuns
  import opened Dispatch
  import opened GameLoop

  lemma {:induction false} RunInParts(w: World, a: seq<ServerEvent>, b: seq<ServerEvent>)
    requires RoomsOk(w.rooms) && LegalServerRun(w, a) && LegalServerRun(ServerRun(w, a), b)
    ensures LegalServerRun(w, a + b) && ServerRun(w, a + b) == ServerRun(ServerRun(w, a), b)
    decreases |a|
  {
    hide ServerStep, LegalEvent;
    if a == [] {
      assert a + b == b;
    } else {
      TailOfSum(a, b);
      RunInParts(ServerStep(w, a[0]), a[1..], b);
    }
  }

  lemma RunOfOne(w: World, e: ServerEvent)
    requires RoomsOk(w.rooms) && LegalEvent(w, e)
    ensures LegalServerRun(w, [e]) && ServerRun(w, [e]) == ServerStep(w, e)
  {
    hide ServerStep;
    assert [e][1..] == [];
  }

  lemma {:induction false} ConnectivityIsARun(w: World, messages: seq<ConnectivityMessage>)
    returns (es: seq<ServerEvent>)
    requires RoomsOk(w.rooms) && LegalConnectivity(w, messages)
    ensures LegalServerRun(w, es) && ServerRun(w, es) == ProcessConnectivity(w, messages)
    decreases |messages|
  {
    es := [];
    if messages != [] {
      var m := messages[0];
      var e := if m.Connect? then Connected(m.playerId) else Disconnected(m.playerId);
      assert LegalEvent(w, e) && ServerStep(w, e) == ProcessOne(w, m);
      hide ProcessOne, ServerStep, LegalEvent;
      var rest := ConnectivityIsARun(ProcessOne(w, m), messages[1..]);
      RunOfOne(w, e);
      RunInParts(w, [e], rest);
      es := [e] + rest;
    }
  }

  lemma {:induction false} DrainIsARun(w: World, id: int, snapshot: seq<Subscriber>, queue: seq<PlayerAction>, m: nat,
                                       supply: Supply) returns (es: seq<ServerEvent>)
    requires RoomsOk(w.rooms) && id in w.subs && Snapshot(w, id, snapshot)
    requires LegalDrain(w, id, snapshot, queue, m, supply)
    ensures LegalServerRun(w, es) && ServerRun(w, es) == DrainPlayer(w, id, snapshot, queue, m, supply)
    decreases |queue|
  {
    es := [];
    if queue != [] {
      var cs := ChancesFor(supply, id, m, |snapshot|);
      var e := Dispatched(id, snapshot, queue[0], cs);
      var next := DeliverAll(w, id, snapshot, queue[0], cs);
      assert LegalEvent(w, e) && ServerStep(w, e) == next;
      DeliveriesGrowLists(w, id, snapshot, queue[0], cs);
      hide DeliverAll, ServerStep, LegalEvent;
      var rest := DrainIsARun(next, id, snapshot, queue[1..], m + 1, supply);
      RunOfOne(w, e);
      RunInParts(w, [e], rest);
      es := [e] + rest;
    }
  }

  lemma {:induction false} PassIsARun(w: World, order: seq<int>, actions: ActionQueues, supply: Supply)
    returns (es: seq<ServerEvent>)
    requires RoomsOk(w.rooms) && (forall id | id in order :: id in w.subs) && LegalDrains(w, order, actions, supply)
    ensures LegalServerRun(w, es) && ServerRun(w, es) == DrainPlayers(w, order, actions, supply)
    decreases |order|
  {
    es := [];
    if order != [] {
      var id, snapshot, queue := order[0], Lookup(w.subs, order[0]), Lookup(actions, order[0]);
      var next := DrainPlayer(w, id, snapshot, queue, 0, supply);
      var first := DrainIsARun(w, id, snapshot, queue, 0, supply);
      DrainKeepsOtherLists(w, id, snapshot, queue, 0, supply);
      hide DrainPlayer, LegalDrain;
      var rest := PassIsARun(next, order[1..], actions, supply);
      RunInParts(w, first, rest);
      es := first + rest;
    }
  }

  /** A legal turn is a legal run of the server that ends with a tick of all rooms. */
  lemma TurnIsARun(s: Loop, o: Outside, order: seq<int>) returns (es: seq<ServerEvent>)
    requires RoomsOk(s.world.rooms) && InMapOrder(s, o, order) && LegalTurn(s, o, order)
    ensures LegalServerRun(s.world, es) && ServerRun(s.world, es) == Next(s, o, order).world
    ensures es != [] && es[|es| - 1].Ticked?
  {
    var r := Receive(s, o);
    var connected := ProcessConnectivity(s.world, r.connectivity);
    var drained := DrainPlayers(connected, order, r.actions, o.supply);
    var opening := ConnectivityIsARun(s.world, r.connectivity);
    var pass := PassIsARun(connected, order, r.actions, o.supply);
    var ticks := TicksFor(o.tickOf, |drained.rooms|);
    assert ServerStep(drained, Ticked(ticks)) == Next(s, o, order).world;
    hide ProcessConnectivity, DrainPlayers, ServerStep, TickFrom, Next;
    RunOfOne(drained, Ticked(ticks));
    RunInParts(s.world, opening, pass);
    RunInParts(s.world, opening + pass, [Ticked(ticks)]);
    es := opening + pass + [Ticked(ticks)];
  }

  /** And so are any number of turns. */
  lemma {:induction false} LoopIsARun(s: Loop, os: seq<Outside>, orders: seq<seq<int>>) returns (es: seq<ServerEvent>)
    requires RoomsOk(s.world.rooms) && |orders| == |os| && InMapOrders(s, os, orders) && LegalLoop(s, os, orders)
    ensures LegalServerRun(s.world, es) && ServerRun(s.world, es) == After(s, os, orders).world
    decreases |os|
  {
    hide Next, InMapOrder, LegalTurn;
    es := [];
    if |os| > 0 {
      var first := TurnIsARun(s, os[0], orders[0]);
      var rest := LoopIsARun(Next(s, os[0], orders[0]), os[1..], orders[1..]);
      RunInParts(s.world, first, rest);
      es := first + rest;
    }
  }
}
