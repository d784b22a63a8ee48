/** The gameplay thread: handling connectivity, one dispatch pass of the broker, and the
    tick of all rooms, as an object over the hub, the broker and the manager. The callbacks
    stored in the broker are dispatched on their context. */
module GameplayClass {
  import opened Messages
  import opened ManagerModel
  import opened Dispatch
  import GameLoop
  import opened Brokers
  import opened RoomManagerClass

  class Gameplay {
    const messageBroker: GameplayMessageBroker
    const roomManager: RoomManager

    ghost predicate Valid()
      reads this, roomManager, roomManager.Repr, messageBroker.messageHub
    {
      && roomManager.messageBroker == messageBroker
      && roomManager.Valid()
      && messageBroker.messageHub.Valid()
    }

    ghost function World(): (w: World)
      requires Valid()
      reads this, roomManager, roomManager.Repr, messageBroker, messageBroker.messageHub
      ensures RoomsOk(w.rooms)
    {
      roomManager.World()
    }

    constructor (messageBroker: GameplayMessageBroker)
      requires messageBroker.messageHub.Valid()
      ensures Valid() && fresh(roomManager) && fresh(roomManager.Repr)
      ensures this.messageBroker == messageBroker
      ensures World() == ManagerModel.World([], 0, messageBroker.subscribers, messageBroker.messageHub.published)
    {
      this.messageBroker := messageBroker;
      roomManager := new RoomManager(messageBroker);
    }

    method HandlePlayerConnectivityMessage(message: ConnectivityMessage)
      requires Valid()
      modifies roomManager, roomManager.Repr, messageBroker`subscribers
      modifies messageBroker.messageHub`gameplayMessagesByPlayerId, messageBroker.messageHub`published
      ensures Valid() && fresh(roomManager.Repr - old(roomManager.Repr))
      ensures World() == ProcessOne(old(World()), message)
    {
      match message {
        case Connect(playerId) =>
          messageBroker.SubscribeToPlayerActionMessages(playerId, ToGameplay);
        case Disconnect(playerId) =>
          roomManager.RemovePlayerFromRoom(playerId);
          messageBroker.UnsubscribeToPlayerActionMessages(playerId, ToGameplay);
      }
    }

    // One stored callback, for one message.
    method Call(playerId: int, context: Subscriber, message: PlayerAction, chance: Chance)
      requires Valid()
      modifies roomManager, roomManager.Repr, messageBroker`subscribers
      modifies messageBroker.messageHub`gameplayMessagesByPlayerId, messageBroker.messageHub`published
      ensures Valid() && fresh(roomManager.Repr - old(roomManager.Repr))
      ensures World() == Deliver(old(World()), playerId, context, message, chance)
    {
      match context {
        case ToGameplay =>
          roomManager.HandlePlayerMessage(playerId, message, chance.countdown);
          assert roomManager.World() == Deliver(old(World()), playerId, ToGameplay, message, chance);
        case ToRoom(key) =>
          var room := roomManager.FindRoomByKey(key);
          if room < |roomManager.rooms| {
            roomManager.MessageRoom(room, playerId, message, chance.at);
          }
      }
    }

    // The front message to every callback of the snapshot.
    method CallAll(playerId: int, snapshot: seq<Subscriber>, message: PlayerAction, chances: seq<Chance>)
      requires Valid() && |chances| == |snapshot|
      modifies roomManager, roomManager.Repr, messageBroker`subscribers
      modifies messageBroker.messageHub`gameplayMessagesByPlayerId, messageBroker.messageHub`published
      ensures Valid() && fresh(roomManager.Repr - old(roomManager.Repr))
      ensures World() == DeliverAll(old(World()), playerId, snapshot, message, chances)
    {
      hide Deliver, DeliverAll;
      ghost var all := DeliverAll(World(), playerId, snapshot, message, chances);
      assert snapshot[0..] == snapshot && chances[0..] == chances;
      var j := 0;
      while j < |snapshot|
        invariant 0 <= j <= |snapshot|
        invariant Valid() && fresh(roomManager.Repr - old(roomManager.Repr))
        invariant DeliverAll(World(), playerId, snapshot[j..], message, chances[j..]) == all
      {
        DeliverNext(World(), playerId, snapshot, message, chances, j);
        Call(playerId, snapshot[j], message, chances[j]);
        j := j + 1;
      }
      DeliverToNobody(World(), playerId, message);
      assert snapshot[j..] == [] && chances[j..] == [];
    }

    // One message of the player's queue: the front goes to every callback, then is popped.
    method DrainOne(playerId: int, snapshot: seq<Subscriber>, m: nat, supply: Supply)
      requires Valid() && Lookup(messageBroker.messageHub.playerActionMessagesByPlayerId, playerId) != []
      modifies roomManager, roomManager.Repr, messageBroker`subscribers
      modifies messageBroker.messageHub`gameplayMessagesByPlayerId, messageBroker.messageHub`published
      modifies messageBroker.messageHub`playerActionMessagesByPlayerId
      ensures Valid() && fresh(roomManager.Repr - old(roomManager.Repr))
      ensures var queue := Lookup(old(messageBroker.messageHub.playerActionMessagesByPlayerId), playerId);
              && World() == DeliverAll(old(World()), playerId, snapshot, queue[0],
                              ChancesFor(supply, playerId, m, |snapshot|))
              && messageBroker.messageHub.playerActionMessagesByPlayerId
              == old(messageBroker.messageHub.playerActionMessagesByPlayerId)[playerId := queue[1..]]
    {
      var hub := messageBroker.messageHub;
      var queue := Lookup(hub.playerActionMessagesByPlayerId, playerId);
      CallAll(playerId, snapshot, queue[0], ChancesFor(supply, playerId, m, |snapshot|));
      hub.playerActionMessagesByPlayerId := hub.playerActionMessagesByPlayerId[playerId := queue[1..]];
    }

    // The inner loop of dispatchMessages for one player.
    method DrainPlayer(playerId: int, snapshot: seq<Subscriber>, supply: Supply)
      requires Valid()
      modifies roomManager, roomManager.Repr, messageBroker`subscribers
      modifies messageBroker.messageHub`gameplayMessagesByPlayerId, messageBroker.messageHub`published
      modifies messageBroker.messageHub`playerActionMessagesByPlayerId
      ensures Valid() && fresh(roomManager.Repr - old(roomManager.Repr))
      ensures World() == Dispatch.DrainPlayer(old(World()), playerId, snapshot,
                Lookup(old(messageBroker.messageHub.playerActionMessagesByPlayerId), playerId), 0, supply)
      ensures messageBroker.messageHub.playerActionMessagesByPlayerId
           == old(messageBroker.messageHub.playerActionMessagesByPlayerId)[playerId := []]
    {
      hide DeliverAll, Dispatch.DrainPlayer;
      var hub := messageBroker.messageHub;
      ghost var actions := hub.playerActionMessagesByPlayerId;
      ghost var queue := Lookup(actions, playerId);
      ghost var w := World();
      ghost var drained := Dispatch.DrainPlayer(w, playerId, snapshot, queue, 0, supply);
      hub.playerActionMessagesByPlayerId :=
        hub.playerActionMessagesByPlayerId[playerId := Lookup(hub.playerActionMessagesByPlayerId, playerId)];
      var m := 0;
      while hub.playerActionMessagesByPlayerId[playerId] != []
        invariant Valid() && fresh(roomManager.Repr - old(roomManager.Repr))
        invariant hub.playerActionMessagesByPlayerId == actions[playerId := queue]
        invariant World() == w && RoomsOk(w.rooms)
        invariant Dispatch.DrainPlayer(w, playerId, snapshot, queue, m, supply) == drained
        decreases |queue|
      {
        DrainNext(w, playerId, snapshot, queue, m, supply);
        DrainOne(playerId, snapshot, m, supply);
        w, queue := World(), queue[1..];
        m := m + 1;
      }
      DrainNothing(w, playerId, snapshot, m, supply);
    }

    /** A dispatch pass. `order` is the order in which the subscriber map was iterated; with
        no concurrent producer the pass terminates, because callbacks publish only toward the
        players. */
    method DispatchMessages(supply: Supply) returns (ghost order: seq<int>)
      requires Valid()
      modifies roomManager, roomManager.Repr, messageBroker`subscribers
      modifies messageBroker.messageHub`gameplayMessagesByPlayerId, messageBroker.messageHub`published
      modifies messageBroker.messageHub`playerActionMessagesByPlayerId
      modifies messageBroker.messageHub`playerConnectivityMessages
      ensures Valid() && fresh(roomManager.Repr - old(roomManager.Repr))
      ensures messageBroker.messageHub.playerConnectivityMessages == []
      ensures var connectivity := old(messageBroker.messageHub.playerConnectivityMessages);
              var connected := ProcessConnectivity(old(World()), connectivity);
              && Visits(order, connected.subs.Keys, {})
              && World() == DrainPlayers(connected, order,
                              old(messageBroker.messageHub.playerActionMessagesByPlayerId), supply)
      ensures messageBroker.messageHub.playerActionMessagesByPlayerId
           == Emptied(old(messageBroker.messageHub.playerActionMessagesByPlayerId), order)
    {
      DispatchConnectivity();
      order := DispatchActions(supply);
    }

    method DispatchConnectivity()
      requires Valid()
      modifies roomManager, roomManager.Repr, messageBroker`subscribers
      modifies messageBroker.messageHub`gameplayMessagesByPlayerId, messageBroker.messageHub`published
      modifies messageBroker.messageHub`playerConnectivityMessages
      ensures Valid() && fresh(roomManager.Repr - old(roomManager.Repr))
      ensures messageBroker.messageHub.playerConnectivityMessages == []
      ensures World()
           == ProcessConnectivity(old(World()), old(messageBroker.messageHub.playerConnectivityMessages))
    {
      var hub := messageBroker.messageHub;
      while hub.playerConnectivityMessages != []
        invariant Valid() && fresh(roomManager.Repr - old(roomManager.Repr))
        invariant ProcessConnectivity(World(), hub.playerConnectivityMessages)
               == ProcessConnectivity(old(World()), old(hub.playerConnectivityMessages))
        decreases |hub.playerConnectivityMessages|
      {
        HandlePlayerConnectivityMessage(hub.playerConnectivityMessages[0]);
        hub.playerConnectivityMessages := hub.playerConnectivityMessages[1..];
      }
    }

    // The player's callbacks are copied once, before its queue is drained.
    method VisitPlayer(playerId: int, supply: Supply)
      requires Valid()
      modifies roomManager, roomManager.Repr, messageBroker`subscribers
      modifies messageBroker.messageHub`gameplayMessagesByPlayerId, messageBroker.messageHub`published
      modifies messageBroker.messageHub`playerActionMessagesByPlayerId
      ensures Valid() && fresh(roomManager.Repr - old(roomManager.Repr))
      ensures World() == Dispatch.DrainPlayer(old(World()), playerId, Lookup(old(World()).subs, playerId),
                Lookup(old(messageBroker.messageHub.playerActionMessagesByPlayerId), playerId), 0, supply)
      ensures messageBroker.messageHub.playerActionMessagesByPlayerId
           == old(messageBroker.messageHub.playerActionMessagesByPlayerId)[playerId := []]
    {
      var callbacksWithContext := Lookup(messageBroker.subscribers, playerId);
      DrainPlayer(playerId, callbacksWithContext, supply);
    }

    method DispatchActions(supply: Supply) returns (ghost order: seq<int>)
      requires Valid()
      modifies roomManager, roomManager.Repr, messageBroker`subscribers
      modifies messageBroker.messageHub`gameplayMessagesByPlayerId, messageBroker.messageHub`published
      modifies messageBroker.messageHub`playerActionMessagesByPlayerId
      ensures Valid() && fresh(roomManager.Repr - old(roomManager.Repr))
      ensures Visits(order, old(World()).subs.Keys, {})
      ensures World() == DrainPlayers(old(World()), order,
                old(messageBroker.messageHub.playerActionMessagesByPlayerId), supply)
      ensures messageBroker.messageHub.playerActionMessagesByPlayerId
           == Emptied(old(messageBroker.messageHub.playerActionMessagesByPlayerId), order)
    {
      var hub := messageBroker.messageHub;
      ghost var actions := hub.playerActionMessagesByPlayerId;
      ghost var before := World();
      ghost var keys := before.subs.Keys;
      var toVisit := messageBroker.subscribers.Keys;
      order := [];
      while toVisit != {}
        invariant Valid() && fresh(roomManager.Repr - old(roomManager.Repr))
        invariant Visits(order, keys, toVisit)
        invariant World() == DrainPlayers(before, order, actions, supply)
        invariant hub.playerActionMessagesByPlayerId == Emptied(actions, order)
        decreases toVisit
      {
        var playerId := PickPlayer(toVisit);
        VisitNext(order, keys, toVisit, playerId);
        DrainPlayersAppend(before, order, playerId, actions, supply);
        OnlyListedQueuesAreEmptied(actions, order, playerId);
        VisitPlayer(playerId, supply);
        order := order + [playerId];
        toVisit := toVisit - {playerId};
      }
    }

    /** One turn of the gameplay thread: dispatch, then tick. */
    method Turn(supply: Supply, tickOf: nat -> TickInput) returns (ghost order: seq<int>)
      requires Valid()
      modifies roomManager, roomManager.Repr, messageBroker`subscribers
      modifies messageBroker.messageHub`gameplayMessagesByPlayerId, messageBroker.messageHub`published
      modifies messageBroker.messageHub`playerActionMessagesByPlayerId
      modifies messageBroker.messageHub`playerConnectivityMessages
      ensures Valid() && fresh(roomManager.Repr - old(roomManager.Repr))
      ensures var connectivity := old(messageBroker.messageHub.playerConnectivityMessages);
              && Visits(order, ProcessConnectivity(old(World()), connectivity).subs.Keys, {})
              && World() == Dispatch.Turn(old(World()), connectivity, order,
                              old(messageBroker.messageHub.playerActionMessagesByPlayerId), supply, tickOf)
      ensures messageBroker.messageHub.playerConnectivityMessages == []
      ensures messageBroker.messageHub.playerActionMessagesByPlayerId
           == Emptied(old(messageBroker.messageHub.playerActionMessagesByPlayerId), order)
    {
      order := DispatchMessages(supply);
      roomManager.TickAllRooms(TicksFor(tickOf, |roomManager.rooms|));
    }

    // What the loop carries from turn to turn.
    ghost function State(): (s: GameLoop.Loop)
      requires Valid()
      reads this, roomManager, roomManager.Repr, messageBroker, messageBroker.messageHub
      ensures RoomsOk(s.world.rooms)
    {
      GameLoop.Loop(World(), messageBroker.messageHub.playerConnectivityMessages,
                    messageBroker.messageHub.playerActionMessagesByPlayerId)
    }

    // The network thread between two turns.
    method Receive(networkBroker: NetworkMessageBroker, outside: GameLoop.Outside)
      requires Valid() && networkBroker.messageHub == messageBroker.messageHub
      modifies messageBroker.messageHub`playerActionMessagesByPlayerId
      modifies messageBroker.messageHub`playerConnectivityMessages
      ensures Valid() && State() == GameLoop.Receive(old(State()), outside)
    {
      ReceiveConnectivity(networkBroker, outside.connectivity);
      ReceiveActions(networkBroker, outside.arrivals);
    }

    method ReceiveConnectivity(networkBroker: NetworkMessageBroker, connectivity: seq<ConnectivityMessage>)
      requires Valid() && networkBroker.messageHub == messageBroker.messageHub
      modifies messageBroker.messageHub`playerConnectivityMessages
      ensures Valid() && World() == old(World())
      ensures messageBroker.messageHub.playerConnectivityMessages
           == old(messageBroker.messageHub.playerConnectivityMessages) + connectivity
    {
      var hub := messageBroker.messageHub;
      var i := 0;
      while i < |connectivity|
        invariant 0 <= i <= |connectivity|
        invariant Valid() && World() == old(World())
        invariant hub.playerConnectivityMessages == old(hub.playerConnectivityMessages) + connectivity[..i]
      {
        networkBroker.PublishPlayerConnectivityMessage(connectivity[i]);
        assert connectivity[..i + 1] == connectivity[..i] + [connectivity[i]];
        i := i + 1;
      }
      assert connectivity[..i] == connectivity;
    }

    method ReceiveActions(networkBroker: NetworkMessageBroker, arrivals: seq<GameLoop.Arrival>)
      requires Valid() && networkBroker.messageHub == messageBroker.messageHub
      modifies messageBroker.messageHub`playerActionMessagesByPlayerId
      ensures Valid() && World() == old(World())
      ensures messageBroker.messageHub.playerActionMessagesByPlayerId
           == GameLoop.Arrive(old(messageBroker.messageHub.playerActionMessagesByPlayerId), arrivals)
    {
      var hub := messageBroker.messageHub;
      ghost var actions := hub.playerActionMessagesByPlayerId;
      assert arrivals[..0] == [];
      assert GameLoop.Arrive(actions, []) == actions;
      hide GameLoop.Arrive;
      var i := 0;
      while i < |arrivals|
        invariant 0 <= i <= |arrivals|
        invariant Valid() && World() == old(World())
        invariant hub.playerActionMessagesByPlayerId == GameLoop.Arrive(actions, arrivals[..i])
      {
        networkBroker.PublishPlayerActionMessage(arrivals[i].id, arrivals[i].action);
        GameLoop.ArriveNext(actions, arrivals, i);
        i := i + 1;
      }
      assert arrivals[..i] == arrivals;
    }

    // One pass through the loop, with what arrived before it.
    method ReceiveThenTurn(networkBroker: NetworkMessageBroker, outside: GameLoop.Outside)
      returns (ghost order: seq<int>)
      requires Valid() && networkBroker.messageHub == messageBroker.messageHub
      modifies roomManager, roomManager.Repr, messageBroker`subscribers
      modifies messageBroker.messageHub`gameplayMessagesByPlayerId, messageBroker.messageHub`published
      modifies messageBroker.messageHub`playerActionMessagesByPlayerId
      modifies messageBroker.messageHub`playerConnectivityMessages
      ensures Valid() && fresh(roomManager.Repr - old(roomManager.Repr))
      ensures GameLoop.InMapOrder(old(State()), outside, order)
      ensures State() == GameLoop.Next(old(State()), outside, order)
    {
      hide Emptied, ProcessConnectivity, Visits, Dispatch.Turn;
      Receive(networkBroker, outside);
      order := Turn(outside.supply, outside.tickOf);
    }

    /** The endless loop, cut after |outside| turns. */
    method Start(networkBroker: NetworkMessageBroker, outside: seq<GameLoop.Outside>)
      returns (ghost orders: seq<seq<int>>)
      requires Valid() && networkBroker.messageHub == messageBroker.messageHub
      modifies roomManager, roomManager.Repr, messageBroker`subscribers
      modifies messageBroker.messageHub`gameplayMessagesByPlayerId, messageBroker.messageHub`published
      modifies messageBroker.messageHub`playerActionMessagesByPlayerId
      modifies messageBroker.messageHub`playerConnectivityMessages
      ensures Valid() && fresh(roomManager.Repr - old(roomManager.Repr))
      ensures |orders| == |outside| && GameLoop.InMapOrders(old(State()), outside, orders)
      ensures State() == GameLoop.After(old(State()), outside, orders)
    {
      hide Valid, State, GameLoop.Next, GameLoop.InMapOrder;
      ghost var start := State();
      orders := [];
      var i := 0;
      while i < |outside|
        invariant 0 <= i <= |outside| && |orders| == i
        invariant Valid() && fresh(roomManager.Repr - old(roomManager.Repr))
        invariant GameLoop.InMapOrders(start, outside[..i], orders)
        invariant State() == GameLoop.After(start, outside[..i], orders)
      {
        ghost var order := ReceiveThenTurn(networkBroker, outside[i]);
        assert outside[..i + 1] == outside[..i] + [outside[i]];
        GameLoop.AfterAppend(start, outside[..i], orders, outside[i], order);
        GameLoop.InMapOrdersAppend(start, outside[..i], orders, outside[i], order);
        orders := orders + [order];
        i := i + 1;
      }
      assert outside[..i] == outside;
    }
  }
}
