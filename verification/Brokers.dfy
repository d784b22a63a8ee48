/** The shared hub and the two brokers around it. */
module Brokers {
  import opened Messages
  import opened ManagerModel
  import opened Dispatch

  /** Toward every player: published = consumed ++ queue. */
  ghost predicate Ledger(published: seq<Envelope>, consumed: map<int, seq<GameplayMessage>>,
                         queues: map<int, seq<GameplayMessage>>)
  {
    forall id :: Inbox(id, published) == Lookup(consumed, id) + Lookup(queues, id)
  }

  lemma PushKeepsLedger(published: seq<Envelope>, consumed: map<int, seq<GameplayMessage>>,
                        queues: map<int, seq<GameplayMessage>>, to: int, m: GameplayMessage)
    requires Ledger(published, consumed, queues)
    ensures Ledger(published + [Envelope(to, m)], consumed, queues[to := Lookup(queues, to) + [m]])
  {
    forall id
      ensures Inbox(id, published + [Envelope(to, m)])
           == Lookup(consumed, id) + Lookup(queues[to := Lookup(queues, to) + [m]], id)
    {
      var now := [Envelope(to, m)];
      InboxAppend(id, published, now);
      assert now[1..] == [];
      assert Inbox(id, now) == if id == to then [m] else [];
      assert Lookup(consumed, id) + (Lookup(queues, id) + [m]) == (Lookup(consumed, id) + Lookup(queues, id)) + [m];
    }
  }

  lemma PopKeepsLedger(published: seq<Envelope>, consumed: map<int, seq<GameplayMessage>>,
                       queues: map<int, seq<GameplayMessage>>, id: int)
    requires Ledger(published, consumed, queues) && Lookup(queues, id) != []
    ensures Ledger(published, consumed[id := Lookup(consumed, id) + [Lookup(queues, id)[0]]],
                   queues[id := Lookup(queues, id)[1..]])
  {
    var queue := Lookup(queues, id);
    assert queue == [queue[0]] + queue[1..];
    assert Lookup(consumed, id) + ([queue[0]] + queue[1..]) == (Lookup(consumed, id) + [queue[0]]) + queue[1..];
  }

  class MessageHub {
    var playerActionMessagesByPlayerId: map<int, seq<PlayerAction>>
    var gameplayMessagesByPlayerId: map<int, seq<GameplayMessage>>
    var playerConnectivityMessages: seq<ConnectivityMessage>

    // All gameplay messages ever published, and those handed to each client's callback.
    ghost var published: seq<Envelope>
    ghost var consumed: map<int, seq<GameplayMessage>>

    ghost predicate Valid()
      reads this
    {
      Ledger(published, consumed, gameplayMessagesByPlayerId)
    }

    constructor ()
      ensures Valid()
      ensures playerActionMessagesByPlayerId == map[] && gameplayMessagesByPlayerId == map[]
      ensures playerConnectivityMessages == [] && published == [] && consumed == map[]
    {
      playerActionMessagesByPlayerId, gameplayMessagesByPlayerId := map[], map[];
      playerConnectivityMessages := [];
      published, consumed := [], map[];
    }
  }

  class GameplayMessageBroker {
    const messageHub: MessageHub
    var subscribers: SubscriberLists

    constructor (messageHub: MessageHub)
      ensures this.messageHub == messageHub && subscribers == map[]
    {
      this.messageHub := messageHub;
      subscribers := map[];
    }

    method PublishGameplayMessage(playerId: int, message: GameplayMessage)
      requires messageHub.Valid()
      modifies messageHub`gameplayMessagesByPlayerId, messageHub`published
      ensures messageHub.Valid()
      ensures messageHub.published == old(messageHub.published) + [Envelope(playerId, message)]
    {
      var queue := Lookup(messageHub.gameplayMessagesByPlayerId, playerId);
      PushKeepsLedger(messageHub.published, messageHub.consumed, messageHub.gameplayMessagesByPlayerId,
                      playerId, message);
      messageHub.gameplayMessagesByPlayerId :=
        messageHub.gameplayMessagesByPlayerId[playerId := queue + [message]];
      messageHub.published := messageHub.published + [Envelope(playerId, message)];
    }

    method SubscribeToPlayerActionMessages(playerId: int, context: Subscriber)
      modifies this`subscribers
      ensures subscribers == Subscribe(old(subscribers), playerId, context)
    {
      subscribers := subscribers[playerId := Lookup(subscribers, playerId) + [context]];
    }

    // The erase loop of unsubscribeToPlayerActionMessages.
    static method EraseContext(list: seq<Subscriber>, context: Subscriber) returns (kept: seq<Subscriber>)
      ensures kept == Without(list, context)
      ensures context !in kept && multiset(kept) == multiset(list)[context := 0]
    {
      kept := list;
      var it := 0;
      while it < |kept|
        invariant 0 <= it <= |kept|
        invariant kept[..it] + Without(kept[it..], context) == Without(list, context)
        decreases |kept| - it
      {
        WithoutNext(kept, it, context);
        if kept[it] == context {
          kept := kept[..it] + kept[it + 1..];
        } else {
          it := it + 1;
        }
      }
      assert kept[it..] == [] && kept[..it] == kept;
      WithoutRemovesAll(list, context);
      WithoutKeepsTheRest(list, context);
    }

    // Both branches of the erase loop.
    static lemma WithoutNext(kept: seq<Subscriber>, it: nat, context: Subscriber)
      requires it < |kept|
      ensures kept[it] == context ==>
                var erased := kept[..it] + kept[it + 1..];
                erased[..it] == kept[..it] && Without(erased[it..], context) == Without(kept[it..], context)
      ensures kept[it] != context ==>
                kept[..it + 1] + Without(kept[it + 1..], context) == kept[..it] + Without(kept[it..], context)
    {
      assert kept[it..][0] == kept[it] && kept[it..][1..] == kept[it + 1..];
      var erased := kept[..it] + kept[it + 1..];
      assert erased[it..] == kept[it + 1..] && erased[..it] == kept[..it];
      assert kept[..it + 1] == kept[..it] + [kept[it]];
      assert kept[it] != context ==> Without(kept[it..], context) == [kept[it]] + Without(kept[it + 1..], context);
      assert kept[it] == context ==> Without(kept[it..], context) == Without(kept[it + 1..], context);
    }

    // As written: the filtered list is a local copy and is dropped.
    method UnsubscribeToPlayerActionMessages(playerId: int, context: Subscriber)
      modifies this`subscribers
      ensures subscribers == Unsubscribe(old(subscribers), playerId, context)
    {
      var callbacksWithContext := Lookup(subscribers, playerId);
      subscribers := subscribers[playerId := callbacksWithContext];
      callbacksWithContext := EraseContext(callbacksWithContext, context);
    }
  }

  // The iteration order of an unordered_map is unspecified.
  method PickPlayer(ids: set<int>) returns (id: int)
    requires ids != {}
    ensures id in ids
  {
    if forall x :: x !in ids {
      assert false;
    }
    id :| id in ids;
  }

  class NetworkMessageBroker {
    const messageHub: MessageHub
    var listening: set<int>   // the players with a callback

    constructor (messageHub: MessageHub)
      ensures this.messageHub == messageHub && listening == {}
    {
      this.messageHub := messageHub;
      listening := {};
    }

    method PublishPlayerConnectivityMessage(message: ConnectivityMessage)
      modifies messageHub`playerConnectivityMessages
      ensures messageHub.playerConnectivityMessages == old(messageHub.playerConnectivityMessages) + [message]
    {
      messageHub.playerConnectivityMessages := messageHub.playerConnectivityMessages + [message];
    }

    method PublishPlayerActionMessage(playerId: int, message: PlayerAction)
      modifies messageHub`playerActionMessagesByPlayerId
      ensures messageHub.playerActionMessagesByPlayerId
           == old(messageHub.playerActionMessagesByPlayerId)[
                playerId := Lookup(old(messageHub.playerActionMessagesByPlayerId), playerId) + [message]]
      ensures forall id :: Lookup(messageHub.playerActionMessagesByPlayerId, id)
                        == Lookup(old(messageHub.playerActionMessagesByPlayerId), id) +
                           if id == playerId then [message] else []
    {
      var queue := Lookup(messageHub.playerActionMessagesByPlayerId, playerId);
      messageHub.playerActionMessagesByPlayerId :=
        messageHub.playerActionMessagesByPlayerId[playerId := queue + [message]];
    }

    method SubscribeToGameplayMessagesForPlayer(playerId: int)
      modifies this`listening
      ensures listening == old(listening) + {playerId}
    {
      listening := listening + {playerId};
    }

    method UnsubscribeToGameplayMessagesForPlayer(playerId: int)
      modifies this`listening
      ensures listening == old(listening) - {playerId}
    {
      listening := listening - {playerId};
    }

    // Nothing changed for the players outside `ids`.
    twostate predicate KeptOutside(ids: set<int>)
      reads messageHub
    {
      forall id | id !in ids ::
        && Lookup(messageHub.gameplayMessagesByPlayerId, id) == Lookup(old(messageHub.gameplayMessagesByPlayerId), id)
        && Lookup(messageHub.consumed, id) == Lookup(old(messageHub.consumed), id)
    }

    // Nothing is pending for the players in `ids`.
    ghost predicate NothingPending(ids: set<int>)
      reads messageHub
    {
      forall id | id in ids :: Lookup(messageHub.gameplayMessagesByPlayerId, id) == []
    }

    /** Every listening client has then been handed all that was ever published to it, in
        order; the others keep what is pending. */
    method DispatchMessages()
      requires messageHub.Valid()
      modifies messageHub`gameplayMessagesByPlayerId, messageHub`consumed
      ensures messageHub.Valid() && NothingPending(listening) && KeptOutside(listening)
      ensures forall id | id in listening :: Lookup(messageHub.consumed, id) == Inbox(id, messageHub.published)
    {
      var toVisit := listening;
      while toVisit != {}
        invariant messageHub.Valid() && toVisit <= listening
        invariant NothingPending(listening - toVisit) && KeptOutside(listening)
        decreases toVisit
      {
        var playerId := PickPlayer(toVisit);
        DrainPlayer(playerId);
        toVisit := toVisit - {playerId};
      }
      assert listening - toVisit == listening;
    }

    method DrainPlayer(playerId: int)
      requires messageHub.Valid()
      modifies messageHub`gameplayMessagesByPlayerId, messageHub`consumed
      ensures messageHub.Valid() && KeptOutside({playerId}) && NothingPending({playerId})
    {
      while Lookup(messageHub.gameplayMessagesByPlayerId, playerId) != []
        invariant messageHub.Valid() && KeptOutside({playerId})
        decreases |Lookup(messageHub.gameplayMessagesByPlayerId, playerId)|
      {
        PassFront(playerId);
      }
    }

    // The callback gets the front of the queue, which is then popped.
    method PassFront(playerId: int)
      requires messageHub.Valid() && Lookup(messageHub.gameplayMessagesByPlayerId, playerId) != []
      modifies messageHub`gameplayMessagesByPlayerId, messageHub`consumed
      ensures messageHub.Valid() && KeptOutside({playerId})
      ensures Lookup(messageHub.gameplayMessagesByPlayerId, playerId)
           == Lookup(old(messageHub.gameplayMessagesByPlayerId), playerId)[1..]
    {
      var queue := Lookup(messageHub.gameplayMessagesByPlayerId, playerId);
      PopKeepsLedger(messageHub.published, messageHub.consumed, messageHub.gameplayMessagesByPlayerId, playerId);
      messageHub.consumed := messageHub.consumed[playerId := Lookup(messageHub.consumed, playerId) + [queue[0]]];
      messageHub.gameplayMessagesByPlayerId := messageHub.gameplayMessagesByPlayerId[playerId := queue[1..]];
    }
  }
}
