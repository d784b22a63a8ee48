/** The room manager as an object: a list of rooms searched in order, extended and erased
    from, proved against the manager of the state machine. */
module RoomManagerClass {
  import opened Messages
  import opened Chrono
  import M = RoomModel
  import opened ManagerModel
  import opened Brokers
  import opened RoomClass

  class RoomManager {
    const messageBroker: GameplayMessageBroker
    var rooms: seq<Room>
    var nextKey: nat   // the address of the next room

    ghost var entries: seq<RoomEntry>   // the rooms' states
    ghost var Repr: set<object>         // the rooms' objects

    // A room of ours in a good state.
    ghost predicate Good(room: Room)
      reads room, room.players, room.players[..]
    {
      room.Valid() && room.messageBroker == messageBroker && this !in room.Repr
    }

    ghost predicate Recorded(room: Room, entry: RoomEntry)
      reads room, room.players, room.players[..]
    {
      Good(room) && entry == RoomEntry(room.key, room.View())
    }

    static ghost predicate Within(room: Room, repr: set<object>)
      reads room
    {
      room in repr && room.players in repr && room.Repr <= repr
    }

    ghost predicate Consistent(rooms: seq<Room>, entries: seq<RoomEntry>, repr: set<object>)
      reads repr
    {
      && |entries| == |rooms|
      && (forall i | 0 <= i < |rooms| :: rooms[i] in repr && Within(rooms[i], repr) && rooms[i].Shape())
      && (forall i | 0 <= i < |rooms| :: Recorded(rooms[i], entries[i]))
      && (forall i, j | 0 <= i < j < |rooms| :: rooms[i].Repr !! rooms[j].Repr)
    }

    ghost predicate Valid()
      reads this, Repr
    {
      && this !in Repr && messageBroker !in Repr && messageBroker.messageHub !in Repr
      && Consistent(rooms, entries, Repr)
    }

    lemma ConsistentAppend(rooms: seq<Room>, entries: seq<RoomEntry>, repr: set<object>, room: Room)
      requires Consistent(rooms, entries, repr) && Good(room) && Within(room, room.Repr) && room.Repr !! repr
      ensures Consistent(rooms + [room], entries + [RoomEntry(room.key, room.View())], repr + room.Repr)
    {
    }

    lemma ConsistentErase(rooms: seq<Room>, entries: seq<RoomEntry>, repr: set<object>, i: nat)
      requires Consistent(rooms, entries, repr) && i < |rooms|
      ensures Consistent(rooms[..i] + rooms[i + 1..], Erase(entries, i), repr)
    {
      var kept, left := rooms[..i] + rooms[i + 1..], Erase(entries, i);
      assert forall j | 0 <= j < |kept| ::
          kept[j] == rooms[if j < i then j else j + 1] && left[j] == entries[if j < i then j else j + 1];
    }

    ghost function World(): World
      reads this, messageBroker, messageBroker.messageHub
    {
      ManagerModel.World(entries, nextKey, messageBroker.subscribers, messageBroker.messageHub.published)
    }

    constructor (messageBroker: GameplayMessageBroker)
      ensures Valid() && fresh(Repr) && this.messageBroker == messageBroker
      ensures entries == [] && nextKey == 0
    {
      this.messageBroker := messageBroker;
      rooms, nextKey, entries := [], 0, [];
      Repr := {};
    }

    // ---------- searching ----------

    method FindRoomWithSpace(difficulty: GameDifficulty) returns (i: nat)
      requires Valid()
      ensures i == FirstWithSpace(entries, difficulty)
    {
      i := 0;
      while i < |rooms| && !(rooms[i].IsFull() == false && rooms[i].config.difficulty == difficulty)
        invariant 0 <= i <= |rooms|
        invariant i + FirstWithSpace(entries[i..], difficulty) == FirstWithSpace(entries, difficulty)
      {
        assert entries[i..][1..] == entries[i + 1..];
        i := i + 1;
      }
    }

    method FindRoomOfPlayer(playerId: int) returns (i: nat)
      requires Valid()
      ensures i == FirstWithPlayer(entries, playerId)
    {
      i := 0;
      while i < |rooms| && !rooms[i].HasPlayerWithId(playerId)
        invariant 0 <= i <= |rooms|
        invariant i + FirstWithPlayer(entries[i..], playerId) == FirstWithPlayer(entries, playerId)
      {
        assert entries[i..][1..] == entries[i + 1..];
        i := i + 1;
      }
    }

    // Finding the room a callback belongs to.
    method FindRoomByKey(key: nat) returns (i: nat)
      requires Valid()
      ensures i == FirstWithKey(entries, key)
    {
      i := 0;
      while i < |rooms| && rooms[i].key != key
        invariant 0 <= i <= |rooms|
        invariant i + FirstWithKey(entries[i..], key) == FirstWithKey(entries, key)
      {
        assert entries[i..][1..] == entries[i + 1..];
        i := i + 1;
      }
    }

    // ---------- one room moves ----------

    // If only the objects of room `i` moved, and none was taken from elsewhere, recording its
    // new state makes everything consistent again.
    twostate lemma MovedConsistently(i: nat)
      requires old(Valid()) && unchanged(this) && i < |rooms|
      requires Good(rooms[i])
      requires forall x | x in rooms[i].Repr :: x in old(rooms[i].Repr) || !old(allocated(x))
      requires forall x | x in old(Repr) && x !in old(rooms[i].Repr) :: unchanged(x)
      ensures Consistent(rooms, entries[i := RoomEntry(rooms[i].key, rooms[i].View())], Repr + rooms[i].Repr)
    {
      forall j | 0 <= j < |rooms| && j != i
        ensures unchanged(rooms[j]) && unchanged(rooms[j].players)
        ensures Recorded(rooms[j], entries[j]) && rooms[j].Repr !! rooms[i].Repr
      {
        assert old(rooms[j].Repr) !! old(rooms[i].Repr);
      }
    }

    // Brings the ghost state up to date.
    ghost method Record(i: nat)
      requires i < |entries| && i < |rooms| && Good(rooms[i])
      requires this !in Repr && messageBroker !in Repr && messageBroker.messageHub !in Repr
      requires Consistent(rooms, entries[i := RoomEntry(rooms[i].key, rooms[i].View())], Repr + rooms[i].Repr)
      modifies this`entries, this`Repr
      ensures Valid()
      ensures entries == old(entries)[i := RoomEntry(rooms[i].key, rooms[i].View())]
      ensures Repr == old(Repr) + rooms[i].Repr
    {
      entries := entries[i := RoomEntry(rooms[i].key, rooms[i].View())];
      Repr := Repr + rooms[i].Repr;
    }

    method TickRoom(i: nat, input: TickInput)
      requires Valid() && messageBroker.messageHub.Valid() && i < |rooms|
      modifies this, Repr, messageBroker.messageHub`gameplayMessagesByPlayerId, messageBroker.messageHub`published
      ensures Valid() && messageBroker.messageHub.Valid()
      ensures World() == StepRoom(old(World()), i, M.TickEvent(input.t, input.draw))
      ensures rooms == old(rooms) && Repr == old(Repr)
    {
      rooms[i].Tick(input.t, input.draw);
      MovedConsistently(i);
      Record(i);
    }

    method MessageRoom(i: nat, playerId: int, message: PlayerAction, at: Time)
      requires Valid() && messageBroker.messageHub.Valid() && i < |rooms|
      modifies this, Repr, messageBroker`subscribers
      modifies messageBroker.messageHub`gameplayMessagesByPlayerId, messageBroker.messageHub`published
      ensures Valid() && messageBroker.messageHub.Valid() && Repr == old(Repr)
      ensures var entry := old(entries)[i];
              var o := M.HandlePlayerMessage(entry.room, playerId, message, at);
              && entries == old(entries)[i := RoomEntry(entry.key, o.room)]
              && messageBroker.messageHub.published == old(messageBroker.messageHub.published) + o.sent
              && messageBroker.subscribers ==
                 if message.LeaveGame? && entry.room.HasPlayerWithId(playerId)
                 then Unsubscribe(old(messageBroker.subscribers), playerId, ToRoom(entry.key))
                 else old(messageBroker.subscribers)
      ensures nextKey == old(nextKey)
    {
      rooms[i].HandlePlayerMessage(playerId, message, at);
      MovedConsistently(i);
      Record(i);
    }

    method AddToRoom(i: nat, playerId: int, nickname: string)
      requires Valid() && messageBroker.messageHub.Valid() && i < |rooms| && !rooms[i].IsFull()
      modifies this, Repr, messageBroker`subscribers
      modifies messageBroker.messageHub`gameplayMessagesByPlayerId, messageBroker.messageHub`published
      ensures Valid() && messageBroker.messageHub.Valid() && fresh(Repr - old(Repr))
      ensures World() == JoinAt(old(World()), i, playerId, nickname)
    {
      rooms[i].AddPlayer(playerId, nickname);
      MovedConsistently(i);
      Record(i);
    }

    method RemoveFromRoom(i: nat, playerId: int)
      requires Valid() && messageBroker.messageHub.Valid() && i < |rooms| && rooms[i].HasPlayerWithId(playerId)
      modifies this, Repr, messageBroker`subscribers
      modifies messageBroker.messageHub`gameplayMessagesByPlayerId, messageBroker.messageHub`published
      ensures Valid() && messageBroker.messageHub.Valid() && Repr == old(Repr) && rooms == old(rooms)
      ensures World() == LeaveAt(old(World()), i, playerId)
    {
      rooms[i].RemovePlayer(playerId);
      MovedConsistently(i);
      Record(i);
    }

    // ---------- the manager's operations ----------

    method AppendNewRoom(difficulty: GameDifficulty, countdown: int)
      requires Valid()
      modifies this
      ensures Valid() && fresh(Repr - old(Repr)) && |rooms| == |old(rooms)| + 1
      ensures nextKey == old(nextKey) + 1
      ensures entries == old(entries) +
                [RoomEntry(old(nextKey), M.NewRoom(M.RoomConfig(difficulty, countdown, 5, 1)))]
    {
      var room := new Room(nextKey, messageBroker, M.RoomConfig(difficulty, countdown, 5, 1));
      ConsistentAppend(rooms, entries, Repr, room);
      rooms := rooms + [room];
      entries := entries + [RoomEntry(room.key, room.View())];
      Repr := Repr + room.Repr;
      nextKey := nextKey + 1;
    }

    method EraseIfEmpty(i: nat)
      requires Valid() && i < |rooms|
      modifies this`rooms, this`entries
      ensures Valid()
      ensures entries == if old(entries)[i].room.IsEmpty() then Erase(old(entries), i) else old(entries)
    {
      if rooms[i].IsEmpty() {
        ConsistentErase(rooms, entries, Repr, i);
        rooms := rooms[..i] + rooms[i + 1..];
        entries := Erase(entries, i);
      }
    }

    method AddPlayerToRoom(playerId: int, nickname: string, difficulty: GameDifficulty, countdown: int)
      requires Valid() && messageBroker.messageHub.Valid()
      modifies this, Repr, messageBroker`subscribers
      modifies messageBroker.messageHub`gameplayMessagesByPlayerId, messageBroker.messageHub`published
      ensures Valid() && messageBroker.messageHub.Valid() && fresh(Repr - old(Repr))
      ensures World() == ManagerModel.AddPlayerToRoom(old(World()), playerId, nickname, difficulty, countdown)
    {
      var room := FindRoomWithSpace(difficulty);
      if room == |rooms| {
        AppendNewRoom(difficulty, countdown);
      }
      AddToRoom(room, playerId, nickname);
    }

    method RemovePlayerFromRoom(playerId: int)
      requires Valid() && messageBroker.messageHub.Valid()
      modifies this, Repr, messageBroker`subscribers
      modifies messageBroker.messageHub`gameplayMessagesByPlayerId, messageBroker.messageHub`published
      ensures Valid() && messageBroker.messageHub.Valid() && Repr == old(Repr)
      ensures World() == ManagerModel.RemovePlayerFromRoom(old(World()), playerId)
    {
      var roomPlayerIsIn := FindRoomOfPlayer(playerId);
      if roomPlayerIsIn < |rooms| {
        RemoveFromRoom(roomPlayerIsIn, playerId);
        EraseIfEmpty(roomPlayerIsIn);
      }
    }

    method TickAllRooms(ticks: seq<TickInput>)
      requires Valid() && messageBroker.messageHub.Valid() && |ticks| == |rooms|
      modifies this, Repr, messageBroker.messageHub`gameplayMessagesByPlayerId, messageBroker.messageHub`published
      ensures Valid() && messageBroker.messageHub.Valid() && Repr == old(Repr)
      ensures World() == TickFrom(old(World()), 0, ticks)
    {
      ghost var w := World();
      ghost var all := TickFrom(w, 0, ticks);
      var i := 0;
      while i < |rooms|
        invariant 0 <= i <= |rooms| == |ticks|
        invariant Valid() && messageBroker.messageHub.Valid() && rooms == old(rooms) && Repr == old(Repr)
        invariant World() == w && RoomsOk(w.rooms) && TickFrom(w, i, ticks) == all
      {
        TickFromNext(w, i, ticks);
        TickRoom(i, ticks[i]);
        w := StepRoom(w, i, M.TickEvent(ticks[i].t, ticks[i].draw));
        i := i + 1;
      }
    }

    method HandlePlayerMessage(playerId: int, message: PlayerAction, countdown: int)
      requires Valid() && messageBroker.messageHub.Valid()
      modifies this, Repr, messageBroker`subscribers
      modifies messageBroker.messageHub`gameplayMessagesByPlayerId, messageBroker.messageHub`published
      ensures Valid() && messageBroker.messageHub.Valid() && fresh(Repr - old(Repr))
      ensures forall at :: World() == Deliver(old(World()), playerId, ToGameplay, message, Chance(at, countdown))
    {
      match message {
        case JoinGame(nickname, difficulty) => AddPlayerToRoom(playerId, nickname, difficulty, countdown);
        case LeaveGame => RemovePlayerFromRoom(playerId);
        case _ =>
      }
    }
  }
}
