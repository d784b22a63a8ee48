/** The room and its players as objects updated in place, each method proved against the
    room state machine. */
module RoomClass {
  import opened Messages
  import opened Chrono
  import M = RoomModel
  import opened ManagerModel
  import opened Brokers

  class Player {
    const id: int
    const nickname: string
    const assignment: PlayerAssignment
    var isReady: bool
    var canPlay: bool
    var isReadyToReplay: bool
    var inputPressed: Option<GameplayInput>
    var timeToPress: Option<int>
    var inputPressedAtServerTime: Option<Time>

    ghost function View(): M.PlayerState
      reads this
    {
      M.PlayerState(id, nickname, assignment, isReady, canPlay, isReadyToReplay, inputPressed, timeToPress,
                    inputPressedAtServerTime)
    }

    constructor (id: int, nickname: string, assignment: PlayerAssignment)
      ensures View() == M.NewPlayer(id, nickname, assignment)
    {
      this.id, this.nickname, this.assignment := id, nickname, assignment;
      isReady, canPlay, isReadyToReplay := false, false, false;
      inputPressed, timeToPress, inputPressedAtServerTime := None, None, None;
    }

    method ResetToReplay()
      modifies this
      ensures View() == old(View()).ResetToReplay()
    {
      isReady := true;
      canPlay := false;
      isReadyToReplay := false;
      inputPressed := None;
      timeToPress := None;
    }

    function BuildLobbyDTO(): (dto: PlayerLobbyDTO)
      reads this
      ensures dto == View().LobbyDTO()
    {
      PlayerLobbyDTO(nickname, assignment, isReady)
    }

    function BuildGameoverDTO(): (dto: PlayerGameResultDTO)
      reads this
      ensures dto == View().GameoverDTO()
    {
      PlayerGameResultDTO(assignment, inputPressed, timeToPress)
    }
  }

  function Index(a: PlayerAssignment): nat {
    if a == P1 then 0 else 1
  }

  class Room {
    const key: nat
    const config: M.RoomConfig
    const messageBroker: GameplayMessageBroker
    var gameplayState: M.GameplayState
    const players: array<Player?>
    var expectedInput: GameplayInput
    var everyoneCanPlayAt: Option<Time>
    var readyForInputAt: Option<Time>

    ghost var Repr: set<object>

    ghost function Occupant(i: nat): set<object>
      requires i < players.Length
      reads this, players
    {
      if players[i] == null then {} else {players[i]}
    }

    ghost predicate Shape()
      reads this, players
    {
      && players.Length == 2
      && Repr == {this, players} + Occupant(0) + Occupant(1)
      && (players[0] != null ==> players[0] != players[1])
      && messageBroker !in Repr && messageBroker.messageHub !in Repr
    }

    ghost function SlotView(a: PlayerAssignment): Option<M.PlayerState>
      requires Shape()
      reads this, players, players[..]
    {
      if players[Index(a)] == null then None else Some(players[Index(a)].View())
    }

    ghost function View(): M.RoomState
      requires Shape()
      reads this, players, players[..]
    {
      M.RoomState(config, gameplayState, SlotView(P1), SlotView(P2), expectedInput, everyoneCanPlayAt, readyForInputAt)
    }

    ghost predicate Valid()
      reads this, players, players[..]
    {
      Shape() && M.RoomInv(View())
    }

    // `o` is what became of a room that was `Valid` when the hub's log was `log`.
    ghost predicate Became(o: M.Outcome, log: seq<Envelope>)
      reads this, players, players[..], messageBroker.messageHub
    {
      && Valid()
      && messageBroker.messageHub.Valid()
      && View() == o.room
      && messageBroker.messageHub.published == log + o.sent
    }

    constructor (key: nat, messageBroker: GameplayMessageBroker, config: M.RoomConfig)
      ensures Valid() && fresh(Repr)
      ensures this.key == key && this.messageBroker == messageBroker && View() == M.NewRoom(config)
    {
      this.key, this.messageBroker, this.config := key, messageBroker, config;
      gameplayState := M.WaitingPlayers;
      players := new Player?[2](_ => null);
      expectedInput := North;
      everyoneCanPlayAt, readyForInputAt := None, None;
      new;
      Repr := {this, players};
    }

    // ---------- reads ----------

    predicate IsFull()
      requires Shape()
      reads this, players
    {
      players[0] != null && players[1] != null
    }

    predicate IsEmpty()
      requires Shape()
      reads this, players
    {
      players[0] == null && players[1] == null
    }

    predicate IsEveryoneReady()
      requires Shape()
      reads this, players, players[..]
    {
      IsFull() && players[0].isReady && players[1].isReady
    }

    predicate EveryoneCanPlay()
      requires Shape()
      reads this, players, players[..]
    {
      IsFull() && players[0].canPlay && players[1].canPlay
    }

    predicate EveryonePlayed()
      requires Shape()
      reads this, players, players[..]
    {
      IsFull() && players[0].inputPressed.Some? && players[1].inputPressed.Some?
    }

    predicate NoOnePlayed()
      requires Shape()
      reads this, players, players[..]
    {
      IsFull() && players[0].inputPressed.None? && players[1].inputPressed.None?
    }

    predicate EveryoneWantsToReplay()
      requires Shape()
      reads this, players, players[..]
    {
      IsFull() && players[0].isReadyToReplay && players[1].isReadyToReplay
    }

    predicate HasPlayerWithId(id: int)
      requires Shape()
      reads this, players, players[..]
      ensures HasPlayerWithId(id) <==> View().HasPlayerWithId(id)
    {
      (players[0] != null && players[0].id == id) || (players[1] != null && players[1].id == id)
    }

    function GetPlayerById(id: int): (player: Player?)
      requires Valid()
      reads this, players, players[..]
      ensures player == null <==> View().SlotOf(id).None?
      ensures player != null ==>
                && player == players[Index(player.assignment)]
                && View().SlotOf(id) == Some(player.assignment)
    {
      if players[0] != null && players[0].id == id then players[0]
      else if players[1] != null && players[1].id == id then players[1]
      else null
    }

    function GetAvailableAssignment(): (a: Option<PlayerAssignment>)
      requires Shape()
      reads this, players, players[..]
      ensures a == View().AvailableAssignment()
    {
      if players[0] == null then Some(P1) else if players[1] == null then Some(P2) else None
    }

    function BuildGameResultDTO(winner: Option<PlayerAssignment>): (result: GameResultDTO)
      requires Shape() && IsFull()
      reads this, players, players[..]
      ensures result == M.GameResult(View(), winner)
    {
      GameResultDTO(winner, players[0].BuildGameoverDTO(), players[1].BuildGameoverDTO())
    }

    // ---------- publishing ----------

    method BroadcastGameplayMessage(message: GameplayMessage)
      requires Shape() && messageBroker.messageHub.Valid()
      modifies messageBroker.messageHub`gameplayMessagesByPlayerId, messageBroker.messageHub`published
      ensures messageBroker.messageHub.Valid()
      ensures messageBroker.messageHub.published
           == old(messageBroker.messageHub.published) + M.Broadcast(View(), message)
    {
      if players[0] != null {
        messageBroker.PublishGameplayMessage(players[0].id, message);
      }
      if players[1] != null {
        messageBroker.PublishGameplayMessage(players[1].id, message);
      }
    }

    // ---------- a tick ----------

    method Tick(t: Readings, draw: nat)
      requires Valid() && messageBroker.messageHub.Valid()
      modifies Repr, messageBroker.messageHub`gameplayMessagesByPlayerId, messageBroker.messageHub`published
      ensures Became(M.Tick(old(View()), t, draw), old(messageBroker.messageHub.published))
      ensures Repr == old(Repr)
    {
      match gameplayState {
        case WaitingPlayers => HandleEveryoneReady();
        case Started => TickStarted(t, draw);
        case ExpectingInput => TickExpectingInput(t);
        case Over => HandleReplay();
      }
    }

    // The STARTED case of the tick.
    method TickStarted(t: Readings, draw: nat)
      requires Valid() && messageBroker.messageHub.Valid() && gameplayState == M.Started
      modifies this, messageBroker.messageHub`gameplayMessagesByPlayerId, messageBroker.messageHub`published
      ensures Became(M.Tick(old(View()), t, draw), old(messageBroker.messageHub.published))
      ensures Repr == old(Repr)
    {
      hide M.HandleEveryoneCanPlay, M.HandleOnePlayerPlayed;
      HandleEveryoneCanPlay(t, draw);
      HandleOnePlayerPlayed(t);
    }

    // The EXPECTING_INPUT case of the tick.
    method TickExpectingInput(t: Readings)
      requires Valid() && messageBroker.messageHub.Valid() && gameplayState == M.ExpectingInput
      modifies this, messageBroker.messageHub`gameplayMessagesByPlayerId, messageBroker.messageHub`published
      ensures forall draw :: Became(M.Tick(old(View()), t, draw), old(messageBroker.messageHub.published))
      ensures Repr == old(Repr)
    {
      hide M.HandleOnePlayerPlayed, M.HandleEveryonePlayed, M.HandleTimeout;
      HandleOnePlayerPlayed(t);
      HandleEveryonePlayed();
      HandleTimeout(t);
    }

    method HandleEveryoneReady()
      requires Valid() && messageBroker.messageHub.Valid()
      modifies this, messageBroker.messageHub`gameplayMessagesByPlayerId, messageBroker.messageHub`published
      ensures Became(M.HandleEveryoneReady(old(View())), old(messageBroker.messageHub.published))
      ensures Repr == old(Repr)
    {
      if gameplayState != M.WaitingPlayers || !IsEveryoneReady() {
        return;
      }
      gameplayState := M.Started;
      BroadcastGameplayMessage(AllReadyGameStarting);
    }

    method GetRandomGameplayInput(draw: nat) returns (input: GameplayInput)
      ensures input == M.RandomInput(config.difficulty, draw)
    {
      var inputs := [South, East, West, North];
      match config.difficulty {
        case Easy => input := inputs[0];
        case Medium => input := inputs[draw % 2];
        case Hard => input := inputs[draw % |inputs|];
      }
    }

    method HandleEveryoneCanPlay(t: Readings, draw: nat)
      requires Valid() && messageBroker.messageHub.Valid()
      modifies this, messageBroker.messageHub`gameplayMessagesByPlayerId, messageBroker.messageHub`published
      ensures Became(M.HandleEveryoneCanPlay(old(View()), t, draw), old(messageBroker.messageHub.published))
      ensures Repr == old(Repr)
    {
      if gameplayState != M.Started || !EveryoneCanPlay() {
        return;
      }
      if everyoneCanPlayAt.None? {
        everyoneCanPlayAt := Some(t.canPlayAt);
      }
      if SecondsBetween(everyoneCanPlayAt.value, t.elapsedAt) >= config.secondsBeforeInputRequest {
        gameplayState := M.ExpectingInput;
        readyForInputAt := Some(t.readyAt);
        expectedInput := GetRandomGameplayInput(draw);
        BroadcastGameplayMessage(GameExpectingInput(expectedInput));
      }
    }

    method HandleOnePlayerPlayed(t: Readings)
      requires Valid() && messageBroker.messageHub.Valid()
      modifies this, messageBroker.messageHub`gameplayMessagesByPlayerId, messageBroker.messageHub`published
      ensures Became(M.HandleOnePlayerPlayed(old(View()), t), old(messageBroker.messageHub.published))
      ensures Repr == old(Repr)
    {
      if gameplayState != M.Started && gameplayState != M.ExpectingInput {
        return;
      }
      if EveryonePlayed() || NoOnePlayed() {
        return;
      }
      var whoPlayed := if players[0].inputPressed.Some? then P1 else P2;
      var whoDidNotPlay := if whoPlayed == P1 then P2 else P1;
      var player := players[Index(whoPlayed)];

      // pressed too early
      if gameplayState != M.ExpectingInput {
        gameplayState := M.Over;
        BroadcastGameplayMessage(GameOverEarlyInput(BuildGameResultDTO(Some(whoDidNotPlay))));
        return;
      }
      // pressed the wrong button
      if player.inputPressed.value != expectedInput {
        gameplayState := M.Over;
        BroadcastGameplayMessage(GameOverWrongInput(BuildGameResultDTO(Some(whoDidNotPlay))));
        return;
      }
      // timeout
      var timeSincePlayerPlayed := SecondsBetween(player.inputPressedAtServerTime.value, t.pressAt);
      if timeSincePlayerPlayed >= config.onePlayerInputOnlyTimeout {
        gameplayState := M.Over;
        BroadcastGameplayMessage(GameOverWin(BuildGameResultDTO(Some(whoPlayed))));
      }
    }

    method HandleEveryonePlayed()
      requires Valid() && messageBroker.messageHub.Valid()
      modifies this, messageBroker.messageHub`gameplayMessagesByPlayerId, messageBroker.messageHub`published
      ensures Became(M.HandleEveryonePlayed(old(View())), old(messageBroker.messageHub.published))
      ensures Repr == old(Repr)
    {
      if gameplayState != M.ExpectingInput {
        return;
      }
      if !EveryonePlayed() {
        return;
      }
      gameplayState := M.Over;
      var p1PressedAt := players[0].inputPressedAtServerTime.value;
      var p2PressedAt := players[1].inputPressedAtServerTime.value;
      if p1PressedAt < p2PressedAt {
        BroadcastGameplayMessage(GameOverWin(BuildGameResultDTO(Some(P1))));
      } else if p2PressedAt < p1PressedAt {
        BroadcastGameplayMessage(GameOverWin(BuildGameResultDTO(Some(P2))));
      } else {
        BroadcastGameplayMessage(GameOverDraw(BuildGameResultDTO(None)));
      }
    }

    method HandleTimeout(t: Readings)
      requires Valid() && messageBroker.messageHub.Valid()
      modifies this, messageBroker.messageHub`gameplayMessagesByPlayerId, messageBroker.messageHub`published
      ensures Became(M.HandleTimeout(old(View()), t), old(messageBroker.messageHub.published))
      ensures Repr == old(Repr)
    {
      if gameplayState != M.ExpectingInput {
        return;
      }
      if NoOnePlayed() && SecondsBetween(readyForInputAt.value, t.timeoutAt) >= config.noInputTimeout {
        BroadcastGameplayMessage(GameOverDraw(BuildGameResultDTO(None)));
        gameplayState := M.Over;
      }
    }

    method HandleReplay()
      requires Valid() && messageBroker.messageHub.Valid()
      modifies Repr, messageBroker.messageHub`gameplayMessagesByPlayerId, messageBroker.messageHub`published
      ensures Became(M.HandleReplay(old(View())), old(messageBroker.messageHub.published))
      ensures Repr == old(Repr)
    {
      if gameplayState != M.Over || !EveryoneWantsToReplay() {
        return;
      }
      players[0].ResetToReplay();
      players[1].ResetToReplay();
      expectedInput := North;
      everyoneCanPlayAt := None;
      readyForInputAt := None;
      BroadcastGameplayMessage(AllReplayReadyGameStarting);
      gameplayState := M.Started;
    }

    // ---------- joining and leaving ----------

    method AddPlayer(id: int, nickname: string)
      requires Valid() && messageBroker.messageHub.Valid()
      modifies Repr, messageBroker`subscribers
      modifies messageBroker.messageHub`gameplayMessagesByPlayerId, messageBroker.messageHub`published
      ensures Became(M.AddPlayer(old(View()), id, nickname), old(messageBroker.messageHub.published))
      ensures messageBroker.subscribers ==
              if old(IsFull()) then old(messageBroker.subscribers)
              else Subscribe(old(messageBroker.subscribers), id, ToRoom(key))
      ensures fresh(Repr - old(Repr))
    {
      var playerAssignment := GetAvailableAssignment();
      if playerAssignment.None? {
        return;
      }
      var player := Seat(id, nickname, playerAssignment.value);

      Introduce(player);
      messageBroker.SubscribeToPlayerActionMessages(id, ToRoom(key));
    }

    method Introduce(player: Player)
      requires Valid() && messageBroker.messageHub.Valid() && Seated(player)
      modifies messageBroker.messageHub`gameplayMessagesByPlayerId, messageBroker.messageHub`published
      ensures messageBroker.messageHub.Valid()
      ensures messageBroker.messageHub.published
           == old(messageBroker.messageHub.published) +
              M.Introductions(player.View(), SlotView(Other(player.assignment)))
    {
      var otherAssignment := if player.assignment == P1 then P2 else P1;
      var other := players[Index(otherAssignment)];
      var otherPlayerLobbyDTO := if other != null then Some(other.BuildLobbyDTO()) else None;
      messageBroker.PublishGameplayMessage(player.id, RoomJoined(player.assignment, otherPlayerLobbyDTO));
      if other != null {
        messageBroker.PublishGameplayMessage(other.id, PlayerJoinedRoom(player.BuildLobbyDTO()));
      }
    }

    method Seat(id: int, nickname: string, a: PlayerAssignment) returns (player: Player)
      requires Valid() && players[Index(a)] == null
      modifies this`Repr, players
      ensures Valid() && fresh(player) && Repr == old(Repr) + {player}
      ensures player.assignment == a && Seated(player) && player.View() == M.NewPlayer(id, nickname, a)
      ensures View() == old(View()).WithSlot(a, Some(player.View()))
    {
      player := new Player(id, nickname, a);
      players[Index(a)] := player;
      Repr := Repr + {player};
    }

    method RemovePlayer(id: int)
      requires Valid() && messageBroker.messageHub.Valid()
      modifies Repr, messageBroker`subscribers
      modifies messageBroker.messageHub`gameplayMessagesByPlayerId, messageBroker.messageHub`published
      ensures Became(M.RemovePlayer(old(View()), id), old(messageBroker.messageHub.published))
      ensures messageBroker.subscribers ==
              if old(View()).HasPlayerWithId(id) then Unsubscribe(old(messageBroker.subscribers), id, ToRoom(key))
              else old(messageBroker.subscribers)
      ensures Repr <= old(Repr)
    {
      var player := GetPlayerById(id);
      if player == null {
        return;
      }
      Vacate(player);
      messageBroker.UnsubscribeToPlayerActionMessages(player.id, ToRoom(key));
      BroadcastGameplayMessage(PlayerLeftRoom(player.assignment));
    }

    // Resets the room and empties the player's slot.
    method Vacate(player: Player)
      requires Valid() && Seated(player)
      modifies Repr
      ensures Valid() && Repr <= old(Repr)
      ensures View() == M.Vacated(old(View()), player.assignment)
    {
      if players[0] != null {
        players[0].ResetToReplay();
      }
      if players[1] != null {
        players[1].ResetToReplay();
      }
      expectedInput := North;
      everyoneCanPlayAt := None;
      readyForInputAt := None;

      players[Index(player.assignment)] := null;
      Repr := {this, players} + Occupant(0) + Occupant(1);
      gameplayState := M.WaitingPlayers;
    }

    // ---------- player actions ----------

    method HandlePlayerMessage(playerId: int, message: PlayerAction, at: Time)
      requires Valid() && messageBroker.messageHub.Valid()
      modifies Repr, messageBroker`subscribers
      modifies messageBroker.messageHub`gameplayMessagesByPlayerId, messageBroker.messageHub`published
      ensures Became(M.HandlePlayerMessage(old(View()), playerId, message, at), old(messageBroker.messageHub.published))
      ensures messageBroker.subscribers ==
              if message.LeaveGame? && old(View()).HasPlayerWithId(playerId)
              then Unsubscribe(old(messageBroker.subscribers), playerId, ToRoom(key))
              else old(messageBroker.subscribers)
      ensures Repr <= old(Repr)
    {
      var player := GetPlayerById(playerId);
      if player == null {
        return;
      }
      match message {
        case SetReadyState(isReady) => HandlePlayerSetReadyStateMessage(player, isReady);
        case NotifyCanPlay => HandlePlayerNotifyCanPlayMessage(player);
        case PlayerInput(inputPressed, timeToPress) => HandlePlayerInputMessage(player, inputPressed, timeToPress, at);
        case SetReplayReadyState(isReadyToReplay) => HandlePlayerSetReplayReadyStateMessage(player, isReadyToReplay);
        case LeaveGame => RemovePlayer(player.id);
        case JoinGame(_, _) =>
      }
    }

    // `player` sits in its slot.
    ghost predicate Seated(player: Player)
      requires Shape()
      reads this, players
    {
      player == players[Index(player.assignment)]
    }

    method HandlePlayerSetReadyStateMessage(player: Player, isReady: bool)
      requires Valid() && messageBroker.messageHub.Valid() && Seated(player)
      modifies player
      modifies messageBroker.messageHub`gameplayMessagesByPlayerId, messageBroker.messageHub`published
      ensures Became(M.HandleSetReadyState(old(View()), player.assignment, isReady),
                     old(messageBroker.messageHub.published))
    {
      if gameplayState != M.WaitingPlayers {
        return;
      }
      player.isReady := isReady;
      BroadcastGameplayMessage(PlayerReadyStateChanged(player.assignment, player.isReady));
    }

    method HandlePlayerNotifyCanPlayMessage(player: Player)
      requires Valid() && messageBroker.messageHub.Valid() && Seated(player)
      modifies player
      ensures Became(M.HandleNotifyCanPlay(old(View()), player.assignment), old(messageBroker.messageHub.published))
    {
      player.canPlay := true;
    }

    method HandlePlayerInputMessage(player: Player, inputPressed: GameplayInput, timeToPress: int, at: Time)
      requires Valid() && messageBroker.messageHub.Valid() && Seated(player)
      modifies player
      ensures Became(M.HandleInput(old(View()), player.assignment, inputPressed, timeToPress, at),
                     old(messageBroker.messageHub.published))
    {
      player.inputPressed := Some(inputPressed);
      player.timeToPress := Some(timeToPress);
      player.inputPressedAtServerTime := Some(at);
    }

    method HandlePlayerSetReplayReadyStateMessage(player: Player, isReadyToReplay: bool)
      requires Valid() && messageBroker.messageHub.Valid() && Seated(player)
      modifies player
      modifies messageBroker.messageHub`gameplayMessagesByPlayerId, messageBroker.messageHub`published
      ensures Became(M.HandleSetReplayReadyState(old(View()), player.assignment, isReadyToReplay),
                     old(messageBroker.messageHub.published))
    {
      player.isReadyToReplay := isReadyToReplay;
      BroadcastGameplayMessage(PlayerReplayReadyStateChanged(player.assignment, player.isReadyToReplay));
    }
  }
}
