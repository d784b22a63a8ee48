/** The vocabulary shared by the gameplay and network sides: assignments, inputs, the
    two message families and the envelopes that carry gameplay messages to players. */
module Messages {

  datatype Option<+T> = None | Some(value: T)

  datatype PlayerAssignment = P1 | P2

  function Other(a: PlayerAssignment): PlayerAssignment {
    if a == P1 then P2 else P1
  }

  datatype GameDifficulty = Easy | Medium | Hard

  // North is the enumerator 0, hence the value of a default-initialised input.
  datatype GameplayInput = North | West | East | South

  datatype PlayerLobbyDTO = PlayerLobbyDTO(nickname: string, assignment: PlayerAssignment, isReady: bool)

  datatype PlayerGameResultDTO =
    PlayerGameResultDTO(assignment: PlayerAssignment, inputPressed: Option<GameplayInput>, timeToPress: Option<int>)

  datatype GameResultDTO = GameResultDTO(
    winningPlayer: Option<PlayerAssignment>,
    player1: PlayerGameResultDTO,
    player2: PlayerGameResultDTO)
  {
    function Of(a: PlayerAssignment): PlayerGameResultDTO {
      if a == P1 then player1 else player2
    }
  }

  // Server to client.
  datatype GameplayMessage =
    | RoomJoined(assignment: PlayerAssignment, otherPlayer: Option<PlayerLobbyDTO>)
    | PlayerJoinedRoom(player: PlayerLobbyDTO)
    | PlayerLeftRoom(leaver: PlayerAssignment)
    | PlayerReadyStateChanged(who: PlayerAssignment, isReady: bool)
    | AllReadyGameStarting
    | GameExpectingInput(expectedInput: GameplayInput)
    | GameOverEarlyInput(result: GameResultDTO)
    | GameOverWrongInput(result: GameResultDTO)
    | GameOverWin(result: GameResultDTO)
    | GameOverDraw(result: GameResultDTO)
    | PlayerReplayReadyStateChanged(who: PlayerAssignment, isReadyToReplay: bool)
    | AllReplayReadyGameStarting
  {
    predicate IsGameOver() {
      GameOverEarlyInput? || GameOverWrongInput? || GameOverWin? || GameOverDraw?
    }

    predicate IsStart() {
      AllReadyGameStarting? || AllReplayReadyGameStarting?
    }
  }

  // Client to server.
  datatype PlayerAction =
    | JoinGame(nickname: string, difficulty: GameDifficulty)
    | SetReadyState(isReady: bool)
    | NotifyCanPlay
    | PlayerInput(inputPressed: GameplayInput, timeToPress: int)
    | SetReplayReadyState(isReadyToReplay: bool)
    | LeaveGame

  datatype ConnectivityMessage = Connect(playerId: int) | Disconnect(playerId: int)

  // Reading an entry of an unordered_map of containers: a missing key reads as empty.
  function Lookup<T>(m: map<int, seq<T>>, id: int): seq<T> {
    if id in m then m[id] else []
  }

  predicate NoDuplicates<T(==)>(s: seq<T>) {
    forall j, k | 0 <= j < k < |s| :: s[j] != s[k]
  }

  lemma TailOfSum<T>(a: seq<T>, b: seq<T>)
    requires a != []
    ensures (a + b)[0] == a[0] && (a + b)[1..] == a[1..] + b
  {
  }

  lemma TailOfCons<T>(x: T, a: seq<T>)
    ensures ([x] + a)[0] == x && ([x] + a)[1..] == a
  {
  }

  lemma SumIsAssociative<T>(a: seq<T>, b: seq<T>, c: seq<T>)
    ensures (a + b) + c == a + (b + c)
  {
  }

  // One call of publishGameplayMessage.
  datatype Envelope = Envelope(to: int, message: GameplayMessage)

  // What one player receives out of a publication log, in order.
  function Inbox(id: int, sent: seq<Envelope>): seq<GameplayMessage> {
    if sent == [] then []
    else (if sent[0].to == id then [sent[0].message] else []) + Inbox(id, sent[1..])
  }

  lemma {:induction false} InboxAppend(id: int, a: seq<Envelope>, b: seq<Envelope>)
    ensures Inbox(id, a + b) == Inbox(id, a) + Inbox(id, b)
  {
    if a == [] {
      assert a + b == b;
    } else {
      var first := if a[0].to == id then [a[0].message] else [];
      TailOfSum(a, b);
      InboxAppend(id, a[1..], b);
      assert Inbox(id, a + b) == first + Inbox(id, a[1..] + b);
      SumIsAssociative(first, Inbox(id, a[1..]), Inbox(id, b));
    }
  }
}
