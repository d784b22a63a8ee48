/** The room state machine as a function of its state, the event and the clock readings. */
module RoomModel {
  import opened Messages
  import opened Chrono

  datatype RoomConfig = RoomConfig(
    difficulty: GameDifficulty,
    secondsBeforeInputRequest: int,
    noInputTimeout: int,
    onePlayerInputOnlyTimeout: int)

  datatype GameplayState = WaitingPlayers | Started | ExpectingInput | Over

  datatype PlayerState = PlayerState(
    id: int,
    nickname: string,
    assignment: PlayerAssignment,
    isReady: bool,
    canPlay: bool,
    isReadyToReplay: bool,
    inputPressed: Option<GameplayInput>,
    timeToPress: Option<int>,
    inputPressedAtServerTime: Option<Time>)
  {
    // inputPressedAtServerTime is not reset.
    function ResetToReplay(): PlayerState {
      this.(isReady := true, canPlay := false, isReadyToReplay := false, inputPressed := None, timeToPress := None)
    }

    function LobbyDTO(): PlayerLobbyDTO {
      PlayerLobbyDTO(nickname, assignment, isReady)
    }

    function GameoverDTO(): PlayerGameResultDTO {
      PlayerGameResultDTO(assignment, inputPressed, timeToPress)
    }
  }

  function NewPlayer(id: int, nickname: string, a: PlayerAssignment): PlayerState {
    PlayerState(id, nickname, a, false, false, false, None, None, None)
  }

  datatype RoomState = RoomState(
    config: RoomConfig,
    phase: GameplayState,
    p1: Option<PlayerState>,
    p2: Option<PlayerState>,
    expectedInput: GameplayInput,
    everyoneCanPlayAt: Option<Time>,
    readyForInputAt: Option<Time>)
  {
    function Slot(a: PlayerAssignment): Option<PlayerState> {
      if a == P1 then p1 else p2
    }

    function WithSlot(a: PlayerAssignment, p: Option<PlayerState>): RoomState {
      if a == P1 then this.(p1 := p) else this.(p2 := p)
    }

    predicate IsFull() { p1.Some? && p2.Some? }
    predicate IsEmpty() { p1.None? && p2.None? }
    predicate IsEveryoneReady() { IsFull() && p1.value.isReady && p2.value.isReady }
    predicate EveryoneCanPlay() { IsFull() && p1.value.canPlay && p2.value.canPlay }
    predicate EveryonePlayed() { IsFull() && p1.value.inputPressed.Some? && p2.value.inputPressed.Some? }
    predicate NoOnePlayed() { IsFull() && p1.value.inputPressed.None? && p2.value.inputPressed.None? }
    predicate EveryoneWantsToReplay() { IsFull() && p1.value.isReadyToReplay && p2.value.isReadyToReplay }

    predicate HasPlayerWithId(id: int) {
      (p1.Some? && p1.value.id == id) || (p2.Some? && p2.value.id == id)
    }

    // The slot getPlayerById points into; P1 is looked at first.
    function SlotOf(id: int): Option<PlayerAssignment> {
      if p1.Some? && p1.value.id == id then Some(P1)
      else if p2.Some? && p2.value.id == id then Some(P2)
      else None
    }

    function AvailableAssignment(): Option<PlayerAssignment> {
      if p1.None? then Some(P1) else if p2.None? then Some(P2) else None
    }
  }

  function NewRoom(config: RoomConfig): RoomState {
    RoomState(config, WaitingPlayers, None, None, North, None, None)
  }

  /** What every reachable room satisfies. It is exactly what the unchecked reads of
      optionals rely on; distinct ids are a separate matter (see DistinctIds). */
  predicate SlotInv(p: Option<PlayerState>, a: PlayerAssignment) {
    p.Some? ==>
      && p.value.assignment == a
      && (p.value.inputPressed.Some? <==> p.value.timeToPress.Some?)
      && (p.value.inputPressed.Some? ==> p.value.inputPressedAtServerTime.Some?)
  }

  predicate RoomInv(r: RoomState) {
    && SlotInv(r.p1, P1)
    && SlotInv(r.p2, P2)
    && (r.phase != WaitingPlayers ==> r.IsFull())
    && (r.phase == WaitingPlayers ==> r.everyoneCanPlayAt.None?)
    && (r.phase == WaitingPlayers || r.phase == Started ==> r.readyForInputAt.None? && r.expectedInput == North)
    && (r.phase == ExpectingInput ==> r.everyoneCanPlayAt.Some? && r.readyForInputAt.Some?)
  }

  predicate DistinctIds(r: RoomState) {
    r.IsFull() ==> r.p1.value.id != r.p2.value.id
  }

  // A step's new state and what it published, in publication order.
  datatype Outcome = Outcome(room: RoomState, sent: seq<Envelope>)

  function Broadcast(r: RoomState, m: GameplayMessage): seq<Envelope> {
    (if r.p1.Some? then [Envelope(r.p1.value.id, m)] else []) +
    (if r.p2.Some? then [Envelope(r.p2.value.id, m)] else [])
  }

  // Change the state, then broadcast in the new state.
  function Announce(r: RoomState, m: GameplayMessage): Outcome {
    Outcome(r, Broadcast(r, m))
  }

  function GameResult(r: RoomState, winner: Option<PlayerAssignment>): GameResultDTO
    requires r.IsFull()
  {
    GameResultDTO(winner, r.p1.value.GameoverDTO(), r.p2.value.GameoverDTO())
  }

  // `draw` stands for the raw output of the random engine.
  function RandomInput(d: GameDifficulty, draw: nat): GameplayInput {
    var inputs := [South, East, West, North];
    match d
    case Easy => inputs[0]
    case Medium => inputs[draw % 2]
    case Hard => inputs[draw % 4]
  }

  // ---------- the handlers of a tick ----------

  function HandleEveryoneReady(r: RoomState): (o: Outcome)
    requires RoomInv(r)
    ensures RoomInv(o.room)
  {
    if r.phase != WaitingPlayers || !r.IsEveryoneReady() then Outcome(r, [])
    else Announce(r.(phase := Started), AllReadyGameStarting)
  }

  function HandleEveryoneCanPlay(r: RoomState, t: Readings, draw: nat): (o: Outcome)
    requires RoomInv(r)
    ensures RoomInv(o.room)
  {
    if r.phase != Started || !r.EveryoneCanPlay() then Outcome(r, [])
    else
      var s := if r.everyoneCanPlayAt.None? then r.(everyoneCanPlayAt := Some(t.canPlayAt)) else r;
      if SecondsBetween(s.everyoneCanPlayAt.value, t.elapsedAt) >= s.config.secondsBeforeInputRequest then
        var input := RandomInput(s.config.difficulty, draw);
        Announce(s.(phase := ExpectingInput, readyForInputAt := Some(t.readyAt), expectedInput := input),
                 GameExpectingInput(input))
      else Outcome(s, [])
  }

  function HandleOnePlayerPlayed(r: RoomState, t: Readings): (o: Outcome)
    requires RoomInv(r)
    ensures RoomInv(o.room)
  {
    if r.phase != Started && r.phase != ExpectingInput then Outcome(r, [])
    else if r.EveryonePlayed() || r.NoOnePlayed() then Outcome(r, [])
    else
      var whoPlayed := if r.p1.value.inputPressed.Some? then P1 else P2;
      var whoDidNotPlay := if whoPlayed == P1 then P2 else P1;
      var over := r.(phase := Over);
      var player := r.Slot(whoPlayed).value;
      if r.phase != ExpectingInput then
        Announce(over, GameOverEarlyInput(GameResult(over, Some(whoDidNotPlay))))
      else if player.inputPressed.value != r.expectedInput then
        Announce(over, GameOverWrongInput(GameResult(over, Some(whoDidNotPlay))))
      else if SecondsBetween(player.inputPressedAtServerTime.value, t.pressAt)
              >= r.config.onePlayerInputOnlyTimeout then
        Announce(over, GameOverWin(GameResult(over, Some(whoPlayed))))
      else Outcome(r, [])
  }

  function HandleEveryonePlayed(r: RoomState): (o: Outcome)
    requires RoomInv(r)
    ensures RoomInv(o.room)
  {
    if r.phase != ExpectingInput || !r.EveryonePlayed() then Outcome(r, [])
    else
      var over := r.(phase := Over);
      var p1PressedAt := r.p1.value.inputPressedAtServerTime.value;
      var p2PressedAt := r.p2.value.inputPressedAtServerTime.value;
      if p1PressedAt < p2PressedAt then Announce(over, GameOverWin(GameResult(over, Some(P1))))
      else if p2PressedAt < p1PressedAt then Announce(over, GameOverWin(GameResult(over, Some(P2))))
      else Announce(over, GameOverDraw(GameResult(over, None)))
  }

  function HandleTimeout(r: RoomState, t: Readings): (o: Outcome)
    requires RoomInv(r)
    ensures RoomInv(o.room)
  {
    if r.phase != ExpectingInput then Outcome(r, [])
    else if r.NoOnePlayed() && SecondsBetween(r.readyForInputAt.value, t.timeoutAt) >= r.config.noInputTimeout then
      Outcome(r.(phase := Over), Broadcast(r, GameOverDraw(GameResult(r, None))))
    else Outcome(r, [])
  }

  function HandleReplay(r: RoomState): (o: Outcome)
    requires RoomInv(r)
    ensures RoomInv(o.room)
  {
    if r.phase != Over || !r.EveryoneWantsToReplay() then Outcome(r, [])
    else
      var s := r.(p1 := Some(r.p1.value.ResetToReplay()), p2 := Some(r.p2.value.ResetToReplay()),
                  expectedInput := North, everyoneCanPlayAt := None, readyForInputAt := None, phase := Started);
      Announce(s, AllReplayReadyGameStarting)
  }

  function Tick(r: RoomState, t: Readings, draw: nat): (o: Outcome)
    requires RoomInv(r)
    ensures RoomInv(o.room)
  {
    match r.phase
    case WaitingPlayers => HandleEveryoneReady(r)
    case Started =>
      var o1 := HandleEveryoneCanPlay(r, t, draw);
      var o2 := HandleOnePlayerPlayed(o1.room, t);
      Outcome(o2.room, o1.sent + o2.sent)
    case ExpectingInput =>
      var o1 := HandleOnePlayerPlayed(r, t);
      var o2 := HandleEveryonePlayed(o1.room);
      var o3 := HandleTimeout(o2.room, t);
      Outcome(o3.room, o1.sent + o2.sent + o3.sent)
    case Over => HandleReplay(r)
  }

  // ---------- joining, leaving, player actions ----------

  // The newcomer learns about the other player, and the other about the newcomer.
  function Introductions(player: PlayerState, other: Option<PlayerState>): seq<Envelope> {
    var otherDTO := if other.Some? then Some(other.value.LobbyDTO()) else None;
    [Envelope(player.id, RoomJoined(player.assignment, otherDTO))] +
    (if other.Some? then [Envelope(other.value.id, PlayerJoinedRoom(player.LobbyDTO()))] else [])
  }

  function AddPlayer(r: RoomState, id: int, nickname: string): (o: Outcome)
    requires RoomInv(r)
    ensures RoomInv(o.room)
  {
    match r.AvailableAssignment()
    case None => Outcome(r, [])
    case Some(a) =>
      var player := NewPlayer(id, nickname, a);
      Outcome(r.WithSlot(a, Some(player)), Introductions(player, r.Slot(Other(a))))
  }

  function ResetSlot(p: Option<PlayerState>): Option<PlayerState> {
    if p.Some? then Some(p.value.ResetToReplay()) else None
  }

  // The room reset, with slot `a` empty.
  function Vacated(r: RoomState, a: PlayerAssignment): RoomState {
    r.(p1 := ResetSlot(r.p1), p2 := ResetSlot(r.p2), expectedInput := North,
       everyoneCanPlayAt := None, readyForInputAt := None, phase := WaitingPlayers).WithSlot(a, None)
  }

  function RemovePlayer(r: RoomState, id: int): (o: Outcome)
    requires RoomInv(r)
    ensures RoomInv(o.room)
  {
    match r.SlotOf(id)
    case None => Outcome(r, [])
    case Some(a) =>
      var leaver := r.Slot(a).value.assignment;
      Announce(Vacated(r, leaver), PlayerLeftRoom(leaver))
  }

  // The per-action handlers; the player found is the occupied slot `a`.

  function HandleSetReadyState(r: RoomState, a: PlayerAssignment, isReady: bool): (o: Outcome)
    requires RoomInv(r) && r.Slot(a).Some?
    ensures RoomInv(o.room)
  {
    if r.phase != WaitingPlayers then Outcome(r, [])
    else
      var player := r.Slot(a).value;
      Announce(r.WithSlot(a, Some(player.(isReady := isReady))), PlayerReadyStateChanged(player.assignment, isReady))
  }

  function HandleNotifyCanPlay(r: RoomState, a: PlayerAssignment): (o: Outcome)
    requires RoomInv(r) && r.Slot(a).Some?
    ensures RoomInv(o.room)
  {
    Outcome(r.WithSlot(a, Some(r.Slot(a).value.(canPlay := true))), [])
  }

  function HandleInput(r: RoomState, a: PlayerAssignment, input: GameplayInput, timeToPress: int, at: Time)
    : (o: Outcome)
    requires RoomInv(r) && r.Slot(a).Some?
    ensures RoomInv(o.room)
  {
    var player := r.Slot(a).value;
    Outcome(r.WithSlot(a, Some(player.(inputPressed := Some(input), timeToPress := Some(timeToPress),
                                       inputPressedAtServerTime := Some(at)))), [])
  }

  function HandleSetReplayReadyState(r: RoomState, a: PlayerAssignment, isReadyToReplay: bool): (o: Outcome)
    requires RoomInv(r) && r.Slot(a).Some?
    ensures RoomInv(o.room)
  {
    var player := r.Slot(a).value;
    Announce(r.WithSlot(a, Some(player.(isReadyToReplay := isReadyToReplay))),
             PlayerReplayReadyStateChanged(player.assignment, isReadyToReplay))
  }

  // handlePlayerMessage; `at` is the reading taken when the action is an input.
  function HandlePlayerMessage(r: RoomState, id: int, action: PlayerAction, at: Time): (o: Outcome)
    requires RoomInv(r)
    ensures RoomInv(o.room)
  {
    match r.SlotOf(id)
    case None => Outcome(r, [])
    case Some(a) =>
      match action
      case SetReadyState(isReady) => HandleSetReadyState(r, a, isReady)
      case NotifyCanPlay => HandleNotifyCanPlay(r, a)
      case PlayerInput(input, timeToPress) => HandleInput(r, a, input, timeToPress, at)
      case SetReplayReadyState(isReadyToReplay) => HandleSetReplayReadyState(r, a, isReadyToReplay)
      case LeaveGame => RemovePlayer(r, r.Slot(a).value.id)
      case JoinGame(_, _) => Outcome(r, [])
  }

  // ---------- events and runs ----------

  datatype Event =
    | Join(id: int, nickname: string)
    | Leave(id: int)
    | Act(id: int, action: PlayerAction, at: Time)
    | TickEvent(t: Readings, draw: nat)

  function Step(r: RoomState, e: Event): (o: Outcome)
    requires RoomInv(r)
    ensures RoomInv(o.room)
  {
    match e
    case Join(id, nickname) => AddPlayer(r, id, nickname)
    case Leave(id) => RemovePlayer(r, id)
    case Act(id, action, at) => HandlePlayerMessage(r, id, action, at)
    case TickEvent(t, draw) => Tick(r, t, draw)
  }

  function Run(r: RoomState, es: seq<Event>): (o: Outcome)
    requires RoomInv(r)
    ensures RoomInv(o.room)
    decreases |es|
  {
    if es == [] then Outcome(r, [])
    else
      var o1 := Step(r, es[0]);
      var o2 := Run(o1.room, es[1..]);
      Outcome(o2.room, o1.sent + o2.sent)
  }

  // Nobody joins a room it is already in: the manager does not check it.
  predicate Legal(r: RoomState, e: Event) {
    e.Join? ==> !r.HasPlayerWithId(e.id)
  }

  predicate LegalRun(r: RoomState, es: seq<Event>)
    requires RoomInv(r)
    decreases |es|
  {
    es == [] || (Legal(r, es[0]) && LegalRun(Step(r, es[0]).room, es[1..]))
  }

  // ---------- runs in parts ----------

  function Then(o1: Outcome, o2: Outcome): Outcome {
    Outcome(o2.room, o1.sent + o2.sent)
  }

  lemma ThenIsAssociative(o1: Outcome, o2: Outcome, o3: Outcome)
    ensures Then(Then(o1, o2), o3) == Then(o1, Then(o2, o3))
  {
    assert (o1.sent + o2.sent) + o3.sent == o1.sent + (o2.sent + o3.sent);
  }

  lemma RunFirst(r: RoomState, es: seq<Event>)
    requires RoomInv(r) && es != []
    ensures Run(r, es) == Then(Step(r, es[0]), Run(Step(r, es[0]).room, es[1..]))
  {
  }

  /** A run in two parts is the two runs, one after the other. */
  lemma {:induction false} RunAppend(r: RoomState, a: seq<Event>, b: seq<Event>)
    requires RoomInv(r)
    ensures Run(r, a + b) == Then(Run(r, a), Run(Run(r, a).room, b))
    decreases |a|
  {
    hide Step;
    if a == [] {
      assert a + b == b;
    } else {
      assert (a + b)[1..] == a[1..] + b && (a + b)[0] == a[0];
      RunFirst(r, a);
      RunFirst(r, a + b);
      var next := Step(r, a[0]);
      RunAppend(next.room, a[1..], b);
      ThenIsAssociative(next, Run(next.room, a[1..]), Run(Run(r, a).room, b));
    }
  }

  lemma RunOne(r: RoomState, e: Event)
    requires RoomInv(r)
    ensures Run(r, [e]) == Step(r, e)
  {
    assert [e][1..] == [];
  }

  lemma RunTwo(r: RoomState, e1: Event, e2: Event)
    requires RoomInv(r)
    ensures var o1 := Step(r, e1);
            var o2 := Step(o1.room, e2);
            Run(r, [e1, e2]) == Outcome(o2.room, o1.sent + o2.sent)
  {
    assert [e1, e2] == [e1] + [e2];
    RunAppend(r, [e1], [e2]);
    RunOne(r, e1);
    RunOne(Step(r, e1).room, e2);
  }

  lemma {:induction false} LegalAppend(r: RoomState, a: seq<Event>, b: seq<Event>)
    requires RoomInv(r)
    ensures LegalRun(r, a + b) <==> LegalRun(r, a) && LegalRun(Run(r, a).room, b)
    decreases |a|
  {
    hide Step;
    if a == [] {
      assert a + b == b;
    } else {
      assert (a + b)[1..] == a[1..] + b && (a + b)[0] == a[0];
      RunFirst(r, a);
      LegalAppend(Step(r, a[0]).room, a[1..], b);
    }
  }

  // ---------- seats and publications ----------

  function IdOf(p: Option<PlayerState>): Option<int> {
    if p.Some? then Some(p.value.id) else None
  }

  // A tick leaves everybody in place.
  lemma TickKeepsSeats(r: RoomState, t: Readings, draw: nat)
    requires RoomInv(r)
    ensures var s := Tick(r, t, draw).room;
            IdOf(s.p1) == IdOf(r.p1) && IdOf(s.p2) == IdOf(r.p2)
  {
  }

  lemma HandlersKeepPlayers(r: RoomState, t: Readings, draw: nat)
    requires RoomInv(r)
    ensures HandleEveryoneCanPlay(r, t, draw).room.p1 == r.p1 && HandleEveryoneCanPlay(r, t, draw).room.p2 == r.p2
    ensures HandleOnePlayerPlayed(r, t).room.p1 == r.p1 && HandleOnePlayerPlayed(r, t).room.p2 == r.p2
    ensures HandleEveryonePlayed(r).room.p1 == r.p1 && HandleEveryonePlayed(r).room.p2 == r.p2
    ensures HandleTimeout(r, t).room.p1 == r.p1 && HandleTimeout(r, t).room.p2 == r.p2
  {
  }

  // Only a replay touches the players.
  lemma TickKeepsPlayers(r: RoomState, t: Readings, draw: nat)
    requires RoomInv(r) && !(r.phase == Over && Tick(r, t, draw).room.phase == Started)
    ensures Tick(r, t, draw).room.p1 == r.p1 && Tick(r, t, draw).room.p2 == r.p2
  {
    hide HandleEveryoneCanPlay, HandleOnePlayerPlayed, HandleEveryonePlayed, HandleTimeout;
    HandlersKeepPlayers(r, t, draw);
    match r.phase
    case WaitingPlayers =>
    case Over =>
    case Started => HandlersKeepPlayers(HandleEveryoneCanPlay(r, t, draw).room, t, draw);
    case ExpectingInput =>
      var o1 := HandleOnePlayerPlayed(r, t);
      HandlersKeepPlayers(o1.room, t, draw);
      HandlersKeepPlayers(HandleEveryonePlayed(o1.room).room, t, draw);
  }

  lemma ActionKeepsDistinctIds(r: RoomState, id: int, action: PlayerAction, at: Time)
    requires RoomInv(r) && DistinctIds(r)
    ensures DistinctIds(HandlePlayerMessage(r, id, action, at).room)
  {
  }

  lemma StepKeepsDistinctIds(r: RoomState, e: Event)
    requires RoomInv(r) && DistinctIds(r) && Legal(r, e)
    ensures DistinctIds(Step(r, e).room)
  {
    match e
    case Join(_, _) =>
    case Leave(_) =>
    case Act(id, action, at) => ActionKeepsDistinctIds(r, id, action, at);
    case TickEvent(t, draw) => TickKeepsSeats(r, t, draw);
  }

  // Nothing but lobby talk.
  predicate OnlyLobby(sent: seq<Envelope>) {
    forall e | e in sent ::
      !e.message.IsGameOver() && !e.message.IsStart() && !e.message.GameExpectingInput?
  }

  lemma BroadcastCarries(r: RoomState, m: GameplayMessage)
    ensures forall e | e in Broadcast(r, m) :: e.message == m
  {
  }

  lemma SeatChangesAreLobbyTalk(r: RoomState, id: int, nickname: string)
    requires RoomInv(r)
    ensures OnlyLobby(AddPlayer(r, id, nickname).sent) && OnlyLobby(RemovePlayer(r, id).sent)
  {
    var left := RemovePlayer(r, id);
    if left.sent != [] {
      BroadcastCarries(left.room, PlayerLeftRoom(r.Slot(r.SlotOf(id).value).value.assignment));
    }
  }

  lemma ReadyChangesAreLobbyTalk(r: RoomState, a: PlayerAssignment, b: bool)
    requires RoomInv(r) && r.Slot(a).Some?
    ensures OnlyLobby(HandleSetReadyState(r, a, b).sent) && OnlyLobby(HandleSetReplayReadyState(r, a, b).sent)
  {
    BroadcastCarries(HandleSetReadyState(r, a, b).room, PlayerReadyStateChanged(r.Slot(a).value.assignment, b));
    BroadcastCarries(HandleSetReplayReadyState(r, a, b).room,
                     PlayerReplayReadyStateChanged(r.Slot(a).value.assignment, b));
  }

  lemma ActionsAreLobbyTalk(r: RoomState, id: int, action: PlayerAction, at: Time)
    requires RoomInv(r)
    ensures OnlyLobby(HandlePlayerMessage(r, id, action, at).sent)
  {
    if r.SlotOf(id).Some? {
      match action
      case SetReadyState(b) => ReadyChangesAreLobbyTalk(r, r.SlotOf(id).value, b);
      case SetReplayReadyState(b) => ReadyChangesAreLobbyTalk(r, r.SlotOf(id).value, b);
      case LeaveGame => SeatChangesAreLobbyTalk(r, id, "");
      case _ =>
    }
  }

  /** Starts, input requests and verdicts are published by ticks only. */
  lemma OnlyTicksPlay(r: RoomState, e: Event)
    requires RoomInv(r) && !e.TickEvent?
    ensures OnlyLobby(Step(r, e).sent)
  {
    match e
    case Join(id, nickname) => SeatChangesAreLobbyTalk(r, id, nickname);
    case Leave(id) => SeatChangesAreLobbyTalk(r, id, "");
    case Act(id, action, at) => ActionsAreLobbyTalk(r, id, action, at);
  }

  lemma InboxBroadcast(r: RoomState, m: GameplayMessage, id: int)
    requires DistinctIds(r)
    ensures Inbox(id, Broadcast(r, m)) == if r.HasPlayerWithId(id) then [m] else []
  {
    var first := if r.p1.Some? then [Envelope(r.p1.value.id, m)] else [];
    var second := if r.p2.Some? then [Envelope(r.p2.value.id, m)] else [];
    InboxAppend(id, first, second);
  }
}
