/** "The client is owning the timer": what the declared times to press are worth. */
module DeclaredTimes {
  import opened Messages
  import opened Chrono
  import opened RoomModel
  import opened Verdicts
  import opened CorrectButton

  // ---------- declared times are only echoed ----------

  function BlankTime(time: Option<int>): Option<int> {
    if time.Some? then Some(0) else None
  }

  function BlankSlot(p: Option<PlayerState>): Option<PlayerState> {
    if p.Some? then Some(p.value.(timeToPress := BlankTime(p.value.timeToPress))) else None
  }

  // The room with every declared time set to zero.
  function Blank(r: RoomState): (s: RoomState)
    ensures RoomInv(r) ==> RoomInv(s)
  {
    r.(p1 := BlankSlot(r.p1), p2 := BlankSlot(r.p2))
  }

  function BlankDTO(d: PlayerGameResultDTO): PlayerGameResultDTO {
    d.(timeToPress := BlankTime(d.timeToPress))
  }

  function BlankMessage(m: GameplayMessage): GameplayMessage {
    if m.IsGameOver()
    then m.(result := GameResultDTO(m.result.winningPlayer, BlankDTO(m.result.player1), BlankDTO(m.result.player2)))
    else m
  }

  function BlankSent(sent: seq<Envelope>): (s: seq<Envelope>)
    ensures |s| == |sent| && forall i | 0 <= i < |s| :: s[i] == sent[i].(message := BlankMessage(sent[i].message))
  {
    if sent == [] then [] else [sent[0].(message := BlankMessage(sent[0].message))] + BlankSent(sent[1..])
  }

  function BlankOutcome(o: Outcome): Outcome {
    Outcome(Blank(o.room), BlankSent(o.sent))
  }

  function BlankAction(action: PlayerAction): PlayerAction {
    if action.PlayerInput? then action.(timeToPress := 0) else action
  }

  function BlankEvent(e: Event): Event {
    if e.Act? then e.(action := BlankAction(e.action)) else e
  }

  function BlankEvents(es: seq<Event>): (bs: seq<Event>)
    ensures |bs| == |es| && forall i | 0 <= i < |es| :: bs[i] == BlankEvent(es[i])
  {
    if es == [] then [] else [BlankEvent(es[0])] + BlankEvents(es[1..])
  }

  lemma AnnounceBlank(r: RoomState, m: GameplayMessage)
    ensures Announce(Blank(r), BlankMessage(m)) == BlankOutcome(Announce(r, m))
  {
  }

  lemma ThenBlank(o1: Outcome, o2: Outcome)
    ensures BlankOutcome(Then(o1, o2)) == Then(BlankOutcome(o1), BlankOutcome(o2))
  {
  }

  lemma SilenceBlank(r: RoomState)
    ensures BlankOutcome(Outcome(r, [])) == Outcome(Blank(r), [])
  {
  }

  lemma OnePlayerPlayedBlank(r: RoomState, t: Readings)
    requires RoomInv(r)
    ensures HandleOnePlayerPlayed(Blank(r), t) == BlankOutcome(HandleOnePlayerPlayed(r, t))
  {
    hide Broadcast, BlankSent;
    SilenceBlank(r);
    if (r.phase == Started || r.phase == ExpectingInput) && !r.EveryonePlayed() && !r.NoOnePlayed() {
      var who := if r.p1.value.inputPressed.Some? then P1 else P2;
      var over := r.(phase := Over);
      AnnounceBlank(over, GameOverEarlyInput(GameResult(over, Some(Other(who)))));
      AnnounceBlank(over, GameOverWrongInput(GameResult(over, Some(Other(who)))));
      AnnounceBlank(over, GameOverWin(GameResult(over, Some(who))));
    }
  }

  lemma EveryonePlayedBlank(r: RoomState)
    requires RoomInv(r)
    ensures HandleEveryonePlayed(Blank(r)) == BlankOutcome(HandleEveryonePlayed(r))
  {
    hide Broadcast, BlankSent;
    SilenceBlank(r);
    if r.phase == ExpectingInput {
      var over := r.(phase := Over);
      AnnounceBlank(over, GameOverWin(GameResult(over, Some(P1))));
      AnnounceBlank(over, GameOverWin(GameResult(over, Some(P2))));
      AnnounceBlank(over, GameOverDraw(GameResult(over, None)));
    }
  }

  lemma TimeoutBlank(r: RoomState, t: Readings)
    requires RoomInv(r)
    ensures HandleTimeout(Blank(r), t) == BlankOutcome(HandleTimeout(r, t))
  {
    hide BlankSent;
    SilenceBlank(r);
    if r.phase == ExpectingInput {
      AnnounceBlank(r, GameOverDraw(GameResult(r, None)));
    }
  }

  lemma CanPlayBlank(r: RoomState, t: Readings, draw: nat)
    requires RoomInv(r)
    ensures HandleEveryoneCanPlay(Blank(r), t, draw) == BlankOutcome(HandleEveryoneCanPlay(r, t, draw))
  {
    hide Broadcast, BlankSent, RandomInput;
    var o := HandleEveryoneCanPlay(r, t, draw);
    SilenceBlank(o.room);
    AnnounceBlank(o.room, GameExpectingInput(o.room.expectedInput));
  }

  lemma TickBlank(r: RoomState, t: Readings, draw: nat)
    requires RoomInv(r)
    ensures Tick(Blank(r), t, draw) == BlankOutcome(Tick(r, t, draw))
  {
    hide HandleEveryoneCanPlay, HandleOnePlayerPlayed, HandleEveryonePlayed, HandleTimeout, Broadcast, BlankSent;
    var o := Tick(r, t, draw);
    match r.phase
    case WaitingPlayers =>
      SilenceBlank(r);
      AnnounceBlank(r.(phase := Started), AllReadyGameStarting);
    case Over =>
      SilenceBlank(r);
      AnnounceBlank(o.room, AllReplayReadyGameStarting);
    case Started =>
      var o1 := HandleEveryoneCanPlay(r, t, draw);
      CanPlayBlank(r, t, draw);
      OnePlayerPlayedBlank(o1.room, t);
      ThenBlank(o1, HandleOnePlayerPlayed(o1.room, t));
    case ExpectingInput =>
      var o1 := HandleOnePlayerPlayed(r, t);
      var o2 := HandleEveryonePlayed(o1.room);
      OnePlayerPlayedBlank(r, t);
      EveryonePlayedBlank(o1.room);
      TimeoutBlank(o2.room, t);
      ThenBlank(o1, o2);
      ThenBlank(Then(o1, o2), HandleTimeout(o2.room, t));
  }

  lemma LeaveBlank(r: RoomState, id: int)
    requires RoomInv(r)
    ensures RemovePlayer(Blank(r), id) == BlankOutcome(RemovePlayer(r, id))
  {
    hide Broadcast, BlankSent;
    SilenceBlank(r);
    if r.SlotOf(id).Some? {
      var a := r.SlotOf(id).value;
      assert Blank(r).SlotOf(id) == Some(a) && Vacated(Blank(r), a) == Blank(Vacated(r, a));
      hide Vacated, Blank;
      AnnounceBlank(Vacated(r, a), PlayerLeftRoom(a));
    }
  }

  lemma JoinBlank(r: RoomState, id: int, nickname: string)
    requires RoomInv(r)
    ensures AddPlayer(Blank(r), id, nickname) == BlankOutcome(AddPlayer(r, id, nickname))
  {
  }

  lemma SetReadyBlank(r: RoomState, a: PlayerAssignment, b: bool)
    requires RoomInv(r) && r.Slot(a).Some?
    ensures HandleSetReadyState(Blank(r), a, b) == BlankOutcome(HandleSetReadyState(r, a, b))
  {
    hide Broadcast, BlankSent;
    SilenceBlank(r);
    AnnounceBlank(HandleSetReadyState(r, a, b).room, PlayerReadyStateChanged(a, b));
  }

  lemma SetReplayReadyBlank(r: RoomState, a: PlayerAssignment, b: bool)
    requires RoomInv(r) && r.Slot(a).Some?
    ensures HandleSetReplayReadyState(Blank(r), a, b) == BlankOutcome(HandleSetReplayReadyState(r, a, b))
  {
    hide Broadcast, BlankSent;
    AnnounceBlank(HandleSetReplayReadyState(r, a, b).room, PlayerReplayReadyStateChanged(a, b));
  }

  lemma SilentActionBlank(r: RoomState, a: PlayerAssignment, input: GameplayInput, time: int, at: Time)
    requires RoomInv(r) && r.Slot(a).Some?
    ensures HandleInput(Blank(r), a, input, 0, at) == BlankOutcome(HandleInput(r, a, input, time, at))
    ensures HandleNotifyCanPlay(Blank(r), a) == BlankOutcome(HandleNotifyCanPlay(r, a))
  {
    hide RoomInv;
    SilenceBlank(HandleInput(r, a, input, time, at).room);
    SilenceBlank(HandleNotifyCanPlay(r, a).room);
  }

  lemma ActionBlank(r: RoomState, id: int, action: PlayerAction, at: Time)
    requires RoomInv(r)
    ensures HandlePlayerMessage(Blank(r), id, BlankAction(action), at)
         == BlankOutcome(HandlePlayerMessage(r, id, action, at))
  {
    hide HandleSetReadyState, HandleNotifyCanPlay, HandleInput, HandleSetReplayReadyState, RemovePlayer, BlankSent;
    SilenceBlank(r);
    assert Blank(r).SlotOf(id) == r.SlotOf(id);
    if r.SlotOf(id).Some? {
      var a := r.SlotOf(id).value;
      match action
      case SetReadyState(b) => SetReadyBlank(r, a, b);
      case NotifyCanPlay => SilentActionBlank(r, a, North, 0, at);
      case PlayerInput(input, time) => SilentActionBlank(r, a, input, time, at);
      case SetReplayReadyState(b) => SetReplayReadyBlank(r, a, b);
      case LeaveGame => LeaveBlank(r, id);
      case JoinGame(_, _) =>
    }
  }

  lemma StepBlank(r: RoomState, e: Event)
    requires RoomInv(r)
    ensures Step(Blank(r), BlankEvent(e)) == BlankOutcome(Step(r, e))
  {
    hide Tick, HandlePlayerMessage, AddPlayer, RemovePlayer;
    match e
    case Join(id, nickname) => JoinBlank(r, id, nickname);
    case Leave(id) => LeaveBlank(r, id);
    case Act(id, action, at) => ActionBlank(r, id, action, at);
    case TickEvent(t, draw) => TickBlank(r, t, draw);
  }

  lemma {:induction false} RunBlank(r: RoomState, es: seq<Event>)
    requires RoomInv(r)
    ensures Run(Blank(r), BlankEvents(es)) == BlankOutcome(Run(r, es))
    decreases |es|
  {
    hide Step;
    if es == [] {
      SilenceBlank(r);
    } else {
      StepBlank(r, es[0]);
      RunBlank(Step(r, es[0]).room, es[1..]);
      ThenBlank(Step(r, es[0]), Run(Step(r, es[0]).room, es[1..]));
    }
  }

  /** The declared times decide nothing: two runs that differ only in them go through the
      same publications, winners included, and end in the same room, but for the declared
      times themselves. */
  lemma DeclaredTimesAreOnlyEchoed(r: RoomState, es: seq<Event>, fs: seq<Event>)
    requires RoomInv(r) && BlankEvents(es) == BlankEvents(fs)
    ensures BlankSent(Run(r, es).sent) == BlankSent(Run(r, fs).sent)
    ensures Blank(Run(r, es).room) == Blank(Run(r, fs).room)
  {
    hide Step;
    RunBlank(r, es);
    RunBlank(r, fs);
  }

  // ---------- the shorter declared time ----------

  // Who declared the shorter time to press; None for equal times.
  function DeclaredFaster(press1: Press, press2: Press): Option<PlayerAssignment> {
    if press1.timeToPress < press2.timeToPress then Some(P1)
    else if press2.timeToPress < press1.timeToPress then Some(P2)
    else None
  }

  /** With two presses the outcome is the one the declared times promise exactly when they
      are ordered as the server's receipts are. */
  lemma DeclaredTimesDecideIff(r: RoomState, t: Readings, draw: nat)
    requires RoomInv(r) && r.phase == ExpectingInput && r.EveryonePlayed()
    ensures var press1, press2 := Stored(r, P1).value, Stored(r, P2).value;
            WinnerOf(Tick(r, t, draw).sent) == DeclaredFaster(press1, press2) <==>
              && (press1.timeToPress < press2.timeToPress <==> press1.at < press2.at)
              && (press2.timeToPress < press1.timeToPress <==> press2.at < press1.at)
  {
    hide Tick, BothPressed;
    TickIsDecision(r, t, draw);
    BothPressedSends(r);
  }

  /** From a new room, under a monotone clock: P2 declares 200 against 900, is received a
      nanosecond later, and loses. */
  lemma DeclaredFasterCanLose(t: Readings, draw: nat)
    ensures var r := Run(EASY_ROOM, WRONG_FIRST).room;
            && r.phase == ExpectingInput && r.EveryonePlayed()
            && DeclaredFaster(Stored(r, P1).value, Stored(r, P2).value) == Some(P2)
            && WinnerOf(Step(r, TickEvent(t, draw)).sent) == Some(P1)
  {
    hide Step;
    WrongButtonCanWin(t, draw);
    DuelPlays(EASY_ROOM.config, Press(East, 900, 6 * NANOS_PER_SECOND), Press(South, 200, 6 * NANOS_PER_SECOND + 1));
  }
}
