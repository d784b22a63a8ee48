/** "Pressed too early - failed": exactly when the code fails an early press, and when it
    crowns one instead. */
module EarlyPress {
  import opened Messages
  import opened Chrono
  import opened RoomModel
  import opened Verdicts
  import opened CleanSlate
  import opened Rounds
  import opened Timing
  import opened CorrectButton

  // ---------- failed ----------

  predicate EarlyIsPublished(sent: seq<Envelope>) {
    exists e | e in sent :: e.message.GameOverEarlyInput?
  }

  /** The rule is applied exactly when a started room ticks with one press on record and
      does not ask for the input in the same tick; two early presses are not failed. */
  lemma EarlyPressFailsIff(r: RoomState, t: Readings, draw: nat)
    requires RoomInv(r)
    ensures EarlyIsPublished(Tick(r, t, draw).sent) <==>
              r.phase == Started && !Asks(r, t) && (Alone(r, P1) || Alone(r, P2))
  {
    if r.phase == ExpectingInput {
      ExpectingTickIsNotEarly(r, t, draw);
    } else if r.phase == Started {
      StartedTickIsEarlyIff(r, t, draw);
    }
  }

  lemma ExpectingTickIsNotEarly(r: RoomState, t: Readings, draw: nat)
    requires RoomInv(r) && r.phase == ExpectingInput
    ensures !EarlyIsPublished(Tick(r, t, draw).sent)
  {
    hide Tick;
    TickIsDecision(r, t, draw);
  }

  lemma StartedTickIsEarlyIff(r: RoomState, t: Readings, draw: nat)
    requires RoomInv(r) && r.phase == Started
    ensures EarlyIsPublished(Tick(r, t, draw).sent) <==> !Asks(r, t) && (Alone(r, P1) || Alone(r, P2))
  {
    hide Tick, HandleEveryoneCanPlay, Asks, RandomInput;
    CountdownIsNoVerdict(r, t, draw);
    StartedTickIsTwoStages(r, t, draw);
    var c := HandleEveryoneCanPlay(r, t, draw);
    if Alone(r, P1) || Alone(r, P2) {
      var who := if Alone(r, P1) then P1 else P2;
      if c.room.phase == Started {
        var early := GameOverEarlyInput(GameResult(r, Some(Other(who))));
        assert Finish(c.room, early).sent[0].message == early;
        assert Finish(c.room, early).sent[0] in Tick(r, t, draw).sent;
      }
    }
  }

  // ---------- crowned ----------

  // A WIN for a player whose press was received before the input was asked for.
  predicate CrownsAnEarlyPress(o: Outcome)
    requires RoomInv(o.room)
  {
    && o.room.readyForInputAt.Some?
    && exists e | e in o.sent ::
         && e.message.GameOverWin?
         && e.message.result.winningPlayer.Some?
         && var press := Stored(o.room, e.message.result.winningPlayer.value);
            press.Some? && press.value.at < o.room.readyForInputAt.value
  }

  predicate Aged(press: Press, t: Readings, config: RoomConfig) {
    SecondsBetween(press.at, t.pressAt) >= config.onePlayerInputOnlyTimeout
  }

  // Both have pressed, and the earlier press, `mine`, came before `ready`.
  predicate FirstAndEarly(mine: Option<Press>, other: Option<Press>, ready: Time) {
    mine.Some? && other.Some? && mine.value.at < other.value.at && mine.value.at < ready
  }

  // `who` alone has pressed, before `ready`, what was going to be asked for, long enough ago.
  predicate LuckyGuess(r: RoomState, who: PlayerAssignment, expected: GameplayInput, ready: Time, t: Readings)
    requires RoomInv(r)
  {
    && Alone(r, who)
    && Right(Stored(r, who), expected)
    && Stored(r, who).value.at < ready
    && Aged(Stored(r, who).value, t, r.config)
  }

  // What a room of two settled by a win publishes.
  lemma WinCrowns(r: RoomState, before: seq<Envelope>, a: PlayerAssignment)
    requires RoomInv(r) && r.IsFull() && r.readyForInputAt.Some? && r.phase == ExpectingInput
    requires forall e | e in before :: !e.message.IsGameOver()
    ensures var o := Finish(r, GameOverWin(GameResult(r, Some(a))));
            CrownsAnEarlyPress(Outcome(o.room, before + o.sent)) <==>
              Stored(r, a).Some? && Stored(r, a).value.at < r.readyForInputAt.value
  {
    var m := GameOverWin(GameResult(r, Some(a)));
    var o := Finish(r, m);
    BroadcastCarries(r, m);
    assert o.sent[0].message == m && o.sent[0] in before + o.sent;
    assert Stored(o.room, a) == Stored(r, a);
  }

  lemma NoWinCrownsNobody(o: Outcome)
    requires RoomInv(o.room) && forall e | e in o.sent :: !e.message.GameOverWin?
    ensures !CrownsAnEarlyPress(o)
  {
  }

  // The judgement of a lone press, after the publications `before`.
  lemma LonePressCrowns(r: RoomState, before: seq<Envelope>, who: PlayerAssignment, t: Readings)
    requires RoomInv(r) && r.phase == ExpectingInput && Alone(r, who)
    requires forall e | e in before :: !e.message.IsGameOver()
    ensures var o := LonePress(r, who, t);
            && RoomInv(o.room)
            && (CrownsAnEarlyPress(Outcome(o.room, before + o.sent)) <==>
                  LuckyGuess(r, who, r.expectedInput, r.readyForInputAt.value, t))
  {
    hide CrownsAnEarlyPress;
    var o := LonePress(r, who, t);
    var wrong := GameOverWrongInput(GameResult(r, Some(Other(who))));
    WinCrowns(r, before, who);
    BroadcastCarries(r, wrong);
    if Wrong(Stored(r, who), r.expectedInput) || !Aged(Stored(r, who).value, t, r.config) {
      NoWinCrownsNobody(Outcome(o.room, before + o.sent));
    }
  }

  lemma ExpectingTickCrowns(r: RoomState, t: Readings, draw: nat)
    requires RoomInv(r) && r.phase == ExpectingInput
    ensures var press1, press2, ready := Stored(r, P1), Stored(r, P2), r.readyForInputAt.value;
            CrownsAnEarlyPress(Tick(r, t, draw)) <==>
              || FirstAndEarly(press1, press2, ready) || FirstAndEarly(press2, press1, ready)
              || LuckyGuess(r, P1, r.expectedInput, ready, t) || LuckyGuess(r, P2, r.expectedInput, ready, t)
  {
    hide Tick, LonePress, BothPressed, CrownsAnEarlyPress, Broadcast, Aged;
    TickIsDecision(r, t, draw);
    var o := Decide(r, t);
    assert [] + o.sent == o.sent;
    if r.EveryonePlayed() {
      BothPressedCrowns(r);
    } else if Alone(r, P1) {
      LonePressCrowns(r, [], P1, t);
    } else if Alone(r, P2) {
      LonePressCrowns(r, [], P2, t);
    } else {
      BroadcastCarries(r, GameOverDraw(GameResult(r, None)));
      NoWinCrownsNobody(o);
    }
  }

  lemma BothPressedCrowns(r: RoomState)
    requires RoomInv(r) && r.phase == ExpectingInput && r.EveryonePlayed()
    ensures var press1, press2, ready := Stored(r, P1), Stored(r, P2), r.readyForInputAt.value;
            CrownsAnEarlyPress(BothPressed(r)) <==>
              FirstAndEarly(press1, press2, ready) || FirstAndEarly(press2, press1, ready)
  {
    hide CrownsAnEarlyPress;
    var o := BothPressed(r);
    assert [] + o.sent == o.sent;
    WinCrowns(r, [], P1);
    WinCrowns(r, [], P2);
    if Stored(r, P1).value.at == Stored(r, P2).value.at {
      BroadcastCarries(r, GameOverDraw(GameResult(r, None)));
      NoWinCrownsNobody(o);
    }
  }

  lemma StartedTickCrowns(r: RoomState, t: Readings, draw: nat)
    requires RoomInv(r) && r.phase == Started
    ensures var input := RandomInput(r.config.difficulty, draw);
            CrownsAnEarlyPress(Tick(r, t, draw)) <==>
              Asks(r, t) && (LuckyGuess(r, P1, input, t.readyAt, t) || LuckyGuess(r, P2, input, t.readyAt, t))
  {
    hide Tick, HandleEveryoneCanPlay, LonePress, CrownsAnEarlyPress, Asks, RandomInput;
    CountdownIsNoVerdict(r, t, draw);
    StartedTickIsTwoStages(r, t, draw);
    var c := HandleEveryoneCanPlay(r, t, draw);
    var o := Tick(r, t, draw);
    if Alone(r, P1) || Alone(r, P2) {
      var who := if Alone(r, P1) then P1 else P2;
      if c.room.phase == Started {
        BroadcastCarries(c.room, GameOverEarlyInput(GameResult(r, Some(Other(who)))));
        NoWinCrownsNobody(o);
      } else {
        LonePressCrowns(c.room, c.sent, who, t);
      }
    } else {
      assert o.sent == c.sent + [];
      NoWinCrownsNobody(o);
    }
  }

  /** A tick crowns a press received before the input was asked for exactly when the room
      expects the input and both have pressed, the earlier press coming before the request;
      or somebody alone has pressed before the request what is asked for, and the press has
      aged the one-player timeout, be it in the tick that asks or in a later one. */
  lemma EarlyPressWinsIff(r: RoomState, t: Readings, draw: nat)
    requires RoomInv(r)
    ensures var press1, press2 := Stored(r, P1), Stored(r, P2);
            CrownsAnEarlyPress(Tick(r, t, draw)) <==>
              match r.phase
              case WaitingPlayers => false
              case Started =>
                var input := RandomInput(r.config.difficulty, draw);
                Asks(r, t) && (LuckyGuess(r, P1, input, t.readyAt, t) || LuckyGuess(r, P2, input, t.readyAt, t))
              case ExpectingInput =>
                var ready := r.readyForInputAt.value;
                || FirstAndEarly(press1, press2, ready) || FirstAndEarly(press2, press1, ready)
                || LuckyGuess(r, P1, r.expectedInput, ready, t) || LuckyGuess(r, P2, r.expectedInput, ready, t)
              case Over => false
  {
    match r.phase
    case WaitingPlayers =>
    case Started => StartedTickCrowns(r, t, draw);
    case ExpectingInput => ExpectingTickCrowns(r, t, draw);
    case Over =>
  }

  // ---------- from a new room ----------

  // Both press before the first tick of the countdown.
  function EarlyDuel(seconds: int, press1: Press, press2: Press): seq<Event> {
    OpeningMoves(NEWCOMER_1, NEWCOMER_2, Moment(0)) +
    (BOTH_CAN_PLAY + (Presses(press1, press2) + Countdown(press2.at, seconds)))
  }

  lemma StartedEarlyDuelPlays(r: RoomState, n: int, press1: Press, press2: Press)
    requires RoomInv(r) && r.phase == Started && r.IsFull() && r.everyoneCanPlayAt.None?
    requires r.config.secondsBeforeInputRequest == n > 0
    requires IdOf(r.p1) == Some(1) && IdOf(r.p2) == Some(2)
    ensures var end := Run(r, BOTH_CAN_PLAY + (Presses(press1, press2) + Countdown(press2.at, n))).room;
            && end.phase == ExpectingInput && end.readyForInputAt == Some(press2.at + n * NANOS_PER_SECOND)
            && Stored(end, P1) == Some(press1) && Stored(end, P2) == Some(press2)
  {
    hide Step, Countdown;
    var ready := Run(r, BOTH_CAN_PLAY).room;
    BothCanPlay(r, 0);
    RunAppend(r, BOTH_CAN_PLAY, Presses(press1, press2) + Countdown(press2.at, n));
    PressesAndCountdown(ready, n, press1, press2);
  }

  lemma PressesAndCountdown(r: RoomState, n: int, press1: Press, press2: Press)
    requires RoomInv(r) && r.phase == Started && r.EveryoneCanPlay() && r.everyoneCanPlayAt.None?
    requires r.config.secondsBeforeInputRequest == n > 0
    requires IdOf(r.p1) == Some(1) && IdOf(r.p2) == Some(2)
    ensures var end := Run(r, Presses(press1, press2) + Countdown(press2.at, n)).room;
            && end.phase == ExpectingInput && end.readyForInputAt == Some(press2.at + n * NANOS_PER_SECOND)
            && Stored(end, P1) == Some(press1) && Stored(end, P2) == Some(press2)
  {
    hide Step, Countdown;
    RunAppend(r, Presses(press1, press2), Countdown(press2.at, n));
    BothPress(r, press1.input, press1.timeToPress, press1.at, press2.input, press2.timeToPress, press2.at);
    CountdownRuns(Run(r, Presses(press1, press2)).room, press2.at, n);
  }

  lemma CountdownRuns(r: RoomState, from: Time, n: int)
    requires RoomInv(r) && r.phase == Started && r.EveryoneCanPlay() && r.EveryonePlayed()
    requires r.everyoneCanPlayAt.None? && r.config.secondsBeforeInputRequest == n > 0
    ensures var end := Run(r, Countdown(from, n)).room;
            && end.phase == ExpectingInput && end.readyForInputAt == Some(from + n * NANOS_PER_SECOND)
            && end.p1 == r.p1 && end.p2 == r.p2
  {
    hide Tick;
    var t1, t2 := Moment(from), Moment(from + n * NANOS_PER_SECOND);
    CountdownTicks(r, t1, t2, 0);
    RunTwo(r, TickEvent(t1, 0), TickEvent(t2, 0));
  }

  lemma EarlyDuelPlays(config: RoomConfig, press1: Press, press2: Press)
    requires config.secondsBeforeInputRequest > 0
    ensures var n := config.secondsBeforeInputRequest;
            var r := Run(NewRoom(config), EarlyDuel(n, press1, press2)).room;
            && r.phase == ExpectingInput && r.readyForInputAt == Some(press2.at + n * NANOS_PER_SECOND)
            && Stored(r, P1) == Some(press1) && Stored(r, P2) == Some(press2)
  {
    hide Step, RandomInput, Stored;
    var n := config.secondsBeforeInputRequest;
    OpeningMovesStartTheRoom(config, NEWCOMER_1, NEWCOMER_2, Moment(0));
    RunAppend(NewRoom(config), OpeningMoves(NEWCOMER_1, NEWCOMER_2, Moment(0)),
              BOTH_CAN_PLAY + (Presses(press1, press2) + Countdown(press2.at, n)));
    StartedEarlyDuelPlays(FreshlyStarted(config, NEWCOMER_1, NEWCOMER_2), n, press1, press2);
  }

  lemma EarlyDuelIsLegal(config: RoomConfig, press1: Press, press2: Press)
    requires config.secondsBeforeInputRequest > 0 && 0 <= press1.at <= press2.at
    ensures TimedRun(EarlyDuel(config.secondsBeforeInputRequest, press1, press2), 0)
    ensures LegalRun(NewRoom(config), EarlyDuel(config.secondsBeforeInputRequest, press1, press2))
  {
    var n := config.secondsBeforeInputRequest;
    var later := BOTH_CAN_PLAY + (Presses(press1, press2) + Countdown(press2.at, n));
    TimedAppend(OpeningMoves(NEWCOMER_1, NEWCOMER_2, Moment(0)), later, 0);
    TimedAppend(BOTH_CAN_PLAY, Presses(press1, press2) + Countdown(press2.at, n), 0);
    TimedAppend(Presses(press1, press2), Countdown(press2.at, n), 0);
    OpeningIsTimed(0);
    TimedPair(BOTH_CAN_PLAY[0], BOTH_CAN_PLAY[1], 0);
    TimedPair(Presses(press1, press2)[0], Presses(press1, press2)[1], 0);
    TimedPair(Countdown(press2.at, n)[0], Countdown(press2.at, n)[1], press2.at);
    OpeningIsLegal(config, later);
  }

  /** From every new room with a positive countdown, under a monotone clock: two presses made
      before the countdown even begins are not failed, the input is requested the full
      countdown later, and the next tick crowns the first of them, whatever was pressed. */
  lemma EarlyPressCanWin(config: RoomConfig, press1: Press, press2: Press, t: Readings, draw: nat)
    requires config.secondsBeforeInputRequest > 0 && 0 <= press1.at < press2.at
    ensures var es := EarlyDuel(config.secondsBeforeInputRequest, press1, press2);
            var r := Run(NewRoom(config), es).room;
            && TimedRun(es, 0) && LegalRun(NewRoom(config), es)
            && r.phase == ExpectingInput
            && CrownsAnEarlyPress(Tick(r, t, draw)) && WinnerOf(Tick(r, t, draw).sent) == Some(P1)
  {
    hide Tick, EarlyDuel, TimedRun, LegalRun, CrownsAnEarlyPress;
    EarlyDuelIsLegal(config, press1, press2);
    EarlyDuelPlays(config, press1, press2);
    var r := Run(NewRoom(config), EarlyDuel(config.secondsBeforeInputRequest, press1, press2)).room;
    EarlyPressWinsIff(r, t, draw);
    TickIsDecision(r, t, draw);
    BothPressedSends(r);
  }
}
