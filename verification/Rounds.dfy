/** Whole rounds: from a started room over the countdown and the presses to a verdict. */
module Rounds {
  import opened Messages
  import opened Chrono
  import opened RoomModel
  import opened Verdicts

  // ---------- the countdown runs out ----------

  /** In a started round in which nobody has pressed, once both can play, a tick starts the
      countdown and a tick the full countdown later asks both for the same input. */
  lemma BothCanPlayThenInputIsRequested(r: RoomState, at: Time, t1: Readings, t2: Readings, draw: nat)
    requires RoomInv(r) && DistinctIds(r) && r.phase == Started && r.NoOnePlayed() && r.everyoneCanPlayAt.None?
    requires t1.Since(at) && t2.Since(t1.timeoutAt)
    requires t1.elapsedAt < t1.canPlayAt + r.config.secondsBeforeInputRequest * NANOS_PER_SECOND <= t2.elapsedAt
    ensures var ready := Run(r, [Act(r.p1.value.id, NotifyCanPlay, at), Act(r.p2.value.id, NotifyCanPlay, at)]);
            var end := Run(ready.room, [TickEvent(t1, draw), TickEvent(t2, draw)]);
            var input := RandomInput(r.config.difficulty, draw);
            && ready.sent == []
            && end.room.phase == ExpectingInput && end.room.NoOnePlayed() && end.room.expectedInput == input
            && end.room.everyoneCanPlayAt == Some(t1.canPlayAt) && end.room.readyForInputAt == Some(t2.readyAt)
            && end.sent == Broadcast(r, GameExpectingInput(input))
            && DistinctIds(end.room) && IdOf(end.room.p1) == IdOf(r.p1) && IdOf(end.room.p2) == IdOf(r.p2)
  {
    hide Tick, HandlePlayerMessage;
    var both := r.(p1 := Some(r.p1.value.(canPlay := true)), p2 := Some(r.p2.value.(canPlay := true)));
    BothCanPlay(r, at);
    CountdownTicks(both, t1, t2, draw);
    RunTwo(both, TickEvent(t1, draw), TickEvent(t2, draw));
  }

  lemma BothCanPlay(r: RoomState, at: Time)
    requires RoomInv(r) && DistinctIds(r) && r.IsFull()
    ensures Run(r, [Act(r.p1.value.id, NotifyCanPlay, at), Act(r.p2.value.id, NotifyCanPlay, at)])
         == Outcome(r.(p1 := Some(r.p1.value.(canPlay := true)), p2 := Some(r.p2.value.(canPlay := true))), [])
  {
    var e1, e2 := Act(r.p1.value.id, NotifyCanPlay, at), Act(r.p2.value.id, NotifyCanPlay, at);
    RunTwo(r, e1, e2);
    assert Step(r, e1).room == r.(p1 := Some(r.p1.value.(canPlay := true)));
  }

  lemma CountdownTicks(r: RoomState, t1: Readings, t2: Readings, draw: nat)
    requires RoomInv(r) && r.phase == Started && r.EveryoneCanPlay() && r.everyoneCanPlayAt.None?
    requires r.NoOnePlayed() || r.EveryonePlayed()
    requires r.config.secondsBeforeInputRequest > 0 && t1.canPlayAt <= t2.elapsedAt
    requires t1.elapsedAt < t1.canPlayAt + r.config.secondsBeforeInputRequest * NANOS_PER_SECOND <= t2.elapsedAt
    ensures var input := RandomInput(r.config.difficulty, draw);
            var counting := r.(everyoneCanPlayAt := Some(t1.canPlayAt));
            && Tick(r, t1, draw) == Outcome(counting, [])
            && Tick(counting, t2, draw)
               == Announce(counting.(phase := ExpectingInput, readyForInputAt := Some(t2.readyAt),
                                     expectedInput := input),
                           GameExpectingInput(input))
  {
    ThresholdInNanoseconds(t1.canPlayAt, t1.elapsedAt, r.config.secondsBeforeInputRequest);
    ThresholdInNanoseconds(t1.canPlayAt, t2.elapsedAt, r.config.secondsBeforeInputRequest);
  }

  // ---------- both press ----------

  function Pressed(p: PlayerState, input: GameplayInput, time: int, at: Time): PlayerState {
    p.(inputPressed := Some(input), timeToPress := Some(time), inputPressedAtServerTime := Some(at))
  }

  lemma BothPress(r: RoomState, i1: GameplayInput, time1: int, at1: Time, i2: GameplayInput, time2: int, at2: Time)
    requires RoomInv(r) && DistinctIds(r) && r.IsFull()
    ensures Run(r, [Act(r.p1.value.id, PlayerInput(i1, time1), at1), Act(r.p2.value.id, PlayerInput(i2, time2), at2)])
         == Outcome(r.(p1 := Some(Pressed(r.p1.value, i1, time1, at1)),
                       p2 := Some(Pressed(r.p2.value, i2, time2, at2))), [])
  {
    var e1 := Act(r.p1.value.id, PlayerInput(i1, time1), at1);
    var e2 := Act(r.p2.value.id, PlayerInput(i2, time2), at2);
    RunTwo(r, e1, e2);
    assert Step(r, e1).room == r.(p1 := Some(Pressed(r.p1.value, i1, time1, at1)));
  }

  lemma TickOfBothPressed(r: RoomState, t: Readings, draw: nat)
    requires RoomInv(r) && r.phase == ExpectingInput && r.EveryonePlayed()
    ensures Tick(r, t, draw) == BothPressed(r)
  {
    AnyHandlerOrderIsOneDecision([OnePlayerPlayed, EveryonePlayed, Timeout], r, t, draw);
  }

  /** Two presses before the next tick: the tick publishes one verdict to both, with both
      inputs and declared times, won by the earlier server receipt, drawn when equal. */
  lemma BothPressThenVerdict(r: RoomState, i1: GameplayInput, time1: int, at1: Time,
                             i2: GameplayInput, time2: int, at2: Time, t: Readings, draw: nat)
    requires RoomInv(r) && DistinctIds(r) && r.phase == ExpectingInput
    ensures var presses := Run(r, [Act(r.p1.value.id, PlayerInput(i1, time1), at1),
                                   Act(r.p2.value.id, PlayerInput(i2, time2), at2)]);
            var end := Step(presses.room, TickEvent(t, draw));
            var dto1 := PlayerGameResultDTO(P1, Some(i1), Some(time1));
            var dto2 := PlayerGameResultDTO(P2, Some(i2), Some(time2));
            && presses.sent == []
            && end.room.phase == Over
            && end.sent == Broadcast(r, if at1 < at2 then GameOverWin(GameResultDTO(Some(P1), dto1, dto2))
                                        else if at2 < at1 then GameOverWin(GameResultDTO(Some(P2), dto1, dto2))
                                        else GameOverDraw(GameResultDTO(None, dto1, dto2)))
  {
    BothPress(r, i1, time1, at1, i2, time2, at2);
    var both := r.(p1 := Some(Pressed(r.p1.value, i1, time1, at1)), p2 := Some(Pressed(r.p2.value, i2, time2, at2)));
    TickOfBothPressed(both, t, draw);
  }

  // ---------- the input asked for ----------

  function Pool(d: GameDifficulty): set<GameplayInput> {
    match d
    case Easy => {South}
    case Medium => {South, East}
    case Hard => {South, East, West, North}
  }

  /** The input asked for lies in the difficulty's pool, and the code's range of draws, one
      per input, is matched with the pool one to one: a uniform draw is a uniform input. */
  lemma RandomInputCoversPool(d: GameDifficulty)
    ensures forall draw: nat :: RandomInput(d, draw) in Pool(d)
    ensures forall input | input in Pool(d) :: exists draw: nat | draw < |Pool(d)| :: RandomInput(d, draw) == input
    ensures forall draw1: nat, draw2: nat | draw1 < draw2 < |Pool(d)| :: RandomInput(d, draw1) != RandomInput(d, draw2)
  {
    assert |Pool(Easy)| == 1 && |Pool(Medium)| == 2 && |Pool(Hard)| == 4;
    assert RandomInput(Easy, 0) == South;
    assert RandomInput(Medium, 0) == South && RandomInput(Medium, 1) == East;
    assert RandomInput(Hard, 0) == South && RandomInput(Hard, 1) == East;
    assert RandomInput(Hard, 2) == West && RandomInput(Hard, 3) == North;
  }
}
