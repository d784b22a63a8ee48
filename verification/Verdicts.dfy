/** How a round is decided: the guarded handler chain is one decision, whatever the order
    of the handlers, and every published verdict is justified by what the players did. */
module Verdicts {
  import opened Messages
  import opened Chrono
  import opened RoomModel

  // ---------- the reference decision ----------

  function Finish(r: RoomState, m: GameplayMessage): Outcome {
    Outcome(r.(phase := Over), Broadcast(r, m))
  }

  // Only `who` has pressed.
  function LonePress(r: RoomState, who: PlayerAssignment, t: Readings): Outcome
    requires RoomInv(r) && r.IsFull() && r.Slot(who).value.inputPressed.Some?
  {
    var p := r.Slot(who).value;
    if p.inputPressed.value != r.expectedInput then
      Finish(r, GameOverWrongInput(GameResult(r, Some(Other(who)))))
    else if SecondsBetween(p.inputPressedAtServerTime.value, t.pressAt) >= r.config.onePlayerInputOnlyTimeout then
      Finish(r, GameOverWin(GameResult(r, Some(who))))
    else Outcome(r, [])
  }

  // Both have pressed: only the receipt times matter.
  function BothPressed(r: RoomState): Outcome
    requires RoomInv(r) && r.EveryonePlayed()
  {
    var at1, at2 := r.p1.value.inputPressedAtServerTime.value, r.p2.value.inputPressedAtServerTime.value;
    if at1 == at2 then Finish(r, GameOverDraw(GameResult(r, None)))
    else Finish(r, GameOverWin(GameResult(r, Some(if at1 < at2 then P1 else P2))))
  }

  /** A single case split on which players pressed. */
  function Decide(r: RoomState, t: Readings): Outcome
    requires RoomInv(r) && r.phase == ExpectingInput
  {
    match (r.p1.value.inputPressed, r.p2.value.inputPressed)
    case (Some(_), Some(_)) => BothPressed(r)
    case (Some(_), None) => LonePress(r, P1, t)
    case (None, Some(_)) => LonePress(r, P2, t)
    case (None, None) =>
      if SecondsBetween(r.readyForInputAt.value, t.timeoutAt) >= r.config.noInputTimeout then
        Finish(r, GameOverDraw(GameResult(r, None)))
      else Outcome(r, [])
  }

  datatype Handler = OnePlayerPlayed | EveryonePlayed | Timeout

  function Handle(h: Handler, r: RoomState, t: Readings): (o: Outcome)
    requires RoomInv(r)
    ensures RoomInv(o.room)
  {
    match h
    case OnePlayerPlayed => HandleOnePlayerPlayed(r, t)
    case EveryonePlayed => HandleEveryonePlayed(r)
    case Timeout => HandleTimeout(r, t)
  }

  function HandleAll(hs: seq<Handler>, r: RoomState, t: Readings): (o: Outcome)
    requires RoomInv(r)
    ensures RoomInv(o.room)
    decreases |hs|
  {
    if hs == [] then Outcome(r, [])
    else
      var o1 := Handle(hs[0], r, t);
      var o2 := HandleAll(hs[1..], o1.room, t);
      Outcome(o2.room, o1.sent + o2.sent)
  }

  // The only handler whose guard can hold.
  function InCharge(r: RoomState): Handler {
    if r.EveryonePlayed() then EveryonePlayed else if r.NoOnePlayed() then Timeout else OnePlayerPlayed
  }

  lemma {:induction false} SettledRoomIsLeftAlone(hs: seq<Handler>, r: RoomState, t: Readings)
    requires RoomInv(r) && r.phase == Over
    ensures HandleAll(hs, r, t) == Outcome(r, [])
    decreases |hs|
  {
    if hs != [] {
      SettledRoomIsLeftAlone(hs[1..], r, t);
    }
  }

  /** In EXPECTING_INPUT, any sequence of handlers does what the one in charge decides,
      or nothing if it is missing: the other two are never enabled, before or after. */
  lemma {:induction false} HandlersRefineDecision(hs: seq<Handler>, r: RoomState, t: Readings)
    requires RoomInv(r) && r.phase == ExpectingInput
    ensures HandleAll(hs, r, t) == if InCharge(r) in hs then Decide(r, t) else Outcome(r, [])
    decreases |hs|
  {
    if hs != [] {
      var o := Handle(hs[0], r, t);
      assert o == if hs[0] == InCharge(r) then Decide(r, t) else Outcome(r, []);
      if o.room.phase == Over {
        SettledRoomIsLeftAlone(hs[1..], o.room, t);
      } else {
        HandlersRefineDecision(hs[1..], r, t);
      }
    }
  }

  /** The three handlers in any order, with any repetition, are one decision, and the
      tick is an instance. */
  lemma AnyHandlerOrderIsOneDecision(hs: seq<Handler>, r: RoomState, t: Readings, draw: nat)
    requires RoomInv(r) && r.phase == ExpectingInput
    requires OnePlayerPlayed in hs && EveryonePlayed in hs && Timeout in hs
    ensures HandleAll(hs, r, t) == Decide(r, t) == Tick(r, t, draw)
  {
    hide HandleOnePlayerPlayed, HandleEveryonePlayed, HandleTimeout, Decide;
    HandlersRefineDecision(hs, r, t);
    var chain := [OnePlayerPlayed, EveryonePlayed, Timeout];
    HandlersRefineDecision(chain, r, t);
    assert chain[1..] == [EveryonePlayed, Timeout] && chain[1..][1..] == [Timeout];
    assert Tick(r, t, draw) == HandleAll(chain, r, t);
  }

  /** The tick of a started room is its two stages: the countdown, then a verdict only if
      exactly one player has pressed. Two early presses are not punished. */
  lemma StartedTickIsTwoStages(r: RoomState, t: Readings, draw: nat)
    requires RoomInv(r) && r.phase == Started
    ensures var countdown := HandleEveryoneCanPlay(r, t, draw);
            var verdict :=
              if r.EveryonePlayed() || r.NoOnePlayed() then Outcome(countdown.room, [])
              else
                var who := if r.p1.value.inputPressed.Some? then P1 else P2;
                if countdown.room.phase == Started
                then Finish(countdown.room, GameOverEarlyInput(GameResult(r, Some(Other(who)))))
                else LonePress(countdown.room, who, t);
            Tick(r, t, draw) == Outcome(verdict.room, countdown.sent + verdict.sent)
  {
  }

  // ---------- soundness of verdicts ----------

  predicate HasPressed(result: GameResultDTO, a: PlayerAssignment) {
    result.Of(a).inputPressed.Some?
  }

  // `who` is the only player with an input.
  predicate PressedAlone(result: GameResultDTO, who: PlayerAssignment) {
    HasPressed(result, who) && !HasPressed(result, Other(who))
  }

  function ReceiptOf(s: RoomState, a: PlayerAssignment): Option<Time>
  {
    if s.Slot(a).Some? then s.Slot(a).value.inputPressedAtServerTime else None
  }

  /** Verdict `m` is justified in the room `s` it left behind, for a tick at `t`. */
  predicate Justified(s: RoomState, m: GameplayMessage, t: Readings)
    requires m.IsGameOver()
  {
    var result := m.result;
    && s.phase == Over
    && s.IsFull()
    && result.player1 == s.p1.value.GameoverDTO() && result.player1.assignment == P1
    && result.player2 == s.p2.value.GameoverDTO() && result.player2.assignment == P2
    && match m
       case GameOverEarlyInput(_) =>
         && result.winningPlayer.Some?
         && PressedAlone(result, Other(result.winningPlayer.value))
         && s.readyForInputAt.None?
       case GameOverWrongInput(_) =>
         && result.winningPlayer.Some?
         && var loser := Other(result.winningPlayer.value);
         && PressedAlone(result, loser)
         && result.Of(loser).inputPressed != Some(s.expectedInput)
         && s.readyForInputAt.Some?
       case GameOverWin(_) =>
         && result.winningPlayer.Some?
         && s.readyForInputAt.Some?
         && var winner := result.winningPlayer.value;
         && HasPressed(result, winner)
         && ReceiptOf(s, winner).Some?
         && if HasPressed(result, Other(winner))
            then ReceiptOf(s, Other(winner)).Some? && ReceiptOf(s, winner).value < ReceiptOf(s, Other(winner)).value
            else && result.Of(winner).inputPressed == Some(s.expectedInput)
                 && SecondsBetween(ReceiptOf(s, winner).value, t.pressAt) >= s.config.onePlayerInputOnlyTimeout
       case GameOverDraw(_) =>
         && result.winningPlayer.None?
         && s.readyForInputAt.Some?
         && if HasPressed(result, P1)
            then HasPressed(result, P2) && ReceiptOf(s, P1).Some? && ReceiptOf(s, P1) == ReceiptOf(s, P2)
            else && !HasPressed(result, P2)
                 && SecondsBetween(s.readyForInputAt.value, t.timeoutAt) >= s.config.noInputTimeout
       case _ => false
  }

  // Every game over among the publications of `o` is justified in the room `o` leaves.
  predicate Sound(o: Outcome, t: Readings) {
    forall e | e in o.sent && e.message.IsGameOver() :: Justified(o.room, e.message, t)
  }

  lemma LonePressIsSound(r: RoomState, who: PlayerAssignment, t: Readings)
    requires RoomInv(r) && r.phase == ExpectingInput
    requires r.Slot(who).value.inputPressed.Some? && r.Slot(Other(who)).value.inputPressed.None?
    ensures Sound(LonePress(r, who, t), t)
  {
  }

  lemma BothPressedIsSound(r: RoomState, t: Readings)
    requires RoomInv(r) && r.phase == ExpectingInput && r.EveryonePlayed()
    ensures Sound(BothPressed(r), t)
  {
  }

  lemma EarlyIsSound(r: RoomState, who: PlayerAssignment, t: Readings)
    requires RoomInv(r) && r.phase == Started
    requires r.Slot(who).value.inputPressed.Some? && r.Slot(Other(who)).value.inputPressed.None?
    ensures Sound(Finish(r, GameOverEarlyInput(GameResult(r, Some(Other(who))))), t)
  {
  }

  lemma StartedTickIsSound(r: RoomState, t: Readings, draw: nat)
    requires RoomInv(r) && r.phase == Started
    ensures Sound(Tick(r, t, draw), t)
  {
    StartedTickIsTwoStages(r, t, draw);
    var countdown := HandleEveryoneCanPlay(r, t, draw);
    assert forall e | e in countdown.sent :: e.message.GameExpectingInput?;
    if !r.EveryonePlayed() && !r.NoOnePlayed() {
      var who := if r.p1.value.inputPressed.Some? then P1 else P2;
      if countdown.room.phase == ExpectingInput {
        LonePressIsSound(countdown.room, who, t);
      } else {
        EarlyIsSound(countdown.room, who, t);
      }
    }
  }

  lemma TimeoutIsSound(r: RoomState, t: Readings)
    requires RoomInv(r) && r.phase == ExpectingInput && r.NoOnePlayed()
    requires SecondsBetween(r.readyForInputAt.value, t.timeoutAt) >= r.config.noInputTimeout
    ensures Sound(Finish(r, GameOverDraw(GameResult(r, None))), t)
  {
  }

  lemma DecisionIsSound(r: RoomState, t: Readings)
    requires RoomInv(r) && r.phase == ExpectingInput
    ensures Sound(Decide(r, t), t)
  {
    match (r.p1.value.inputPressed, r.p2.value.inputPressed)
    case (Some(_), Some(_)) => BothPressedIsSound(r, t);
    case (Some(_), None) => LonePressIsSound(r, P1, t);
    case (None, Some(_)) => LonePressIsSound(r, P2, t);
    case (None, None) =>
      if SecondsBetween(r.readyForInputAt.value, t.timeoutAt) >= r.config.noInputTimeout {
        TimeoutIsSound(r, t);
      }
  }

  lemma TickIsSound(r: RoomState, t: Readings, draw: nat)
    requires RoomInv(r)
    ensures Sound(Tick(r, t, draw), t)
  {
    match r.phase
    case WaitingPlayers =>
    case Over =>
    case Started => StartedTickIsSound(r, t, draw);
    case ExpectingInput =>
      AnyHandlerOrderIsOneDecision([OnePlayerPlayed, EveryonePlayed, Timeout], r, t, draw);
      DecisionIsSound(r, t);
  }

  lemma StepIsSound(r: RoomState, e: Event)
    requires RoomInv(r)
    ensures if e.TickEvent? then Sound(Step(r, e), e.t) else OnlyLobby(Step(r, e).sent)
  {
    if e.TickEvent? {
      TickIsSound(r, e.t, e.draw);
    } else {
      OnlyTicksPlay(r, e);
    }
  }

  predicate IsVerdict(sent: seq<Envelope>, i: nat) {
    i < |sent| && sent[i].message.IsGameOver()
  }

  /** Over any run from any reachable room, the i-th publication, if it is a verdict, was
      made by the tick `k` and is justified in the room as that tick left it. */
  lemma {:induction false} EveryVerdictIsJustified(r: RoomState, es: seq<Event>, i: nat) returns (k: nat)
    requires RoomInv(r)
    ensures IsVerdict(Run(r, es).sent, i) ==>
              && k < |es| && es[k].TickEvent?
              && Justified(Run(r, es[..k + 1]).room, Run(r, es).sent[i].message, es[k].t)
    decreases |es|
  {
    k := 0;
    if IsVerdict(Run(r, es).sent, i) {
      var o := Step(r, es[0]);
      if i < |o.sent| {
        StepIsSound(r, es[0]);
        assert o.sent[i] in o.sent;
        assert es[..1] == [es[0]];
      } else {
        var j := EveryVerdictIsJustified(o.room, es[1..], i - |o.sent|);
        k := j + 1;
        assert es[..k + 1][1..] == es[1..][..j + 1];
      }
    }
  }
}
