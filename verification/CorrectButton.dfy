/** "The first to press the correct button wins": exactly when the code breaks this promise
    of its documentation. */
module CorrectButton {
  import opened Messages
  import opened Chrono
  import opened RoomModel
  import opened Verdicts
  import opened CleanSlate
  import opened Rounds
  import opened Timing

  datatype Press = Press(input: GameplayInput, timeToPress: int, at: Time)

  // The press the room has on record for a player.
  function Stored(r: RoomState, a: PlayerAssignment): Option<Press>
    requires RoomInv(r)
  {
    var p := r.Slot(a);
    if p.Some? && p.value.inputPressed.Some?
    then Some(Press(p.value.inputPressed.value, p.value.timeToPress.value, p.value.inputPressedAtServerTime.value))
    else None
  }

  predicate Right(press: Option<Press>, expected: GameplayInput) {
    press.Some? && press.value.input == expected
  }

  predicate Wrong(press: Option<Press>, expected: GameplayInput) {
    press.Some? && press.value.input != expected
  }

  // Whom the promise crowns: the first to be right; None if nobody is, or both at once.
  function FirstRight(press1: Option<Press>, press2: Option<Press>, expected: GameplayInput)
    : Option<PlayerAssignment>
  {
    if Right(press1, expected) && Right(press2, expected) then
      if press1.value.at < press2.value.at then Some(P1)
      else if press2.value.at < press1.value.at then Some(P2)
      else None
    else if Right(press1, expected) then Some(P1)
    else if Right(press2, expected) then Some(P2)
    else None
  }

  // A verdict denies the crown to the one who deserves it.
  predicate NamesAnother(sent: seq<Envelope>, deserving: Option<PlayerAssignment>) {
    && deserving.Some?
    && exists e | e in sent :: e.message.IsGameOver() && e.message.result.winningPlayer != deserving
  }

  // A verdict, of whatever kind, names a winner.
  predicate NamesAWinner(sent: seq<Envelope>) {
    exists e | e in sent :: e.message.IsGameOver() && e.message.result.winningPlayer.Some?
  }

  predicate WinIsPublished(sent: seq<Envelope>) {
    exists e | e in sent :: e.message.GameOverWin?
  }

  function WinnerOf(sent: seq<Envelope>): Option<PlayerAssignment> {
    if sent != [] && sent[0].message.GameOverWin? then sent[0].message.result.winningPlayer else None
  }

  // ---------- one tick ----------

  // `mine` alone is right, and it is not the earlier one.
  predicate RightButNotFirst(mine: Option<Press>, other: Option<Press>, expected: GameplayInput) {
    Right(mine, expected) && Wrong(other, expected) && mine.value.at >= other.value.at
  }

  // What goes out when a room of two is settled with `m`.
  lemma FinishSends(r: RoomState, m: GameplayMessage)
    requires RoomInv(r) && r.IsFull() && m.IsGameOver()
    ensures var sent := Finish(r, m).sent;
            && WinnerOf(sent) == (if m.GameOverWin? then m.result.winningPlayer else None)
            && (WinIsPublished(sent) <==> m.GameOverWin?)
            && (NamesAWinner(sent) <==> m.result.winningPlayer.Some?)
            && forall d :: NamesAnother(sent, d) <==> d.Some? && m.result.winningPlayer != d
  {
    var sent := Finish(r, m).sent;
    assert sent[0] in sent && sent[0].message == m;
    BroadcastCarries(r, m);
  }

  lemma SilenceSends(d: Option<PlayerAssignment>)
    ensures WinnerOf([]) == None && !WinIsPublished([]) && !NamesAWinner([]) && !NamesAnother([], d)
  {
  }

  lemma LonePressSends(r: RoomState, who: PlayerAssignment, t: Readings)
    requires RoomInv(r) && r.IsFull() && Stored(r, who).Some? && Stored(r, Other(who)).None?
    ensures var sent := LonePress(r, who, t).sent;
            && !NamesAnother(sent, FirstRight(Stored(r, P1), Stored(r, P2), r.expectedInput))
            && (WinIsPublished(sent) ==> Right(Stored(r, who), r.expectedInput))
            && (Wrong(Stored(r, who), r.expectedInput) ==> NamesAWinner(sent))
            && LonePress(r, who, t).room == r.(phase := LonePress(r, who, t).room.phase)
  {
    hide Broadcast, NamesAnother, NamesAWinner, WinIsPublished, WinnerOf;
    SilenceSends(Some(who));
    SilenceSends(None);
    FinishSends(r, GameOverWrongInput(GameResult(r, Some(Other(who)))));
    FinishSends(r, GameOverWin(GameResult(r, Some(who))));
  }

  lemma BothPressedSends(r: RoomState)
    requires RoomInv(r) && r.EveryonePlayed()
    ensures var sent := BothPressed(r).sent;
            var at1, at2 := Stored(r, P1).value.at, Stored(r, P2).value.at;
            var winner := if at1 < at2 then Some(P1) else if at2 < at1 then Some(P2) else None;
            && WinnerOf(sent) == winner
            && (WinIsPublished(sent) <==> at1 != at2)
            && (NamesAWinner(sent) <==> at1 != at2)
            && forall d :: NamesAnother(sent, d) <==> d.Some? && winner != d
  {
    hide Finish, NamesAnother, NamesAWinner, WinIsPublished, WinnerOf;
    FinishSends(r, GameOverDraw(GameResult(r, None)));
    FinishSends(r, GameOverWin(GameResult(r, Some(P1))));
    FinishSends(r, GameOverWin(GameResult(r, Some(P2))));
  }

  lemma TickIsDecision(r: RoomState, t: Readings, draw: nat)
    requires RoomInv(r) && r.phase == ExpectingInput
    ensures Tick(r, t, draw) == Decide(r, t)
  {
    AnyHandlerOrderIsOneDecision([OnePlayerPlayed, EveryonePlayed, Timeout], r, t, draw);
  }

  // A winner is named although nobody is right: by default after a lone wrong press, or by
  // receipt after two.
  predicate UndeservedWinner(press1: Option<Press>, press2: Option<Press>, expected: GameplayInput) {
    || (Wrong(press1, expected) && press2.None?)
    || (press1.None? && Wrong(press2, expected))
    || (Wrong(press1, expected) && Wrong(press2, expected) && press1.value.at != press2.value.at)
  }

  /** The exact failures. A verdict denies the crown to the first correct presser exactly
      when both have pressed, one right and one wrong, and the right one is not strictly
      earlier. A winner is named although nobody is right exactly when one has pressed wrong
      and the other not at all, or both have pressed wrong at different times; only the
      latter is a WIN. */
  lemma CorrectButtonWinsUnless(r: RoomState, t: Readings, draw: nat)
    requires RoomInv(r) && r.phase == ExpectingInput
    ensures var press1, press2, expected := Stored(r, P1), Stored(r, P2), r.expectedInput;
            var sent := Tick(r, t, draw).sent;
            && (NamesAnother(sent, FirstRight(press1, press2, expected)) <==>
                  RightButNotFirst(press1, press2, expected) || RightButNotFirst(press2, press1, expected))
            && (NamesAWinner(sent) && !Right(press1, expected) && !Right(press2, expected) <==>
                  UndeservedWinner(press1, press2, expected))
            && (WinIsPublished(sent) && !Right(press1, expected) && !Right(press2, expected) <==>
                  Wrong(press1, expected) && Wrong(press2, expected) && press1.value.at != press2.value.at)
  {
    hide Tick, BothPressed, LonePress, NamesAnother, NamesAWinner, WinIsPublished, WinnerOf;
    TickIsDecision(r, t, draw);
    match (r.p1.value.inputPressed, r.p2.value.inputPressed)
    case (Some(_), Some(_)) => BothPressedSends(r);
    case (Some(_), None) => LonePressSends(r, P1, t);
    case (None, Some(_)) => LonePressSends(r, P2, t);
    case (None, None) =>
      SilenceSends(None);
      FinishSends(r, GameOverDraw(GameResult(r, None)));
  }

  // ---------- the ticks of the other phases ----------

  // Nobody can be right before an input has been asked for.
  function Deserving(r: RoomState): Option<PlayerAssignment>
    requires RoomInv(r)
  {
    if r.readyForInputAt.Some? then FirstRight(Stored(r, P1), Stored(r, P2), r.expectedInput) else None
  }

  // The tick of a started room asks for the input.
  predicate Asks(r: RoomState, t: Readings) {
    && r.EveryoneCanPlay()
    && var from := if r.everyoneCanPlayAt.Some? then r.everyoneCanPlayAt.value else t.canPlayAt;
       SecondsBetween(from, t.elapsedAt) >= r.config.secondsBeforeInputRequest
  }

  // Only `who` has pressed.
  predicate Alone(r: RoomState, who: PlayerAssignment)
    requires RoomInv(r)
  {
    Stored(r, who).Some? && Stored(r, Other(who)).None?
  }

  // `who` alone has pressed, and too early, or not what the tick asks for.
  predicate LoneMiss(r: RoomState, who: PlayerAssignment, t: Readings, draw: nat)
    requires RoomInv(r)
  {
    Alone(r, who) && (!Asks(r, t) || Wrong(Stored(r, who), RandomInput(r.config.difficulty, draw)))
  }

  /** Ticks in the other phases deny the crown to nobody, not even the one that asks for the
      input and at once judges a press that came before. They name a winner with nobody
      right exactly when a started room has a lone press that is too early or wrong, and
      never by a WIN. */
  lemma OtherTicksKeepThePromise(r: RoomState, t: Readings, draw: nat)
    requires RoomInv(r) && r.phase != ExpectingInput
    ensures var o := Tick(r, t, draw);
            && !NamesAnother(o.sent, Deserving(o.room))
            && (NamesAWinner(o.sent) && Deserving(o.room).None? <==>
                  r.phase == Started && (LoneMiss(r, P1, t, draw) || LoneMiss(r, P2, t, draw)))
            && (WinIsPublished(o.sent) ==> Deserving(o.room).Some?)
  {
    if r.phase == Started {
      StartedTickKeepsThePromise(r, t, draw);
    } else {
      var o := Tick(r, t, draw);
      assert forall e | e in o.sent :: !e.message.IsGameOver();
    }
  }

  // Publications that are no verdicts do not matter.
  lemma OnlyVerdictsMatter(a: seq<Envelope>, b: seq<Envelope>, d: Option<PlayerAssignment>)
    requires forall e | e in a :: !e.message.IsGameOver()
    ensures NamesAnother(a + b, d) <==> NamesAnother(b, d)
    ensures NamesAWinner(a + b) <==> NamesAWinner(b)
    ensures WinIsPublished(a + b) <==> WinIsPublished(b)
  {
  }

  lemma CountdownIsNoVerdict(r: RoomState, t: Readings, draw: nat)
    requires RoomInv(r) && r.phase == Started
    ensures var c := HandleEveryoneCanPlay(r, t, draw);
            && (forall e | e in c.sent :: !e.message.IsGameOver())
            && c.room.p1 == r.p1 && c.room.p2 == r.p2 && c.room.config == r.config
            && c.room.phase == (if Asks(r, t) then ExpectingInput else Started)
            && (Asks(r, t) ==>
                  && c.room.expectedInput == RandomInput(r.config.difficulty, draw)
                  && c.room.readyForInputAt == Some(t.readyAt))
  {
  }

  lemma StartedTickKeepsThePromise(r: RoomState, t: Readings, draw: nat)
    requires RoomInv(r) && r.phase == Started
    ensures var o := Tick(r, t, draw);
            && !NamesAnother(o.sent, Deserving(o.room))
            && (NamesAWinner(o.sent) && Deserving(o.room).None? <==>
                  LoneMiss(r, P1, t, draw) || LoneMiss(r, P2, t, draw))
            && (WinIsPublished(o.sent) ==> Deserving(o.room).Some?)
  {
    hide Tick, HandleEveryoneCanPlay, HandleOnePlayerPlayed, LonePress, Broadcast;
    hide NamesAnother, NamesAWinner, WinIsPublished, Asks, RandomInput;
    var c := HandleEveryoneCanPlay(r, t, draw);
    CountdownIsNoVerdict(r, t, draw);
    StartedTickIsTwoStages(r, t, draw);
    if r.EveryonePlayed() || r.NoOnePlayed() {
      OnlyVerdictsMatter(c.sent, [], Deserving(c.room));
      SilenceSends(Deserving(c.room));
    } else {
      var who := if r.p1.value.inputPressed.Some? then P1 else P2;
      var early := GameOverEarlyInput(GameResult(r, Some(Other(who))));
      var verdict := if c.room.phase == Started then Finish(c.room, early) else LonePress(c.room, who, t);
      FinishSends(c.room, early);
      LonePressSends(c.room, who, t);
      OnlyVerdictsMatter(c.sent, verdict.sent, Deserving(verdict.room));
    }
  }

  // ---------- what a verdict carries ----------

  // A player's part of a result.
  function Carried(a: PlayerAssignment, press: Option<Press>): PlayerGameResultDTO {
    if press.Some? then PlayerGameResultDTO(a, Some(press.value.input), Some(press.value.timeToPress))
    else PlayerGameResultDTO(a, None, None)
  }

  /** Every verdict of a tick carries, for each player, the input and the declared time of the
      press on record, or neither if there is none. */
  lemma VerdictCarriesThePresses(r: RoomState, t: Readings, draw: nat)
    requires RoomInv(r)
    ensures forall e | e in Tick(r, t, draw).sent && e.message.IsGameOver() ::
              && e.message.result.player1 == Carried(P1, Stored(r, P1))
              && e.message.result.player2 == Carried(P2, Stored(r, P2))
  {
    var o := Tick(r, t, draw);
    TickIsSound(r, t, draw);
    if r.phase == Over {
      assert forall e | e in o.sent :: !e.message.IsGameOver();
    } else {
      TickKeepsPlayers(r, t, draw);
      hide Tick;
      forall e | e in o.sent && e.message.IsGameOver()
        ensures e.message.result.player1 == Carried(P1, Stored(r, P1))
        ensures e.message.result.player2 == Carried(P2, Stored(r, P2))
      {
        assert Justified(o.room, e.message, t);
      }
    }
  }

  // ---------- whole runs ----------

  predicate IsPress(e: Event, id: int) {
    e.Act? && e.id == id && e.action.PlayerInput?
  }

  function PressOf(e: Event): Press
    requires e.Act? && e.action.PlayerInput?
  {
    Press(e.action.inputPressed, e.action.timeToPress, e.at)
  }

  function FirstPress(id: int, es: seq<Event>): Option<Press> {
    if es == [] then None
    else if IsPress(es[0], id) then Some(PressOf(es[0]))
    else FirstPress(id, es[1..])
  }

  function LastPress(id: int, es: seq<Event>): Option<Press> {
    if es == [] then None
    else if LastPress(id, es[1..]).Some? then LastPress(id, es[1..])
    else if IsPress(es[0], id) then Some(PressOf(es[0]))
    else None
  }

  lemma ActionStores(r: RoomState, id: int, action: PlayerAction, at: Time, a: PlayerAssignment)
    requires RoomInv(r) && DistinctIds(r) && r.phase == ExpectingInput
    requires HandlePlayerMessage(r, id, action, at).room.phase == ExpectingInput
    ensures var s := HandlePlayerMessage(r, id, action, at).room;
            && IdOf(s.Slot(a)) == IdOf(r.Slot(a))
            && Stored(s, a) == if action.PlayerInput? && IdOf(r.Slot(a)) == Some(id)
                               then Some(Press(action.inputPressed, action.timeToPress, at)) else Stored(r, a)
  {
  }

  lemma StepStores(r: RoomState, e: Event, a: PlayerAssignment)
    requires RoomInv(r) && DistinctIds(r) && r.phase == ExpectingInput && Step(r, e).room.phase == ExpectingInput
    ensures var s := Step(r, e).room;
            && DistinctIds(s) && s.expectedInput == r.expectedInput && IdOf(s.Slot(a)) == IdOf(r.Slot(a))
            && Stored(s, a) == if IsPress(e, r.Slot(a).value.id) then Some(PressOf(e)) else Stored(r, a)
  {
    hide Tick, HandlePlayerMessage;
    StaysInRound(r, e);
    match e
    case Join(_, _) =>
    case Leave(_) =>
    case Act(id, action, at) =>
      ActionKeepsDistinctIds(r, id, action, at);
      ActionStores(r, id, action, at, a);
    case TickEvent(t, draw) => TickWithoutVerdict(r, t, draw);
  }

  /** The exact effect of resending: as long as the round is undecided, what the room has on
      record is each player's last press, whatever it sent before. */
  lemma {:induction false} LastPressIsStored(r: RoomState, es: seq<Event>, a: PlayerAssignment)
    requires RoomInv(r) && DistinctIds(r) && StaysExpecting(r, es)
    ensures var s := Run(r, es).room;
            var last := LastPress(r.Slot(a).value.id, es);
            && s.phase == ExpectingInput && s.expectedInput == r.expectedInput
            && Stored(s, a) == if last.Some? then last else Stored(r, a)
    decreases |es|
  {
    hide Step, Stored;
    if es != [] {
      StepStores(r, es[0], a);
      LastPressIsStored(Step(r, es[0]).room, es[1..], a);
    }
  }

  // Without resends there is at most one press of each player.
  lemma {:induction false} OnePressEach(r: RoomState, es: seq<Event>, a: PlayerAssignment)
    requires RoomInv(r) && DistinctIds(r) && StaysExpecting(r, es) && NoResend(r, es)
    ensures var id := r.Slot(a).value.id;
            && LastPress(id, es) == FirstPress(id, es)
            && (Stored(r, a).Some? ==> FirstPress(id, es).None?)
    decreases |es|
  {
    hide Step;
    if es != [] {
      StepStores(r, es[0], a);
      OnePressEach(Step(r, es[0]).room, es[1..], a);
    }
  }

  // What is on record for a player after the events: its last press, also if it came
  // before the input was asked for.
  function LastOnRecord(r: RoomState, es: seq<Event>, a: PlayerAssignment): Option<Press>
    requires RoomInv(r) && r.Slot(a).Some?
  {
    var last := LastPress(r.Slot(a).value.id, es);
    if last.Some? then last else Stored(r, a)
  }

  // The press on record when the input was asked for, else the first among the events.
  function FirstOnRecord(r: RoomState, es: seq<Event>, a: PlayerAssignment): Option<Press>
    requires RoomInv(r) && r.Slot(a).Some?
  {
    if Stored(r, a).Some? then Stored(r, a) else FirstPress(r.Slot(a).value.id, es)
  }

  /** Over a whole round, from the request on: the verdict is wrong about the players' last
      presses in exactly the same cases. */
  lemma LastPressesDecide(r: RoomState, es: seq<Event>, t: Readings, draw: nat)
    requires RoomInv(r) && DistinctIds(r) && StaysExpecting(r, es)
    ensures var press1, press2, expected := LastOnRecord(r, es, P1), LastOnRecord(r, es, P2), r.expectedInput;
            var sent := Tick(Run(r, es).room, t, draw).sent;
            && (NamesAnother(sent, FirstRight(press1, press2, expected)) <==>
                  RightButNotFirst(press1, press2, expected) || RightButNotFirst(press2, press1, expected))
            && (NamesAWinner(sent) && !Right(press1, expected) && !Right(press2, expected) <==>
                  UndeservedWinner(press1, press2, expected))
            && (WinIsPublished(sent) && !Right(press1, expected) && !Right(press2, expected) <==>
                  Wrong(press1, expected) && Wrong(press2, expected) && press1.value.at != press2.value.at)
  {
    hide Tick, NamesAnother, NamesAWinner, WinIsPublished, FirstRight, Stored;
    LastPressIsStored(r, es, P1);
    LastPressIsStored(r, es, P2);
    CorrectButtonWinsUnless(Run(r, es).room, t, draw);
  }

  /** If nobody resends, these are the only presses: the first player to press the correct
      button is denied the crown exactly when the other's wrong press was not received later. */
  lemma FirstCorrectPressWinsUnless(r: RoomState, es: seq<Event>, t: Readings, draw: nat)
    requires RoomInv(r) && DistinctIds(r) && StaysExpecting(r, es) && NoResend(r, es)
    ensures var press1, press2, expected := FirstOnRecord(r, es, P1), FirstOnRecord(r, es, P2), r.expectedInput;
            NamesAnother(Tick(Run(r, es).room, t, draw).sent, FirstRight(press1, press2, expected)) <==>
              RightButNotFirst(press1, press2, expected) || RightButNotFirst(press2, press1, expected)
  {
    hide Tick, NamesAnother, FirstRight, Stored;
    OnePressEach(r, es, P1);
    OnePressEach(r, es, P2);
    LastPressesDecide(r, es, t, draw);
  }

  /** Resending forfeits the lead: P1 is right, P2 is right later, P1 sends again still
      later, and the next tick crowns P2, although P1 was first to press the correct button. */
  lemma ResendingForfeitsTheLead(r: RoomState, time1: int, at1: Time, time2: int, at2: Time, again: int, at3: Time,
                                 t: Readings, draw: nat)
    requires RoomInv(r) && DistinctIds(r) && r.phase == ExpectingInput && r.NoOnePlayed() && at1 < at2 < at3
    ensures var id1, id2, right := r.p1.value.id, r.p2.value.id, r.expectedInput;
            var es := [Act(id1, PlayerInput(right, time1), at1), Act(id2, PlayerInput(right, time2), at2)] +
                      [Act(id1, PlayerInput(right, again), at3)];
            var sent := Tick(Run(r, es).room, t, draw).sent;
            && FirstRight(FirstPress(id1, es), FirstPress(id2, es), right) == Some(P1)
            && WinnerOf(sent) == Some(P2)
            && NamesAnother(sent, Some(P1))
  {
    hide Tick, BothPressed, NamesAnother;
    var id1, id2, right := r.p1.value.id, r.p2.value.id, r.expectedInput;
    var presses := [Act(id1, PlayerInput(right, time1), at1), Act(id2, PlayerInput(right, time2), at2)];
    var resend := [Act(id1, PlayerInput(right, again), at3)];
    var es := presses + resend;
    assert es[1..] == [presses[1]] + resend;
    assert FirstPress(id1, es) == Some(Press(right, time1, at1));
    assert FirstPress(id2, es[1..]) == Some(Press(right, time2, at2));
    BothPress(r, right, time1, at1, right, time2, at2);
    RunAppend(r, presses, resend);
    var both := Run(r, presses).room;
    RunOne(both, resend[0]);
    var s := Run(r, es).room;
    assert s == both.(p1 := Some(Pressed(both.p1.value, right, again, at3)));
    TickIsDecision(s, t, draw);
    BothPressedSends(s);
  }

  // ---------- the failure is reachable ----------

  // All readings of one tick, at one moment.
  function Moment(at: Time): Readings {
    Readings(at, at, at, at, at)
  }

  const NEWCOMER_1 := NewPlayer(1, "A", P1)
  const NEWCOMER_2 := NewPlayer(2, "B", P2)

  function Presses(press1: Press, press2: Press): seq<Event> {
    [Act(1, PlayerInput(press1.input, press1.timeToPress), press1.at),
     Act(2, PlayerInput(press2.input, press2.timeToPress), press2.at)]
  }

  function Countdown(from: Time, seconds: int): seq<Event> {
    [TickEvent(Moment(from), 0), TickEvent(Moment(from + seconds * NANOS_PER_SECOND), 0)]
  }

  const BOTH_CAN_PLAY: seq<Event> := [Act(1, NotifyCanPlay, 0), Act(2, NotifyCanPlay, 0)]

  // A first round from a new room: two players join and get ready, both can play, the
  // countdown runs out, both press.
  function Duel(seconds: int, press1: Press, press2: Press): seq<Event> {
    OpeningMoves(NEWCOMER_1, NEWCOMER_2, Moment(0)) +
    (BOTH_CAN_PLAY + (Countdown(0, seconds) + Presses(press1, press2)))
  }

  // The part after the opening, from the freshly started room.
  lemma StartedDuelPlays(r: RoomState, n: int, press1: Press, press2: Press)
    requires RoomInv(r) && r.phase == Started && r.NoOnePlayed() && r.everyoneCanPlayAt.None?
    requires r.config.secondsBeforeInputRequest == n > 0
    requires IdOf(r.p1) == Some(1) && IdOf(r.p2) == Some(2)
    ensures var end := Run(r, BOTH_CAN_PLAY + (Countdown(0, n) + Presses(press1, press2))).room;
            && end.phase == ExpectingInput && end.expectedInput == RandomInput(r.config.difficulty, 0)
            && Stored(end, P1) == Some(press1) && Stored(end, P2) == Some(press2)
  {
    hide Step, RandomInput;
    BothCanPlayThenInputIsRequested(r, 0, Moment(0), Moment(n * NANOS_PER_SECOND), 0);
    RunAppend(r, BOTH_CAN_PLAY, Countdown(0, n) + Presses(press1, press2));
    var ready := Run(r, BOTH_CAN_PLAY).room;
    RunAppend(ready, Countdown(0, n), Presses(press1, press2));
    var asked := Run(ready, Countdown(0, n)).room;
    BothPress(asked, press1.input, press1.timeToPress, press1.at, press2.input, press2.timeToPress, press2.at);
  }

  lemma DuelPlays(config: RoomConfig, press1: Press, press2: Press)
    requires config.secondsBeforeInputRequest > 0
    ensures var r := Run(NewRoom(config), Duel(config.secondsBeforeInputRequest, press1, press2)).room;
            && r.phase == ExpectingInput && r.expectedInput == RandomInput(config.difficulty, 0)
            && Stored(r, P1) == Some(press1) && Stored(r, P2) == Some(press2)
  {
    hide Step, RandomInput, Stored;
    var n := config.secondsBeforeInputRequest;
    OpeningMovesStartTheRoom(config, NEWCOMER_1, NEWCOMER_2, Moment(0));
    RunAppend(NewRoom(config), OpeningMoves(NEWCOMER_1, NEWCOMER_2, Moment(0)),
              BOTH_CAN_PLAY + (Countdown(0, n) + Presses(press1, press2)));
    StartedDuelPlays(FreshlyStarted(config, NEWCOMER_1, NEWCOMER_2), n, press1, press2);
  }

  lemma {:induction false} RunsWithoutJoinsAreLegal(r: RoomState, es: seq<Event>)
    requires RoomInv(r) && forall e | e in es :: !e.Join?
    ensures LegalRun(r, es)
    decreases |es|
  {
    hide Step;
    if es != [] {
      RunsWithoutJoinsAreLegal(Step(r, es[0]).room, es[1..]);
    }
  }

  lemma TimedOne(e: Event, last: Time)
    ensures TimedRun([e], last) <==> After(e, last)
    ensures LastReadingOf([e], last) == LastReading(e, last)
  {
    assert [e][1..] == [];
  }

  lemma TimedPair(e1: Event, e2: Event, last: Time)
    ensures TimedRun([e1, e2], last) <==> After(e1, last) && After(e2, LastReading(e1, last))
    ensures LastReadingOf([e1, e2], last) == LastReading(e2, LastReading(e1, last))
  {
    TimedOne(e2, LastReading(e1, last));
    assert [e1, e2][1..] == [e2];
  }

  lemma OpeningIsTimed(at: Time)
    ensures TimedRun(OpeningMoves(NEWCOMER_1, NEWCOMER_2, Moment(at)), at)
    ensures LastReadingOf(OpeningMoves(NEWCOMER_1, NEWCOMER_2, Moment(at)), at) == at
  {
    var opening := OpeningMoves(NEWCOMER_1, NEWCOMER_2, Moment(at));
    assert opening == [opening[0], opening[1]] + ([opening[2], opening[3]] + [opening[4]]);
    TimedAppend([opening[0], opening[1]], [opening[2], opening[3]] + [opening[4]], at);
    TimedAppend([opening[2], opening[3]], [opening[4]], at);
    TimedPair(opening[0], opening[1], at);
    TimedPair(opening[2], opening[3], at);
    TimedOne(opening[4], at);
  }

  // A run that opens a new room and has no other joins is legal.
  lemma OpeningIsLegal(config: RoomConfig, later: seq<Event>)
    requires forall e | e in later :: !e.Join?
    ensures LegalRun(NewRoom(config), OpeningMoves(NEWCOMER_1, NEWCOMER_2, Moment(0)) + later)
  {
    var opening := OpeningMoves(NEWCOMER_1, NEWCOMER_2, Moment(0));
    var es := opening + later;
    var r1 := Step(NewRoom(config), es[0]).room;
    assert es[0] == opening[0] && es[1] == opening[1];
    assert forall i | 2 <= i < |opening| :: !opening[i].Join?;
    RunsWithoutJoinsAreLegal(Step(r1, es[1]).room, es[1..][1..]);
  }

  /** The round obeys the rules: a clock that never goes back, and joins from outside. */
  lemma DuelIsLegal(config: RoomConfig, press1: Press, press2: Press)
    requires config.secondsBeforeInputRequest > 0
    requires config.secondsBeforeInputRequest * NANOS_PER_SECOND <= press1.at <= press2.at
    ensures TimedRun(Duel(config.secondsBeforeInputRequest, press1, press2), 0)
    ensures LegalRun(NewRoom(config), Duel(config.secondsBeforeInputRequest, press1, press2))
  {
    var n := config.secondsBeforeInputRequest;
    var opening := OpeningMoves(NEWCOMER_1, NEWCOMER_2, Moment(0));
    var later := BOTH_CAN_PLAY + (Countdown(0, n) + Presses(press1, press2));
    TimedAppend(opening, later, 0);
    TimedAppend(BOTH_CAN_PLAY, Countdown(0, n) + Presses(press1, press2), 0);
    TimedAppend(Countdown(0, n), Presses(press1, press2), 0);
    OpeningIsTimed(0);
    TimedPair(BOTH_CAN_PLAY[0], BOTH_CAN_PLAY[1], 0);
    TimedPair(Countdown(0, n)[0], Countdown(0, n)[1], 0);
    TimedPair(Presses(press1, press2)[0], Presses(press1, press2)[1], n * NANOS_PER_SECOND);
    OpeningIsLegal(config, later);
  }

  // P1 presses East where South is asked for, a nanosecond before P2's South.
  const WRONG_FIRST: seq<Event> :=
    Duel(5, Press(East, 900, 6 * NANOS_PER_SECOND), Press(South, 200, 6 * NANOS_PER_SECOND + 1))

  const EASY_ROOM := NewRoom(RoomConfig(Easy, 5, 5, 1))

  /** From a new room, under a monotone clock, the wrong button wins: P2 is the only one to
      press the right one, and the tick crowns P1. */
  lemma WrongButtonCanWin(t: Readings, draw: nat)
    ensures TimedRun(WRONG_FIRST, 0) && LegalRun(EASY_ROOM, WRONG_FIRST)
    ensures var r := Run(EASY_ROOM, WRONG_FIRST).room;
            var sent := Step(r, TickEvent(t, draw)).sent;
            && r.phase == ExpectingInput
            && FirstRight(Stored(r, P1), Stored(r, P2), r.expectedInput) == Some(P2)
            && WinnerOf(sent) == Some(P1)
            && NamesAnother(sent, Some(P2))
  {
    hide Tick, BothPressed, Duel, LegalRun, TimedRun, NamesAnother;
    var press1 := Press(East, 900, 6 * NANOS_PER_SECOND);
    var press2 := Press(South, 200, 6 * NANOS_PER_SECOND + 1);
    DuelPlays(EASY_ROOM.config, press1, press2);
    DuelIsLegal(EASY_ROOM.config, press1, press2);
    var r := Run(EASY_ROOM, WRONG_FIRST).room;
    TickIsDecision(r, t, draw);
    BothPressedSends(r);
  }
}
