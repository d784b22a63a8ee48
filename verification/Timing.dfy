/** Real-time behaviour of a round under a clock whose readings never decrease. */
module Timing {
  import opened Messages
  import opened Chrono
  import opened RoomModel

  // ---------- readings along a run ----------

  // Only ticks and inputs read the clock.
  predicate After(e: Event, last: Time) {
    match e
    case TickEvent(t, _) => t.Since(last)
    case Act(_, action, at) => action.PlayerInput? ==> last <= at
    case _ => true
  }

  function LastReading(e: Event, last: Time): Time {
    match e
    case TickEvent(t, _) => t.timeoutAt
    case Act(_, action, at) => if action.PlayerInput? then at else last
    case _ => last
  }

  predicate TimedRun(es: seq<Event>, last: Time) {
    es == [] || (After(es[0], last) && TimedRun(es[1..], LastReading(es[0], last)))
  }

  function LastReadingOf(es: seq<Event>, last: Time): Time {
    if es == [] then last else LastReadingOf(es[1..], LastReading(es[0], last))
  }

  lemma {:induction false} TimedAppend(a: seq<Event>, b: seq<Event>, last: Time)
    ensures TimedRun(a + b, last) <==> TimedRun(a, last) && TimedRun(b, LastReadingOf(a, last))
    ensures LastReadingOf(a + b, last) == LastReadingOf(b, LastReadingOf(a, last))
    decreases |a|
  {
    if a == [] {
      assert a + b == b;
    } else {
      assert (a + b)[1..] == a[1..] + b;
      TimedAppend(a[1..], b, LastReading(a[0], last));
    }
  }

  // ---------- stored times and the countdown ----------

  predicate NotAfter(t: Option<Time>, now: Time) {
    t.Some? ==> t.value <= now
  }

  predicate ReceiptNotAfter(p: Option<PlayerState>, now: Time) {
    p.Some? ==> NotAfter(p.value.inputPressedAtServerTime, now)
  }

  /** No stored time lies in the future, and the input was requested only after the full
      countdown. */
  predicate TimeInv(r: RoomState, now: Time) {
    && NotAfter(r.everyoneCanPlayAt, now)
    && NotAfter(r.readyForInputAt, now)
    && ReceiptNotAfter(r.p1, now)
    && ReceiptNotAfter(r.p2, now)
    && (r.readyForInputAt.Some? ==>
          && r.everyoneCanPlayAt.Some?
          && r.readyForInputAt.value - r.everyoneCanPlayAt.value
               >= r.config.secondsBeforeInputRequest * NANOS_PER_SECOND)
  }

  lemma CountdownKeepsTimeInv(r: RoomState, t: Readings, draw: nat, last: Time)
    requires RoomInv(r) && TimeInv(r, last) && t.Since(last)
    ensures TimeInv(HandleEveryoneCanPlay(r, t, draw).room, t.readyAt)
  {
    var o := HandleEveryoneCanPlay(r, t, draw);
    if o.room.phase == ExpectingInput && r.phase == Started {
      var from := o.room.everyoneCanPlayAt.value;
      if r.config.secondsBeforeInputRequest >= 0 {
        ThresholdInNanoseconds(from, t.elapsedAt, r.config.secondsBeforeInputRequest);
      }
    }
  }

  lemma VerdictsKeepTimeInv(r: RoomState, t: Readings, now: Time)
    requires RoomInv(r) && TimeInv(r, now)
    ensures TimeInv(HandleOnePlayerPlayed(r, t).room, now)
    ensures TimeInv(HandleEveryonePlayed(r).room, now)
    ensures TimeInv(HandleTimeout(r, t).room, now)
  {
  }

  lemma LaterTimeInv(r: RoomState, now: Time, later: Time)
    requires TimeInv(r, now) && now <= later
    ensures TimeInv(r, later)
  {
  }

  lemma TickKeepsTimeInv(r: RoomState, t: Readings, draw: nat, last: Time)
    requires RoomInv(r) && TimeInv(r, last) && t.Since(last)
    ensures TimeInv(Tick(r, t, draw).room, t.timeoutAt)
  {
    LaterTimeInv(r, last, t.timeoutAt);
    match r.phase
    case WaitingPlayers =>
    case Over =>
    case Started =>
      var s := HandleEveryoneCanPlay(r, t, draw).room;
      CountdownKeepsTimeInv(r, t, draw, last);
      LaterTimeInv(s, t.readyAt, t.timeoutAt);
      VerdictsKeepTimeInv(s, t, t.timeoutAt);
    case ExpectingInput =>
      var s := HandleOnePlayerPlayed(r, t).room;
      VerdictsKeepTimeInv(r, t, t.timeoutAt);
      VerdictsKeepTimeInv(s, t, t.timeoutAt);
      VerdictsKeepTimeInv(HandleEveryonePlayed(s).room, t, t.timeoutAt);
  }

  lemma JoinAndLeaveKeepTimeInv(r: RoomState, id: int, nickname: string, last: Time)
    requires RoomInv(r) && TimeInv(r, last)
    ensures TimeInv(AddPlayer(r, id, nickname).room, last)
    ensures TimeInv(RemovePlayer(r, id).room, last)
  {
  }

  lemma FlagsKeepTimeInv(r: RoomState, a: PlayerAssignment, b: bool, last: Time)
    requires RoomInv(r) && TimeInv(r, last) && r.Slot(a).Some?
    ensures TimeInv(HandleSetReadyState(r, a, b).room, last)
    ensures TimeInv(HandleNotifyCanPlay(r, a).room, last)
    ensures TimeInv(HandleSetReplayReadyState(r, a, b).room, last)
  {
  }

  lemma InputKeepsTimeInv(r: RoomState, a: PlayerAssignment, input: GameplayInput, time: int, at: Time, last: Time)
    requires RoomInv(r) && TimeInv(r, last) && r.Slot(a).Some? && last <= at
    ensures TimeInv(HandleInput(r, a, input, time, at).room, at)
  {
    LaterTimeInv(r, last, at);
  }

  lemma ActionKeepsTimeInv(r: RoomState, id: int, action: PlayerAction, at: Time, last: Time)
    requires RoomInv(r) && TimeInv(r, last) && (action.PlayerInput? ==> last <= at)
    ensures TimeInv(HandlePlayerMessage(r, id, action, at).room, if action.PlayerInput? then at else last)
  {
    hide RemovePlayer, HandleSetReadyState, HandleNotifyCanPlay, HandleInput, HandleSetReplayReadyState;
    if r.SlotOf(id).Some? {
      var a := r.SlotOf(id).value;
      match action
      case SetReadyState(b) => FlagsKeepTimeInv(r, a, b, last);
      case NotifyCanPlay => FlagsKeepTimeInv(r, a, true, last);
      case PlayerInput(input, time) => InputKeepsTimeInv(r, a, input, time, at, last);
      case SetReplayReadyState(b) => FlagsKeepTimeInv(r, a, b, last);
      case LeaveGame => JoinAndLeaveKeepTimeInv(r, id, "", last);
      case JoinGame(_, _) =>
    } else if action.PlayerInput? {
      LaterTimeInv(r, last, at);
    }
  }

  lemma StepKeepsTimeInv(r: RoomState, e: Event, last: Time)
    requires RoomInv(r) && TimeInv(r, last) && After(e, last)
    ensures TimeInv(Step(r, e).room, LastReading(e, last))
  {
    match e
    case Join(id, nickname) => JoinAndLeaveKeepTimeInv(r, id, nickname, last);
    case Leave(id) => JoinAndLeaveKeepTimeInv(r, id, "", last);
    case Act(id, action, at) => ActionKeepsTimeInv(r, id, action, at, last);
    case TickEvent(t, draw) => TickKeepsTimeInv(r, t, draw, last);
  }

  lemma {:induction false} RunKeepsTimeInv(r: RoomState, es: seq<Event>, last: Time)
    requires RoomInv(r) && TimeInv(r, last) && TimedRun(es, last)
    ensures TimeInv(Run(r, es).room, LastReadingOf(es, last))
    decreases |es|
  {
    if es != [] {
      StepKeepsTimeInv(r, es[0], last);
      RunKeepsTimeInv(Step(r, es[0]).room, es[1..], LastReading(es[0], last));
    }
  }

  predicate RequestsInput(sent: seq<Envelope>) {
    exists e | e in sent :: e.message.GameExpectingInput?
  }

  lemma RequestSetsReady(r: RoomState, t: Readings, draw: nat)
    requires RoomInv(r)
    ensures RequestsInput(Tick(r, t, draw).sent) ==> Tick(r, t, draw).room.readyForInputAt.Some?
  {
    match r.phase
    case WaitingPlayers =>
    case Over =>
    case Started =>
      var o1 := HandleEveryoneCanPlay(r, t, draw);
      var o2 := HandleOnePlayerPlayed(o1.room, t);
      assert o2.room.readyForInputAt == o1.room.readyForInputAt;
      assert !RequestsInput(o2.sent);
    case ExpectingInput =>
  }

  /** The player is asked for an input no sooner than the configured number of whole
      seconds after the countdown began, in every run of a new room. */
  lemma CountdownIsFull(config: RoomConfig, es: seq<Event>, last: Time, e: Event)
    requires TimedRun(es, last) && After(e, LastReadingOf(es, last))
    ensures var o := Step(Run(NewRoom(config), es).room, e);
            RequestsInput(o.sent) ==>
              && o.room.everyoneCanPlayAt.Some? && o.room.readyForInputAt.Some?
              && o.room.readyForInputAt.value - o.room.everyoneCanPlayAt.value
                   >= o.room.config.secondsBeforeInputRequest * NANOS_PER_SECOND
              && o.room.readyForInputAt.value <= LastReading(e, LastReadingOf(es, last))
  {
    var r := Run(NewRoom(config), es).room;
    RunKeepsTimeInv(NewRoom(config), es, last);
    if e.TickEvent? {
      RequestSetsReady(r, e.t, e.draw);
    } else {
      OnlyTicksPlay(r, e);
    }
    StepKeepsTimeInv(r, e, LastReadingOf(es, last));
  }

  // ---------- when the countdown begins ----------

  // The run stays in the round `r` is in: nobody leaves and no replay starts.
  predicate SameRound(r: RoomState, es: seq<Event>)
    requires RoomInv(r)
    decreases |es|
  {
    es == [] ||
    (var s := Step(r, es[0]).room;
     s.phase != WaitingPlayers && !(r.phase == Over && s.phase == Started) && SameRound(s, es[1..]))
  }

  // The first reading of the first tick that finds the room started and both able to play.
  function FirstTickBothCanPlay(r: RoomState, es: seq<Event>): Option<Time>
    requires RoomInv(r)
    decreases |es|
  {
    if es == [] then None
    else if es[0].TickEvent? && r.phase == Started && r.EveryoneCanPlay() then Some(es[0].t.canPlayAt)
    else FirstTickBothCanPlay(Step(r, es[0]).room, es[1..])
  }

  lemma TickStartsCountdown(r: RoomState, t: Readings, draw: nat)
    requires RoomInv(r) && r.phase != WaitingPlayers
    requires !(r.phase == Over && Tick(r, t, draw).room.phase == Started)
    ensures Tick(r, t, draw).room.everyoneCanPlayAt ==
            if r.everyoneCanPlayAt.None? && r.phase == Started && r.EveryoneCanPlay()
            then Some(t.canPlayAt) else r.everyoneCanPlayAt
  {
  }

  lemma ActionKeepsCountdown(r: RoomState, id: int, action: PlayerAction, at: Time)
    requires RoomInv(r) && r.phase != WaitingPlayers
    requires HandlePlayerMessage(r, id, action, at).room.phase != WaitingPlayers
    ensures HandlePlayerMessage(r, id, action, at).room.everyoneCanPlayAt == r.everyoneCanPlayAt
  {
  }

  lemma StepStartsCountdown(r: RoomState, e: Event)
    requires RoomInv(r) && r.phase != WaitingPlayers
    requires var s := Step(r, e).room; s.phase != WaitingPlayers && !(r.phase == Over && s.phase == Started)
    ensures Step(r, e).room.everyoneCanPlayAt ==
            if r.everyoneCanPlayAt.None? && e.TickEvent? && r.phase == Started && r.EveryoneCanPlay()
            then Some(e.t.canPlayAt) else r.everyoneCanPlayAt
  {
    hide Tick, HandlePlayerMessage;
    match e
    case Join(_, _) =>
    case Leave(_) =>
    case Act(id, action, at) => ActionKeepsCountdown(r, id, action, at);
    case TickEvent(t, draw) => TickStartsCountdown(r, t, draw);
  }

  /** Within a round the countdown begins at the first tick at which both could play, and is
      never restarted. */
  lemma {:induction false} CountdownBeginsWhenBothCanPlay(r: RoomState, es: seq<Event>)
    requires RoomInv(r) && r.phase != WaitingPlayers && SameRound(r, es)
    ensures Run(r, es).room.everyoneCanPlayAt ==
            if r.everyoneCanPlayAt.Some? then r.everyoneCanPlayAt else FirstTickBothCanPlay(r, es)
    decreases |es|
  {
    if es != [] {
      StepStartsCountdown(r, es[0]);
      CountdownBeginsWhenBothCanPlay(Step(r, es[0]).room, es[1..]);
    }
  }

  // ---------- a round ends ----------

  // The room is in EXPECTING_INPUT now and after each event.
  predicate StaysExpecting(r: RoomState, es: seq<Event>)
    requires RoomInv(r)
    decreases |es|
  {
    r.phase == ExpectingInput && (es == [] || StaysExpecting(Step(r, es[0]).room, es[1..]))
  }

  // An input from a player who has already pressed.
  predicate Resends(r: RoomState, e: Event) {
    && e.Act? && e.action.PlayerInput?
    && r.SlotOf(e.id).Some?
    && r.Slot(r.SlotOf(e.id).value).value.inputPressed.Some?
  }

  predicate NoResend(r: RoomState, es: seq<Event>)
    requires RoomInv(r)
    decreases |es|
  {
    es == [] || (!Resends(r, es[0]) && NoResend(Step(r, es[0]).room, es[1..]))
  }

  // `a` has pressed the expected input, received no later than `deadline`.
  predicate PressedWell(r: RoomState, a: PlayerAssignment, deadline: Time)
    requires RoomInv(r)
  {
    && r.phase == ExpectingInput
    && r.Slot(a).value.inputPressed == Some(r.expectedInput)
    && r.Slot(a).value.inputPressedAtServerTime.value <= deadline
  }

  // A tick after the no-input timeout settles the round unless somebody pressed well.
  lemma TickAfterTimeout(r: RoomState, t: Readings, draw: nat, last: Time) returns (a: PlayerAssignment)
    requires RoomInv(r) && TimeInv(r, last) && t.Since(last)
    requires r.phase == ExpectingInput && r.config.noInputTimeout >= 0
    requires t.timeoutAt >= r.readyForInputAt.value + r.config.noInputTimeout * NANOS_PER_SECOND
    ensures Tick(r, t, draw).room.phase == ExpectingInput ==> PressedWell(Tick(r, t, draw).room, a, t.timeoutAt)
  {
    ThresholdInNanoseconds(r.readyForInputAt.value, t.timeoutAt, r.config.noInputTimeout);
    a := if r.p1.value.inputPressed.Some? then P1 else P2;
  }

  // An expecting room that ticks without a verdict does not change.
  lemma TickWithoutVerdict(r: RoomState, t: Readings, draw: nat)
    requires RoomInv(r) && r.phase == ExpectingInput && Tick(r, t, draw).room.phase == ExpectingInput
    ensures Tick(r, t, draw).room == r
  {
  }

  lemma ActionInRound(r: RoomState, id: int, action: PlayerAction, at: Time)
    requires RoomInv(r) && r.phase == ExpectingInput
    requires HandlePlayerMessage(r, id, action, at).room.phase == ExpectingInput
    ensures var s := HandlePlayerMessage(r, id, action, at).room;
            && s.expectedInput == r.expectedInput && s.config == r.config && s.readyForInputAt == r.readyForInputAt
            && forall a | !(action.PlayerInput? && r.SlotOf(id) == Some(a)) ::
                 && s.Slot(a).value.inputPressed == r.Slot(a).value.inputPressed
                 && s.Slot(a).value.inputPressedAtServerTime == r.Slot(a).value.inputPressedAtServerTime
  {
  }

  // The round's data survive every event that leaves the room expecting an input.
  lemma StaysInRound(r: RoomState, e: Event)
    requires RoomInv(r) && r.phase == ExpectingInput && Step(r, e).room.phase == ExpectingInput
    ensures var s := Step(r, e).room;
            s.readyForInputAt == r.readyForInputAt && s.config == r.config && s.expectedInput == r.expectedInput
  {
    match e
    case Join(_, _) =>
    case Leave(_) =>
    case Act(id, action, at) => ActionInRound(r, id, action, at);
    case TickEvent(t, draw) => TickWithoutVerdict(r, t, draw);
  }

  lemma PressIsKept(r: RoomState, e: Event, a: PlayerAssignment, deadline: Time)
    requires RoomInv(r) && PressedWell(r, a, deadline) && !Resends(r, e)
    requires Step(r, e).room.phase == ExpectingInput
    ensures PressedWell(Step(r, e).room, a, deadline)
  {
    match e
    case Join(_, _) =>
    case Leave(_) =>
    case Act(id, action, at) => ActionInRound(r, id, action, at);
    case TickEvent(t, draw) => TickWithoutVerdict(r, t, draw);
  }

  lemma {:induction false} StaysAppend(r: RoomState, a: seq<Event>, b: seq<Event>)
    requires RoomInv(r)
    ensures StaysExpecting(r, a + b) <==> StaysExpecting(r, a) && StaysExpecting(Run(r, a).room, b)
    decreases |a|
  {
    hide Step;
    if a == [] {
      assert a + b == b;
    } else {
      assert (a + b)[1..] == a[1..] + b && (a + b)[0] == a[0];
      RunFirst(r, a);
      StaysAppend(Step(r, a[0]).room, a[1..], b);
    }
  }

  lemma {:induction false} RoundDataAreKept(r: RoomState, es: seq<Event>)
    requires RoomInv(r) && StaysExpecting(r, es)
    ensures var s := Run(r, es).room;
            && s.phase == ExpectingInput && s.readyForInputAt == r.readyForInputAt
            && s.config == r.config && s.expectedInput == r.expectedInput
    decreases |es|
  {
    hide Step;
    if es != [] {
      StaysInRound(r, es[0]);
      RoundDataAreKept(Step(r, es[0]).room, es[1..]);
    }
  }

  // A tick after the one-player timeout settles a room in which somebody pressed well.
  lemma TickAfterGoodPress(r: RoomState, a: PlayerAssignment, deadline: Time, t: Readings, draw: nat)
    requires RoomInv(r) && PressedWell(r, a, deadline)
    requires r.config.onePlayerInputOnlyTimeout >= 0
    requires t.pressAt >= deadline + r.config.onePlayerInputOnlyTimeout * NANOS_PER_SECOND
    ensures Tick(r, t, draw).room.phase == Over
  {
    ThresholdInNanoseconds(r.Slot(a).value.inputPressedAtServerTime.value, t.pressAt,
                           r.config.onePlayerInputOnlyTimeout);
  }

  // From a good press on, a tick after the one-player timeout ends the round.
  lemma {:induction false} GoodPressEndsTheRound(
      r: RoomState, a: PlayerAssignment, deadline: Time, es: seq<Event>, t: Readings, draw: nat)
    requires RoomInv(r) && PressedWell(r, a, deadline) && NoResend(r, es)
    requires r.config.onePlayerInputOnlyTimeout >= 0
    requires t.pressAt >= deadline + r.config.onePlayerInputOnlyTimeout * NANOS_PER_SECOND
    ensures !StaysExpecting(r, es + [TickEvent(t, draw)])
    decreases |es|
  {
    hide Tick, HandlePlayerMessage;
    var all := es + [TickEvent(t, draw)];
    if es == [] {
      TickAfterGoodPress(r, a, deadline, t, draw);
      assert all[0] == TickEvent(t, draw);
    } else {
      assert all[0] == es[0] && all[1..] == es[1..] + [TickEvent(t, draw)];
      var s := Step(r, es[0]).room;
      if s.phase == ExpectingInput {
        PressIsKept(r, es[0], a, deadline);
        StaysInRound(r, es[0]);
        GoodPressEndsTheRound(s, a, deadline, es[1..], t, draw);
      }
    }
  }

  lemma TickThenGoodPress(r: RoomState, t1: Readings, draw1: nat, between: seq<Event>, t2: Readings, draw2: nat,
                          last: Time)
    requires RoomInv(r) && TimeInv(r, last) && r.phase == ExpectingInput && t1.Since(last)
    requires r.config.noInputTimeout >= 0 && r.config.onePlayerInputOnlyTimeout >= 0
    requires t1.timeoutAt >= r.readyForInputAt.value + r.config.noInputTimeout * NANOS_PER_SECOND
    requires t2.pressAt >= t1.timeoutAt + r.config.onePlayerInputOnlyTimeout * NANOS_PER_SECOND
    requires NoResend(Tick(r, t1, draw1).room, between)
    ensures !StaysExpecting(r, [TickEvent(t1, draw1)] + (between + [TickEvent(t2, draw2)]))
  {
    hide Tick;
    var all := [TickEvent(t1, draw1)] + (between + [TickEvent(t2, draw2)]);
    assert all[0] == TickEvent(t1, draw1) && all[1..] == between + [TickEvent(t2, draw2)];
    var s := Tick(r, t1, draw1).room;
    var a := TickAfterTimeout(r, t1, draw1, last);
    if s.phase == ExpectingInput {
      TickWithoutVerdict(r, t1, draw1);
      GoodPressEndsTheRound(s, a, t1.timeoutAt, between, t2, draw2);
    }
  }

  /** A round is bounded: a tick after the no-input timeout and a tick the one-player timeout
      later end it, whatever else happens before and between them, if between them nobody
      who has pressed sends another input. */
  lemma RoundIsBounded(r: RoomState, before: seq<Event>, t1: Readings, draw1: nat, between: seq<Event>, t2: Readings,
                       draw2: nat, last: Time)
    requires RoomInv(r) && TimeInv(r, last) && r.phase == ExpectingInput
    requires r.config.noInputTimeout >= 0 && r.config.onePlayerInputOnlyTimeout >= 0
    requires TimedRun(before + [TickEvent(t1, draw1)], last)
    requires t1.timeoutAt >= r.readyForInputAt.value + r.config.noInputTimeout * NANOS_PER_SECOND
    requires t2.pressAt >= t1.timeoutAt + r.config.onePlayerInputOnlyTimeout * NANOS_PER_SECOND
    requires NoResend(Run(r, before + [TickEvent(t1, draw1)]).room, between)
    ensures !StaysExpecting(r, before + ([TickEvent(t1, draw1)] + (between + [TickEvent(t2, draw2)])))
  {
    hide Tick, HandlePlayerMessage;
    var s := Run(r, before).room;
    StaysAppend(r, before, [TickEvent(t1, draw1)] + (between + [TickEvent(t2, draw2)]));
    if StaysExpecting(r, before) {
      TimedAppend(before, [TickEvent(t1, draw1)], last);
      RoundDataAreKept(r, before);
      RunKeepsTimeInv(r, before, last);
      RunAppend(r, before, [TickEvent(t1, draw1)]);
      RunOne(s, TickEvent(t1, draw1));
      TickThenGoodPress(s, t1, draw1, between, t2, draw2, LastReadingOf(before, last));
    }
  }

  // `n` rounds of: the player repeats its input, then the room ticks, one second apart.
  function Pestering(id: int, input: GameplayInput, from: Time, n: nat): seq<Event>
    decreases n
  {
    if n == 0 then []
    else
      [Act(id, PlayerInput(input, 0), from), TickEvent(Readings(from, from, from, from, from), 0)] +
      Pestering(id, input, from + NANOS_PER_SECOND, n - 1)
  }

  // A press just received and a tick at once: nothing is decided yet.
  lemma LonePressWaits(r: RoomState, id: int, at: Time)
    requires RoomInv(r) && r.phase == ExpectingInput && r.config.onePlayerInputOnlyTimeout >= 1
    requires r.SlotOf(id).Some? && r.Slot(Other(r.SlotOf(id).value)).value.inputPressed.None?
    ensures var s := HandlePlayerMessage(r, id, PlayerInput(r.expectedInput, 0), at).room;
            && Tick(s, Readings(at, at, at, at, at), 0).room == s
            && s.phase == ExpectingInput && s.expectedInput == r.expectedInput && s.config == r.config
            && s.SlotOf(id) == r.SlotOf(id) && s.Slot(Other(r.SlotOf(id).value)).value.inputPressed.None?
  {
    assert SecondsBetween(at, at) == 0;
  }

  /** The proviso is needed: a lone player who keeps resending the right input keeps the
      round open for as long as it likes. */
  lemma {:induction false} ResendingKeepsTheRoundOpen(r: RoomState, id: int, from: Time, n: nat)
    requires RoomInv(r) && r.phase == ExpectingInput && r.config.onePlayerInputOnlyTimeout >= 1
    requires r.SlotOf(id).Some? && r.Slot(Other(r.SlotOf(id).value)).value.inputPressed.None?
    ensures StaysExpecting(r, Pestering(id, r.expectedInput, from, n))
    ensures TimedRun(Pestering(id, r.expectedInput, from, n), from)
    decreases n
  {
    hide Tick, HandlePlayerMessage;
    if n > 0 {
      var es := Pestering(id, r.expectedInput, from, n);
      var rest := Pestering(id, r.expectedInput, from + NANOS_PER_SECOND, n - 1);
      var r1 := Step(r, es[0]).room;
      LonePressWaits(r, id, from);
      assert Step(r1, es[1]).room == r1;
      ResendingKeepsTheRoundOpen(r1, id, from + NANOS_PER_SECOND, n - 1);
      assert es[1..][0] == es[1] && es[1..][1..] == rest;
      TimedRunEarlier(rest, from + NANOS_PER_SECOND, from);
    }
  }

  lemma TimedRunEarlier(es: seq<Event>, last: Time, earlier: Time)
    requires TimedRun(es, last) && earlier <= last
    ensures TimedRun(es, earlier)
  {
    if es != [] {
      TimedRunEarlier(es[1..], LastReading(es[0], last), LastReading(es[0], earlier));
    }
  }
}
