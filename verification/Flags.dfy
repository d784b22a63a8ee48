/** The three flags of a player told by events: when a game starts, when the countdown
    begins and when a replay starts, in terms of what the players sent. */
module Flags {
  import opened Messages
  import opened Chrono
  import opened RoomModel
  import opened CleanSlate
  import opened Timing

  // ---------- the events ----------

  predicate Notifies(e: Event, id: int) {
    e.Act? && e.id == id && e.action.NotifyCanPlay?
  }

  predicate Notified(es: seq<Event>, id: int) {
    exists e | e in es :: Notifies(e, id)
  }

  predicate Wishes(e: Event, id: int) {
    e.Act? && e.id == id && e.action.SetReplayReadyState?
  }

  // The player's last word on a replay; `before` if it says nothing.
  function LastWish(es: seq<Event>, id: int, before: bool): bool {
    if es == [] then before
    else LastWish(es[1..], id, if Wishes(es[0], id) then es[0].action.isReadyToReplay else before)
  }

  predicate GetsReady(e: Event, id: int) {
    e.Act? && e.id == id && e.action.SetReadyState?
  }

  function LastReady(es: seq<Event>, id: int, before: bool): bool {
    if es == [] then before
    else LastReady(es[1..], id, if GetsReady(es[0], id) then es[0].action.isReady else before)
  }

  // ---------- one step ----------

  // Nobody leaves, no replay starts, and nobody takes a second seat.
  predicate Undisturbed(r: RoomState, e: Event)
    requires RoomInv(r)
  {
    && (e.Leave? || (e.Act? && e.action.LeaveGame?) ==> !r.HasPlayerWithId(e.id))
    && !(r.phase == Over && Step(r, e).room.phase == Started)
    && (e.Join? ==> r.IsFull() || !r.HasPlayerWithId(e.id))
  }

  // Player `p` has become `q` by the event `e` in a room in `phase`.
  predicate FlagsMove(p: Option<PlayerState>, q: Option<PlayerState>, e: Event, phase: GameplayState) {
    p.Some? ==>
      && q.Some? && q.value.id == p.value.id
      && q.value.canPlay == (p.value.canPlay || Notifies(e, p.value.id))
      && (q.value.isReadyToReplay ==
            if Wishes(e, p.value.id) then e.action.isReadyToReplay else p.value.isReadyToReplay)
      && (q.value.isReady ==
            if GetsReady(e, p.value.id) && phase == WaitingPlayers then e.action.isReady else p.value.isReady)
  }

  lemma ReadySetsFlags(r: RoomState, who: PlayerAssignment, b: bool, at: Time, a: PlayerAssignment)
    requires RoomInv(r) && DistinctIds(r) && r.Slot(who).Some?
    ensures FlagsMove(r.Slot(a), HandleSetReadyState(r, who, b).room.Slot(a),
                      Act(r.Slot(who).value.id, SetReadyState(b), at), r.phase)
  {
  }

  lemma WishSetsFlags(r: RoomState, who: PlayerAssignment, b: bool, at: Time, a: PlayerAssignment)
    requires RoomInv(r) && DistinctIds(r) && r.Slot(who).Some?
    ensures FlagsMove(r.Slot(a), HandleSetReplayReadyState(r, who, b).room.Slot(a),
                      Act(r.Slot(who).value.id, SetReplayReadyState(b), at), r.phase)
  {
  }

  lemma NotifySetsFlags(r: RoomState, who: PlayerAssignment, at: Time, a: PlayerAssignment)
    requires RoomInv(r) && DistinctIds(r) && r.Slot(who).Some?
    ensures FlagsMove(r.Slot(a), HandleNotifyCanPlay(r, who).room.Slot(a),
                      Act(r.Slot(who).value.id, NotifyCanPlay, at), r.phase)
  {
  }

  lemma InputSetsNoFlags(r: RoomState, who: PlayerAssignment, input: GameplayInput, time: int, at: Time,
                         a: PlayerAssignment)
    requires RoomInv(r) && DistinctIds(r) && r.Slot(who).Some?
    ensures FlagsMove(r.Slot(a), HandleInput(r, who, input, time, at).room.Slot(a),
                      Act(r.Slot(who).value.id, PlayerInput(input, time), at), r.phase)
  {
  }

  lemma StrangersSetNoFlags(r: RoomState, id: int, action: PlayerAction, at: Time, a: PlayerAssignment)
    requires r.SlotOf(id).None? || action.JoinGame?
    ensures FlagsMove(r.Slot(a), r.Slot(a), Act(id, action, at), r.phase)
  {
  }

  lemma ActionSetsFlags(r: RoomState, id: int, action: PlayerAction, at: Time, a: PlayerAssignment)
    requires RoomInv(r) && DistinctIds(r) && Undisturbed(r, Act(id, action, at))
    ensures FlagsMove(r.Slot(a), HandlePlayerMessage(r, id, action, at).room.Slot(a), Act(id, action, at), r.phase)
  {
    hide HandleSetReadyState, HandleNotifyCanPlay, HandleInput, HandleSetReplayReadyState, RemovePlayer, FlagsMove;
    if r.SlotOf(id).None? {
      StrangersSetNoFlags(r, id, action, at, a);
    } else {
      var who := r.SlotOf(id).value;
      match action
      case JoinGame(_, _) => StrangersSetNoFlags(r, id, action, at, a);
      case SetReadyState(b) => ReadySetsFlags(r, who, b, at, a);
      case NotifyCanPlay => NotifySetsFlags(r, who, at, a);
      case PlayerInput(input, time) => InputSetsNoFlags(r, who, input, time, at, a);
      case SetReplayReadyState(b) => WishSetsFlags(r, who, b, at, a);
      case LeaveGame =>
    }
  }

  lemma JoinSetsNoFlags(r: RoomState, id: int, nickname: string, a: PlayerAssignment)
    requires RoomInv(r) && DistinctIds(r) && Undisturbed(r, Join(id, nickname))
    ensures FlagsMove(r.Slot(a), AddPlayer(r, id, nickname).room.Slot(a), Join(id, nickname), r.phase)
    ensures DistinctIds(AddPlayer(r, id, nickname).room)
  {
  }

  lemma StepSetsFlags(r: RoomState, e: Event, a: PlayerAssignment)
    requires RoomInv(r) && DistinctIds(r) && Undisturbed(r, e)
    ensures FlagsMove(r.Slot(a), Step(r, e).room.Slot(a), e, r.phase)
    ensures DistinctIds(Step(r, e).room)
  {
    hide Tick, HandlePlayerMessage, AddPlayer;
    match e
    case Join(id, nickname) => JoinSetsNoFlags(r, id, nickname, a);
    case Leave(_) =>
    case Act(id, action, at) =>
      ActionKeepsDistinctIds(r, id, action, at);
      ActionSetsFlags(r, id, action, at, a);
    case TickEvent(t, draw) => TickKeepsPlayers(r, t, draw);
  }

  // ---------- over a run ----------

  predicate UndisturbedRun(r: RoomState, es: seq<Event>)
    requires RoomInv(r)
    decreases |es|
  {
    es == [] || (Undisturbed(r, es[0]) && UndisturbedRun(Step(r, es[0]).room, es[1..]))
  }

  /** Until somebody leaves or a replay starts, in any phase and alone or not: a player can
      play exactly if it could before or has notified since, and its replay flag is its last
      wish. */
  lemma {:induction false} FlagsTellTheEvents(r: RoomState, es: seq<Event>, a: PlayerAssignment)
    requires RoomInv(r) && DistinctIds(r) && UndisturbedRun(r, es) && r.Slot(a).Some?
    ensures var p, q := r.Slot(a).value, Run(r, es).room.Slot(a);
            && q.Some? && q.value.id == p.id
            && (q.value.canPlay <==> p.canPlay || Notified(es, p.id))
            && q.value.isReadyToReplay == LastWish(es, p.id, p.isReadyToReplay)
    decreases |es|
  {
    hide Step, Undisturbed;
    if es != [] {
      StepSetsFlags(r, es[0], a);
      FlagsTellTheEvents(Step(r, es[0]).room, es[1..], a);
      NotifiedFirst(es, r.Slot(a).value.id);
    }
  }

  // Staying in a round is staying undisturbed.
  lemma RoundIsUndisturbed(r: RoomState, e: Event)
    requires RoomInv(r) && r.phase != WaitingPlayers && SameRound(r, [e])
    ensures Undisturbed(r, e) && Step(r, e).room.phase != WaitingPlayers
  {
  }

  lemma NotifiedFirst(es: seq<Event>, id: int)
    requires es != []
    ensures Notified(es, id) <==> Notifies(es[0], id) || Notified(es[1..], id)
  {
    assert es == [es[0]] + es[1..];
    assert es[0] in es;
  }

  // ---------- the countdown ----------

  // A round in which nothing has happened yet.
  predicate FreshRound(r: RoomState) {
    && r.phase == Started && r.IsFull() && DistinctIds(r)
    && r.everyoneCanPlayAt.None?
    && !r.p1.value.canPlay && !r.p2.value.canPlay
  }

  /** Both ways into a round make it fresh. */
  lemma OpeningIsFresh(config: RoomConfig, p1: PlayerState, p2: PlayerState, t: Readings)
    requires p1.id != p2.id
    ensures FreshRound(Run(NewRoom(config), OpeningMoves(p1, p2, t)).room)
  {
    OpeningMovesStartTheRoom(config, p1, p2, t);
  }

  lemma ReplayIsFresh(r: RoomState, t: Readings, draw: nat)
    requires RoomInv(r) && DistinctIds(r) && r.phase == Over && Tick(r, t, draw).room.phase == Started
    ensures FreshRound(Tick(r, t, draw).room)
  {
  }

  // The first reading of the first tick that comes after a notification by each player,
  // while the round is still in STARTED. `n1` and `n2` say who has notified already.
  function FirstTickAfterBoth(r: RoomState, es: seq<Event>, id1: int, id2: int, n1: bool, n2: bool): Option<Time>
    requires RoomInv(r)
    decreases |es|
  {
    if es == [] then None
    else if es[0].TickEvent? && r.phase == Started && n1 && n2 then Some(es[0].t.canPlayAt)
    else
      FirstTickAfterBoth(Step(r, es[0]).room, es[1..], id1, id2, n1 || Notifies(es[0], id1), n2 || Notifies(es[0], id2))
  }

  lemma TickBeginsCountdown(r: RoomState, t: Readings, draw: nat)
    requires RoomInv(r) && r.phase != WaitingPlayers && !(r.phase == Over && Tick(r, t, draw).room.phase == Started)
    ensures var began := r.phase == Started && r.p1.value.canPlay && r.p2.value.canPlay;
            && Tick(r, t, draw).room.everyoneCanPlayAt ==
               (if r.everyoneCanPlayAt.None? && began then Some(t.canPlayAt) else r.everyoneCanPlayAt)
            && (!began ==> !RequestsInput(Tick(r, t, draw).sent))
  {
    if r.phase == Started && !(r.p1.value.canPlay && r.p2.value.canPlay) {
      SilentCountdown(r, t, draw);
    }
  }

  // Without both able to play a started tick is a verdict on early presses, if anything.
  lemma SilentCountdown(r: RoomState, t: Readings, draw: nat)
    requires RoomInv(r) && r.phase == Started && !(r.p1.value.canPlay && r.p2.value.canPlay)
    ensures HandleEveryoneCanPlay(r, t, draw) == Outcome(r, [])
    ensures !RequestsInput(Tick(r, t, draw).sent)
  {
  }

  lemma StepBeginsCountdown(r: RoomState, e: Event)
    requires RoomInv(r) && r.phase != WaitingPlayers && Step(r, e).room.phase != WaitingPlayers && Undisturbed(r, e)
    ensures var began := e.TickEvent? && r.phase == Started && r.p1.value.canPlay && r.p2.value.canPlay;
            && Step(r, e).room.everyoneCanPlayAt ==
               (if r.everyoneCanPlayAt.None? && began then Some(e.t.canPlayAt) else r.everyoneCanPlayAt)
            && (!began ==> !RequestsInput(Step(r, e).sent))
  {
    hide Tick, HandlePlayerMessage;
    match e
    case Join(_, _) => OnlyTicksPlay(r, e);
    case Leave(_) => OnlyTicksPlay(r, e);
    case Act(id, action, at) =>
      ActionKeepsCountdown(r, id, action, at);
      OnlyTicksPlay(r, e);
    case TickEvent(t, draw) => TickBeginsCountdown(r, t, draw);
  }

  lemma {:induction false} CountdownFollowsNotifications(r: RoomState, es: seq<Event>)
    requires RoomInv(r) && DistinctIds(r) && r.phase != WaitingPlayers && SameRound(r, es)
    ensures Run(r, es).room.everyoneCanPlayAt ==
            if r.everyoneCanPlayAt.Some? then r.everyoneCanPlayAt
            else FirstTickAfterBoth(r, es, r.p1.value.id, r.p2.value.id, r.p1.value.canPlay, r.p2.value.canPlay)
    decreases |es|
  {
    hide Step, Undisturbed;
    if es != [] {
      assert [es[0]][1..] == [];
      RoundIsUndisturbed(r, es[0]);
      StepBeginsCountdown(r, es[0]);
      StepSetsFlags(r, es[0], P1);
      StepSetsFlags(r, es[0], P2);
      CountdownFollowsNotifications(Step(r, es[0]).room, es[1..]);
    }
  }

  lemma {:induction false} NoRequestBeforeBothNotify(r: RoomState, es: seq<Event>)
    requires RoomInv(r) && DistinctIds(r) && r.phase != WaitingPlayers && SameRound(r, es)
    requires r.everyoneCanPlayAt.None?
    requires || (!r.p1.value.canPlay && !Notified(es, r.p1.value.id))
             || (!r.p2.value.canPlay && !Notified(es, r.p2.value.id))
    ensures Run(r, es).room.everyoneCanPlayAt.None? && !RequestsInput(Run(r, es).sent)
    decreases |es|
  {
    hide Step, Undisturbed;
    if es != [] {
      assert [es[0]][1..] == [];
      RoundIsUndisturbed(r, es[0]);
      StepBeginsCountdown(r, es[0]);
      StepSetsFlags(r, es[0], P1);
      StepSetsFlags(r, es[0], P2);
      NotifiedFirst(es, r.p1.value.id);
      NotifiedFirst(es, r.p2.value.id);
      NoRequestBeforeBothNotify(Step(r, es[0]).room, es[1..]);
    }
  }

  /** In a round, freshly started or replayed, the countdown begins at the first reading of
      the first tick that comes after a NOTIFY_CAN_PLAY of each of the two players. Until
      both have notified it has not begun, and no input is requested. */
  lemma CountdownNeedsBoth(r: RoomState, es: seq<Event>)
    requires RoomInv(r) && FreshRound(r) && SameRound(r, es)
    ensures var id1, id2 := r.p1.value.id, r.p2.value.id;
            && Run(r, es).room.everyoneCanPlayAt == FirstTickAfterBoth(r, es, id1, id2, false, false)
            && (!Notified(es, id1) || !Notified(es, id2) ==>
                  Run(r, es).room.everyoneCanPlayAt.None? && !RequestsInput(Run(r, es).sent))
  {
    hide Step;
    CountdownFollowsNotifications(r, es);
    if !Notified(es, r.p1.value.id) || !Notified(es, r.p2.value.id) {
      NoRequestBeforeBothNotify(r, es);
    }
  }

  // ---------- replay ----------

  // A decided room ticks into a new round exactly if both want to.
  lemma ReplayTick(r: RoomState, t: Readings, draw: nat)
    requires RoomInv(r) && r.phase == Over
    ensures var o := Tick(r, t, draw);
            if r.p1.value.isReadyToReplay && r.p2.value.isReadyToReplay
            then o.room.phase == Started && o.sent == Both(r, AllReplayReadyGameStarting)
            else o == Outcome(r, [])
  {
  }

  // The same message to P1 and then to P2.
  function Both(r: RoomState, m: GameplayMessage): seq<Envelope>
    requires r.IsFull()
  {
    [Envelope(r.p1.value.id, m), Envelope(r.p2.value.id, m)]
  }

  lemma WishIsAnnounced(r: RoomState, id: int, b: bool, at: Time, a: PlayerAssignment)
    requires RoomInv(r) && DistinctIds(r) && r.phase == Over && r.Slot(a).value.id == id
    ensures var o := Step(r, Act(id, SetReplayReadyState(b), at));
            && o.sent == Both(r, PlayerReplayReadyStateChanged(a, b))
            && o.room == r.WithSlot(a, Some(r.Slot(a).value.(isReadyToReplay := b)))
  {
  }

  /** From every decided room: each player's wish is told to both as sent, and the next tick
      starts a replay, told to both, exactly if both wished for it. */
  lemma ReplayStartsIffBothWish(r: RoomState, b1: bool, at1: Time, b2: bool, at2: Time, t: Readings, draw: nat)
    requires RoomInv(r) && DistinctIds(r) && r.phase == Over
    ensures var es := [Act(r.p1.value.id, SetReplayReadyState(b1), at1),
                       Act(r.p2.value.id, SetReplayReadyState(b2), at2)];
            var wished := Run(r, es);
            var o := Step(wished.room, TickEvent(t, draw));
            && wished.sent == Both(r, PlayerReplayReadyStateChanged(P1, b1)) +
                              Both(r, PlayerReplayReadyStateChanged(P2, b2))
            && o.room.phase == (if b1 && b2 then Started else Over)
            && o.sent == if b1 && b2 then Both(r, AllReplayReadyGameStarting) else []
  {
    hide HandlePlayerMessage, Tick;
    var e1, e2 := Act(r.p1.value.id, SetReplayReadyState(b1), at1), Act(r.p2.value.id, SetReplayReadyState(b2), at2);
    RunTwo(r, e1, e2);
    WishIsAnnounced(r, r.p1.value.id, b1, at1, P1);
    var r1 := Step(r, e1).room;
    WishIsAnnounced(r1, r.p2.value.id, b2, at2, P2);
    ReplayTick(Step(r1, e2).room, t, draw);
  }

  /** Wishes count in whatever phase they are sent: a tick that finds the round decided starts
      a replay exactly if each player's last wish is one for it. */
  lemma LastWishesDecide(r: RoomState, es: seq<Event>, t: Readings, draw: nat)
    requires RoomInv(r) && DistinctIds(r) && r.IsFull() && UndisturbedRun(r, es)
    requires Run(r, es).room.phase == Over
    ensures var p1, p2 := r.p1.value, r.p2.value;
            Tick(Run(r, es).room, t, draw).room.phase == Started <==>
              LastWish(es, p1.id, p1.isReadyToReplay) && LastWish(es, p2.id, p2.isReadyToReplay)
  {
    hide Step, Tick;
    FlagsTellTheEvents(r, es, P1);
    FlagsTellTheEvents(r, es, P2);
    ReplayTick(Run(r, es).room, t, draw);
  }

  // ---------- ready ----------

  // The room waits and nobody leaves.
  predicate StaysWaiting(r: RoomState, es: seq<Event>)
    requires RoomInv(r)
    decreases |es|
  {
    && r.phase == WaitingPlayers
    && (es == [] || (Undisturbed(r, es[0]) && StaysWaiting(Step(r, es[0]).room, es[1..])))
  }

  /** A waiting player is ready exactly as its last ready state says, alone or not. */
  lemma {:induction false} ReadyTellsTheEvents(r: RoomState, es: seq<Event>, a: PlayerAssignment)
    requires RoomInv(r) && DistinctIds(r) && StaysWaiting(r, es) && r.Slot(a).Some?
    ensures var p, s := r.Slot(a).value, Run(r, es).room;
            && s.phase == WaitingPlayers && s.Slot(a).Some? && s.Slot(a).value.id == p.id
            && s.Slot(a).value.isReady == LastReady(es, p.id, p.isReady)
    decreases |es|
  {
    hide Step, Undisturbed;
    if es != [] {
      StepSetsFlags(r, es[0], a);
      ReadyTellsTheEvents(Step(r, es[0]).room, es[1..], a);
    }
  }

  lemma ReadyTick(r: RoomState, t: Readings, draw: nat)
    requires RoomInv(r) && r.phase == WaitingPlayers && r.IsFull()
    ensures var o := Tick(r, t, draw);
            if r.p1.value.isReady && r.p2.value.isReady
            then o == Outcome(r.(phase := Started), Both(r, AllReadyGameStarting))
            else o == Outcome(r, [])
  {
  }

  /** A tick starts the game of two waiting players, and tells both, exactly if the last ready
      state of each is one for it. */
  lemma LastReadyStatesDecide(r: RoomState, es: seq<Event>, t: Readings, draw: nat)
    requires RoomInv(r) && DistinctIds(r) && r.IsFull() && StaysWaiting(r, es)
    ensures var p1, p2 := r.p1.value, r.p2.value;
            var start := LastReady(es, p1.id, p1.isReady) && LastReady(es, p2.id, p2.isReady);
            var o := Tick(Run(r, es).room, t, draw);
            && o.room.phase == (if start then Started else WaitingPlayers)
            && o.sent == if start then Both(r, AllReadyGameStarting) else []
  {
    hide Step, Tick;
    ReadyTellsTheEvents(r, es, P1);
    ReadyTellsTheEvents(r, es, P2);
    ReadyTick(Run(r, es).room, t, draw);
  }

  /** A waiting player's ready state is told to everybody in the room as sent. */
  lemma ReadyStateIsAnnounced(r: RoomState, a: PlayerAssignment, b: bool, at: Time)
    requires RoomInv(r) && DistinctIds(r) && r.phase == WaitingPlayers && r.Slot(a).Some?
    ensures var o := Step(r, Act(r.Slot(a).value.id, SetReadyState(b), at));
            && o.room == r.WithSlot(a, Some(r.Slot(a).value.(isReady := b)))
            && forall id :: Inbox(id, o.sent) ==
                 if r.HasPlayerWithId(id) then [PlayerReadyStateChanged(a, b)] else []
  {
    var s := r.WithSlot(a, Some(r.Slot(a).value.(isReady := b)));
    forall id
      ensures Inbox(id, Broadcast(s, PlayerReadyStateChanged(a, b)))
           == if r.HasPlayerWithId(id) then [PlayerReadyStateChanged(a, b)] else []
    {
      InboxBroadcast(s, PlayerReadyStateChanged(a, b), id);
    }
  }
}
