/** A replay and a departure leave a room that behaves like a fresh one, although
    resetToReplay keeps the receipt time; and redelivering an action is harmless. */
module CleanSlate {
  import opened Messages
  import opened Chrono
  import opened RoomModel

  // ---------- the receipt time is dead state until the next press ----------

  function ForgetStaleReceipt(p: Option<PlayerState>): Option<PlayerState> {
    if p.Some? && p.value.inputPressed.None? then Some(p.value.(inputPressedAtServerTime := None)) else p
  }

  function Forget(r: RoomState): RoomState {
    r.(p1 := ForgetStaleReceipt(r.p1), p2 := ForgetStaleReceipt(r.p2))
  }

  // Equal except for receipt times of players without an input.
  predicate Alike(r: RoomState, s: RoomState) {
    Forget(r) == Forget(s)
  }

  lemma TicksAlike(r: RoomState, s: RoomState, t: Readings, draw: nat)
    requires RoomInv(r) && RoomInv(s) && Alike(r, s)
    ensures Tick(r, t, draw).sent == Tick(s, t, draw).sent
    ensures Alike(Tick(r, t, draw).room, Tick(s, t, draw).room)
  {
    match r.phase
    case WaitingPlayers =>
    case Over =>
    case Started =>
      var c, d := HandleEveryoneCanPlay(r, t, draw), HandleEveryoneCanPlay(s, t, draw);
      assert c.sent == d.sent && Alike(c.room, d.room);
      OnePlayerPlayedAlike(c.room, d.room, t);
    case ExpectingInput =>
      OnePlayerPlayedAlike(r, s, t);
      var c, d := HandleOnePlayerPlayed(r, t), HandleOnePlayerPlayed(s, t);
      RestAlike(c.room, d.room, t);
  }

  lemma OnePlayerPlayedAlike(r: RoomState, s: RoomState, t: Readings)
    requires RoomInv(r) && RoomInv(s) && Alike(r, s)
    ensures HandleOnePlayerPlayed(r, t).sent == HandleOnePlayerPlayed(s, t).sent
    ensures Alike(HandleOnePlayerPlayed(r, t).room, HandleOnePlayerPlayed(s, t).room)
  {
  }

  lemma RestAlike(r: RoomState, s: RoomState, t: Readings)
    requires RoomInv(r) && RoomInv(s) && Alike(r, s)
    ensures var c, d := HandleEveryonePlayed(r), HandleEveryonePlayed(s);
            && c.sent == d.sent
            && HandleTimeout(c.room, t).sent == HandleTimeout(d.room, t).sent
            && Alike(HandleTimeout(c.room, t).room, HandleTimeout(d.room, t).room)
  {
  }

  lemma LeavesAlike(r: RoomState, s: RoomState, id: int)
    requires RoomInv(r) && RoomInv(s) && Alike(r, s)
    ensures RemovePlayer(r, id).sent == RemovePlayer(s, id).sent
    ensures Alike(RemovePlayer(r, id).room, RemovePlayer(s, id).room)
  {
  }

  // A message to both players of either room is the same message to the same players.
  lemma AnnounceAlike(r: RoomState, s: RoomState, m: GameplayMessage)
    requires Alike(r, s)
    ensures Announce(r, m).sent == Announce(s, m).sent
  {
  }

  lemma ReadyAlike(r: RoomState, s: RoomState, a: PlayerAssignment, b: bool)
    requires RoomInv(r) && RoomInv(s) && Alike(r, s) && r.Slot(a).Some?
    ensures HandleSetReadyState(r, a, b).sent == HandleSetReadyState(s, a, b).sent
    ensures Alike(HandleSetReadyState(r, a, b).room, HandleSetReadyState(s, a, b).room)
  {
    hide Broadcast;
    AnnounceAlike(HandleSetReadyState(r, a, b).room, HandleSetReadyState(s, a, b).room, PlayerReadyStateChanged(a, b));
  }

  lemma ReplayReadyAlike(r: RoomState, s: RoomState, a: PlayerAssignment, b: bool)
    requires RoomInv(r) && RoomInv(s) && Alike(r, s) && r.Slot(a).Some?
    ensures HandleSetReplayReadyState(r, a, b).sent == HandleSetReplayReadyState(s, a, b).sent
    ensures Alike(HandleSetReplayReadyState(r, a, b).room, HandleSetReplayReadyState(s, a, b).room)
  {
    hide Broadcast;
    AnnounceAlike(HandleSetReplayReadyState(r, a, b).room, HandleSetReplayReadyState(s, a, b).room,
                  PlayerReplayReadyStateChanged(a, b));
  }

  lemma CanPlayAlike(r: RoomState, s: RoomState, a: PlayerAssignment)
    requires RoomInv(r) && RoomInv(s) && Alike(r, s) && r.Slot(a).Some?
    ensures Alike(HandleNotifyCanPlay(r, a).room, HandleNotifyCanPlay(s, a).room)
  {
    hide RoomInv;
  }

  lemma InputsAlike(r: RoomState, s: RoomState, a: PlayerAssignment, input: GameplayInput, time: int, at: Time)
    requires RoomInv(r) && RoomInv(s) && Alike(r, s) && r.Slot(a).Some?
    ensures Alike(HandleInput(r, a, input, time, at).room, HandleInput(s, a, input, time, at).room)
  {
    hide RoomInv;
  }

  lemma ActionsAlike(r: RoomState, s: RoomState, id: int, action: PlayerAction, at: Time)
    requires RoomInv(r) && RoomInv(s) && Alike(r, s)
    ensures HandlePlayerMessage(r, id, action, at).sent == HandlePlayerMessage(s, id, action, at).sent
    ensures Alike(HandlePlayerMessage(r, id, action, at).room, HandlePlayerMessage(s, id, action, at).room)
  {
    hide HandleSetReadyState, HandleSetReplayReadyState, RemovePlayer;
    assert r.SlotOf(id) == s.SlotOf(id);
    if r.SlotOf(id).Some? {
      var a := r.SlotOf(id).value;
      match action
      case JoinGame(_, _) =>
      case SetReadyState(b) => ReadyAlike(r, s, a, b);
      case NotifyCanPlay => CanPlayAlike(r, s, a);
      case PlayerInput(input, time) => InputsAlike(r, s, a, input, time, at);
      case SetReplayReadyState(b) => ReplayReadyAlike(r, s, a, b);
      case LeaveGame => LeavesAlike(r, s, id);
    }
  }

  lemma JoinsAlike(r: RoomState, s: RoomState, id: int, nickname: string)
    requires RoomInv(r) && RoomInv(s) && Alike(r, s)
    ensures AddPlayer(r, id, nickname).sent == AddPlayer(s, id, nickname).sent
    ensures Alike(AddPlayer(r, id, nickname).room, AddPlayer(s, id, nickname).room)
  {
  }

  lemma StepsAlike(r: RoomState, s: RoomState, e: Event)
    requires RoomInv(r) && RoomInv(s) && Alike(r, s)
    ensures Step(r, e).sent == Step(s, e).sent
    ensures Alike(Step(r, e).room, Step(s, e).room)
  {
    match e
    case Join(id, nickname) => JoinsAlike(r, s, id, nickname);
    case Leave(id) => LeavesAlike(r, s, id);
    case Act(id, action, at) => ActionsAlike(r, s, id, action, at);
    case TickEvent(t, draw) => TicksAlike(r, s, t, draw);
  }

  // ---------- observations ----------

  // What a run shows after each event: the phase reached and the messages published.
  datatype Observation = Observation(phase: GameplayState, sent: seq<Envelope>)

  function Observe(r: RoomState, es: seq<Event>): seq<Observation>
    requires RoomInv(r)
    decreases |es|
  {
    if es == [] then []
    else
      var o := Step(r, es[0]);
      [Observation(o.room.phase, o.sent)] + Observe(o.room, es[1..])
  }

  lemma {:induction false} AlikeRoomsAreIndistinguishable(r: RoomState, s: RoomState, es: seq<Event>)
    requires RoomInv(r) && RoomInv(s) && Alike(r, s)
    ensures Observe(r, es) == Observe(s, es)
    ensures Alike(Run(r, es).room, Run(s, es).room)
    decreases |es|
  {
    if es != [] {
      StepsAlike(r, s, es[0]);
      AlikeRoomsAreIndistinguishable(Step(r, es[0]).room, Step(s, es[0]).room, es[1..]);
    }
  }

  // ---------- replay ----------

  // Two newcomers join a new room and get ready.
  function OpeningMoves(p1: PlayerState, p2: PlayerState, t: Readings): seq<Event> {
    [Join(p1.id, p1.nickname), Join(p2.id, p2.nickname),
     Act(p1.id, SetReadyState(true), t.canPlayAt), Act(p2.id, SetReadyState(true), t.canPlayAt),
     TickEvent(t, 0)]
  }

  // The room those moves lead to.
  function FreshlyStarted(config: RoomConfig, p1: PlayerState, p2: PlayerState): RoomState {
    NewRoom(config).(phase := Started,
                     p1 := Some(NewPlayer(p1.id, p1.nickname, P1).(isReady := true)),
                     p2 := Some(NewPlayer(p2.id, p2.nickname, P2).(isReady := true)))
  }

  lemma OpeningMovesStartTheRoom(config: RoomConfig, p1: PlayerState, p2: PlayerState, t: Readings)
    requires p1.id != p2.id
    ensures Run(NewRoom(config), OpeningMoves(p1, p2, t)).room == FreshlyStarted(config, p1, p2)
  {
    var es := OpeningMoves(p1, p2, t);
    var r1 := Step(NewRoom(config), es[0]).room;
    var r2 := Step(r1, es[1]).room;
    var r3 := Step(r2, es[2]).room;
    var r4 := Step(r3, es[3]).room;
    var r5 := Step(r4, es[4]).room;
    assert r5 == FreshlyStarted(config, p1, p2);
    assert es[1..][1..][1..][1..] == [es[4]];
    assert Run(r4, [es[4]]).room == r5;
    assert Run(r3, es[1..][1..][1..]).room == r5;
    assert Run(r2, es[1..][1..]).room == r5;
    assert Run(r1, es[1..]).room == r5;
  }

  /** After a replay, every later sequence of events, clock readings and draws is observed
      exactly as from a new room the same two players have just started. */
  lemma ReplayIsACleanSlate(r: RoomState, t: Readings, draw: nat, opening: Readings, es: seq<Event>)
    requires RoomInv(r) && DistinctIds(r)
    requires r.phase == Over && r.EveryoneWantsToReplay()
    ensures var anew := Run(NewRoom(r.config), OpeningMoves(r.p1.value, r.p2.value, opening)).room;
            && anew.phase == Started
            && Observe(Tick(r, t, draw).room, es) == Observe(anew, es)
  {
    OpeningMovesStartTheRoom(r.config, r.p1.value, r.p2.value, opening);
    AlikeRoomsAreIndistinguishable(Tick(r, t, draw).room, FreshlyStarted(r.config, r.p1.value, r.p2.value), es);
  }

  // ---------- departure ----------

  // A new room in which only `p` sits, in its slot and ready.
  function RoomWithOnly(config: RoomConfig, p: PlayerState): RoomState {
    NewRoom(config).WithSlot(p.assignment,
                             Some(NewPlayer(p.id, p.nickname, p.assignment).(isReady := true)))
  }

  /** Whatever the phase, after a departure the room is observed exactly as a new room that
      holds only the remaining player, ready, in its slot; with nobody left it is a new room. */
  lemma LeavingIsACleanSlate(r: RoomState, id: int, es: seq<Event>)
    requires RoomInv(r) && r.HasPlayerWithId(id)
    ensures var a := r.SlotOf(id).value;
            var after := RemovePlayer(r, id).room;
            var remaining := r.Slot(Other(a));
            && (remaining.None? ==> after == NewRoom(r.config))
            && (remaining.Some? ==> Observe(after, es) == Observe(RoomWithOnly(r.config, remaining.value), es))
  {
    var remaining := r.Slot(Other(r.SlotOf(id).value));
    if remaining.Some? {
      AlikeRoomsAreIndistinguishable(RemovePlayer(r, id).room, RoomWithOnly(r.config, remaining.value), es);
    }
  }

  // ---------- redelivery ----------

  function WithoutReceipt(p: Option<PlayerState>): Option<PlayerState> {
    if p.Some? then Some(p.value.(inputPressedAtServerTime := None)) else None
  }

  function WithoutReceipts(r: RoomState): RoomState {
    r.(p1 := WithoutReceipt(r.p1), p2 := WithoutReceipt(r.p2))
  }

  lemma AnnouncingAgain(r: RoomState, a: PlayerAssignment, b: bool)
    requires RoomInv(r) && r.Slot(a).Some?
    ensures HandleSetReadyState(HandleSetReadyState(r, a, b).room, a, b) == HandleSetReadyState(r, a, b)
    ensures HandleSetReplayReadyState(HandleSetReplayReadyState(r, a, b).room, a, b)
         == HandleSetReplayReadyState(r, a, b)
  {
  }

  /** The same action handled twice leaves the room of handling it once, up to the receipt
      time of a repeated input; the second handling repeats the first one's messages, except
      that a second departure publishes nothing. */
  lemma RedeliveryIsIdempotent(r: RoomState, id: int, action: PlayerAction, at1: Time, at2: Time)
    requires RoomInv(r) && DistinctIds(r)
    ensures var once := HandlePlayerMessage(r, id, action, at1);
            var twice := HandlePlayerMessage(once.room, id, action, at2);
            && WithoutReceipts(twice.room) == WithoutReceipts(once.room)
            && (!action.PlayerInput? ==> twice.room == once.room)
            && (action.PlayerInput? && r.HasPlayerWithId(id) ==>
                  twice.room.Slot(r.SlotOf(id).value).value.inputPressedAtServerTime == Some(at2))
            && twice.sent == if action.LeaveGame? then [] else once.sent
  {
    if r.SlotOf(id).Some? {
      var once := HandlePlayerMessage(r, id, action, at1);
      assert once.room.SlotOf(id) == if action.LeaveGame? then None else r.SlotOf(id);
      if action.SetReadyState? || action.SetReplayReadyState? {
        hide Broadcast;
        AnnouncingAgain(r, r.SlotOf(id).value,
                        if action.SetReadyState? then action.isReady else action.isReadyToReplay);
      }
    }
  }

  lemma ReceiptsAside(r: RoomState, s: RoomState, id: int)
    requires WithoutReceipts(r) == WithoutReceipts(s)
    ensures r.HasPlayerWithId(id) <==> s.HasPlayerWithId(id)
  {
  }

  lemma AnnouncementsUpToReceipts(r: RoomState, s: RoomState, a: PlayerAssignment, b: bool)
    requires RoomInv(r) && RoomInv(s) && WithoutReceipts(r) == WithoutReceipts(s) && r.Slot(a).Some?
    ensures HandleSetReadyState(r, a, b).sent == HandleSetReadyState(s, a, b).sent
    ensures WithoutReceipts(HandleSetReadyState(r, a, b).room) == WithoutReceipts(HandleSetReadyState(s, a, b).room)
    ensures HandleSetReplayReadyState(r, a, b).sent == HandleSetReplayReadyState(s, a, b).sent
    ensures WithoutReceipts(HandleSetReplayReadyState(r, a, b).room)
         == WithoutReceipts(HandleSetReplayReadyState(s, a, b).room)
  {
  }

  lemma LeavesUpToReceipts(r: RoomState, s: RoomState, id: int)
    requires RoomInv(r) && RoomInv(s) && WithoutReceipts(r) == WithoutReceipts(s)
    ensures RemovePlayer(r, id).sent == RemovePlayer(s, id).sent
    ensures WithoutReceipts(RemovePlayer(r, id).room) == WithoutReceipts(RemovePlayer(s, id).room)
  {
  }

  /** No action looks at a receipt time: rooms equal up to receipts handle it, at any two
      times, with the same messages and stay equal up to receipts. */
  lemma ActionsIgnoreReceipts(r: RoomState, s: RoomState, id: int, action: PlayerAction, at1: Time, at2: Time)
    requires RoomInv(r) && RoomInv(s) && WithoutReceipts(r) == WithoutReceipts(s)
    ensures HandlePlayerMessage(r, id, action, at1).sent == HandlePlayerMessage(s, id, action, at2).sent
    ensures WithoutReceipts(HandlePlayerMessage(r, id, action, at1).room)
         == WithoutReceipts(HandlePlayerMessage(s, id, action, at2).room)
  {
    hide HandleSetReadyState, HandleSetReplayReadyState, RemovePlayer;
    assert r.SlotOf(id) == s.SlotOf(id);
    if r.SlotOf(id).Some? {
      match action
      case SetReadyState(b) => AnnouncementsUpToReceipts(r, s, r.SlotOf(id).value, b);
      case SetReplayReadyState(b) => AnnouncementsUpToReceipts(r, s, r.SlotOf(id).value, b);
      case LeaveGame => LeavesUpToReceipts(r, s, id);
      case _ =>
    }
  }

  /** A second departure is a no-op unless the same id sits in both slots. */
  lemma SecondLeaveIsANoOp(r: RoomState, id: int)
    requires RoomInv(r)
    ensures (RemovePlayer(RemovePlayer(r, id).room, id) == Outcome(RemovePlayer(r, id).room, []))
            <==> !(r.IsFull() && r.p1.value.id == id && r.p2.value.id == id)
  {
    var once := RemovePlayer(r, id).room;
    assert once.HasPlayerWithId(id) <==> (r.IsFull() && r.p1.value.id == id && r.p2.value.id == id);
  }
}
