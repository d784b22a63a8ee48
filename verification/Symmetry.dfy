/** Neither slot is favoured: exchanging P1 and P2 commutes with every step. */
module Symmetry {
  import opened Messages
  import opened Chrono
  import opened RoomModel

  function SwapLobby(d: PlayerLobbyDTO): PlayerLobbyDTO {
    d.(assignment := Other(d.assignment))
  }

  function SwapDTO(d: PlayerGameResultDTO): PlayerGameResultDTO {
    d.(assignment := Other(d.assignment))
  }

  function SwapResult(g: GameResultDTO): GameResultDTO {
    GameResultDTO(if g.winningPlayer.Some? then Some(Other(g.winningPlayer.value)) else None,
                  SwapDTO(g.player2), SwapDTO(g.player1))
  }

  function SwapMessage(m: GameplayMessage): GameplayMessage {
    match m
    case RoomJoined(a, other) =>
      RoomJoined(Other(a), if other.Some? then Some(SwapLobby(other.value)) else None)
    case PlayerJoinedRoom(player) => PlayerJoinedRoom(SwapLobby(player))
    case PlayerLeftRoom(a) => PlayerLeftRoom(Other(a))
    case PlayerReadyStateChanged(a, b) => PlayerReadyStateChanged(Other(a), b)
    case GameOverEarlyInput(g) => GameOverEarlyInput(SwapResult(g))
    case GameOverWrongInput(g) => GameOverWrongInput(SwapResult(g))
    case GameOverWin(g) => GameOverWin(SwapResult(g))
    case GameOverDraw(g) => GameOverDraw(SwapResult(g))
    case PlayerReplayReadyStateChanged(a, b) => PlayerReplayReadyStateChanged(Other(a), b)
    case _ => m
  }

  function SwapMessages(ms: seq<GameplayMessage>): (r: seq<GameplayMessage>)
    ensures |r| == |ms| && forall i | 0 <= i < |ms| :: r[i] == SwapMessage(ms[i])
  {
    if ms == [] then [] else [SwapMessage(ms[0])] + SwapMessages(ms[1..])
  }

  function SwapPlayer(p: Option<PlayerState>): Option<PlayerState> {
    if p.Some? then Some(p.value.(assignment := Other(p.value.assignment))) else None
  }

  function SwapRoom(r: RoomState): (s: RoomState)
    ensures RoomInv(r) ==> RoomInv(s)
    ensures DistinctIds(r) ==> DistinctIds(s)
  {
    r.(p1 := SwapPlayer(r.p2), p2 := SwapPlayer(r.p1))
  }

  // `s` is what `o` becomes when the slots are exchanged: the room is swapped and every
  // player receives the swapped messages in the same order.
  ghost predicate Mirrors(o: Outcome, s: Outcome) {
    && s.room == SwapRoom(o.room)
    && forall id :: Inbox(id, s.sent) == SwapMessages(Inbox(id, o.sent))
  }

  lemma BroadcastMirrors(r: RoomState, m: GameplayMessage)
    requires DistinctIds(r)
    ensures Mirrors(Announce(r, m), Announce(SwapRoom(r), SwapMessage(m)))
  {
    forall id
      ensures Inbox(id, Broadcast(SwapRoom(r), SwapMessage(m))) == SwapMessages(Inbox(id, Broadcast(r, m)))
    {
      InboxBroadcast(r, m, id);
      InboxBroadcast(SwapRoom(r), SwapMessage(m), id);
    }
  }

  lemma SilenceMirrors(r: RoomState)
    ensures Mirrors(Outcome(r, []), Outcome(SwapRoom(r), []))
  {
  }

  lemma ThenMirrors(o1: Outcome, s1: Outcome, o2: Outcome, s2: Outcome)
    requires Mirrors(o1, s1) && Mirrors(o2, s2)
    ensures Mirrors(Outcome(o2.room, o1.sent + o2.sent), Outcome(s2.room, s1.sent + s2.sent))
  {
    forall id
      ensures Inbox(id, s1.sent + s2.sent) == SwapMessages(Inbox(id, o1.sent + o2.sent))
    {
      InboxAppend(id, o1.sent, o2.sent);
      InboxAppend(id, s1.sent, s2.sent);
    }
  }

  lemma CanPlayMirrors(r: RoomState, t: Readings, draw: nat)
    requires RoomInv(r) && DistinctIds(r)
    ensures DistinctIds(HandleEveryoneCanPlay(r, t, draw).room)
    ensures Mirrors(HandleEveryoneCanPlay(r, t, draw), HandleEveryoneCanPlay(SwapRoom(r), t, draw))
  {
    var o := HandleEveryoneCanPlay(r, t, draw);
    SilenceMirrors(o.room);
    if o.sent != [] {
      BroadcastMirrors(o.room, GameExpectingInput(o.room.expectedInput));
    }
  }

  // The verdict of a lone press is the swapped one when the slots are swapped.
  lemma OnePlayerPlayedSwaps(r: RoomState, t: Readings)
    requires RoomInv(r)
    ensures var o, s := HandleOnePlayerPlayed(r, t), HandleOnePlayerPlayed(SwapRoom(r), t);
            if o.sent == [] then s == Outcome(SwapRoom(o.room), [])
            else o == Announce(o.room, o.sent[0].message)
                 && s == Announce(SwapRoom(o.room), SwapMessage(o.sent[0].message))
  {
  }

  lemma OnePlayerPlayedMirrors(r: RoomState, t: Readings)
    requires RoomInv(r) && DistinctIds(r)
    ensures DistinctIds(HandleOnePlayerPlayed(r, t).room)
    ensures Mirrors(HandleOnePlayerPlayed(r, t), HandleOnePlayerPlayed(SwapRoom(r), t))
  {
    var o := HandleOnePlayerPlayed(r, t);
    OnePlayerPlayedSwaps(r, t);
    if o.sent == [] {
      SilenceMirrors(o.room);
    } else {
      BroadcastMirrors(o.room, o.sent[0].message);
    }
  }

  lemma EveryonePlayedMirrors(r: RoomState)
    requires RoomInv(r) && DistinctIds(r)
    ensures DistinctIds(HandleEveryonePlayed(r).room)
    ensures Mirrors(HandleEveryonePlayed(r), HandleEveryonePlayed(SwapRoom(r)))
  {
    var o := HandleEveryonePlayed(r);
    SilenceMirrors(o.room);
    if o.sent != [] {
      BroadcastMirrors(o.room, o.sent[0].message);
    }
  }

  lemma TimeoutMirrors(r: RoomState, t: Readings)
    requires RoomInv(r) && DistinctIds(r)
    ensures Mirrors(HandleTimeout(r, t), HandleTimeout(SwapRoom(r), t))
  {
    var o := HandleTimeout(r, t);
    SilenceMirrors(o.room);
    if o.sent != [] {
      BroadcastMirrors(o.room, o.sent[0].message);
    }
  }

  lemma TickMirrors(r: RoomState, t: Readings, draw: nat)
    requires RoomInv(r) && DistinctIds(r)
    ensures Mirrors(Tick(r, t, draw), Tick(SwapRoom(r), t, draw))
  {
    hide HandleEveryoneCanPlay, HandleOnePlayerPlayed, HandleEveryonePlayed, HandleTimeout, Inbox;
    match r.phase
    case WaitingPlayers =>
      var o := Tick(r, t, draw);
      SilenceMirrors(o.room);
      BroadcastMirrors(o.room, AllReadyGameStarting);
    case Over =>
      var o := Tick(r, t, draw);
      SilenceMirrors(o.room);
      BroadcastMirrors(o.room, AllReplayReadyGameStarting);
    case Started =>
      CanPlayMirrors(r, t, draw);
      var o := HandleEveryoneCanPlay(r, t, draw);
      var s := HandleEveryoneCanPlay(SwapRoom(r), t, draw);
      OnePlayerPlayedMirrors(o.room, t);
      ThenMirrors(o, s, HandleOnePlayerPlayed(o.room, t), HandleOnePlayerPlayed(s.room, t));
    case ExpectingInput =>
      ExpectingTickMirrors(r, t, draw);
  }

  lemma ExpectingTickMirrors(r: RoomState, t: Readings, draw: nat)
    requires RoomInv(r) && DistinctIds(r) && r.phase == ExpectingInput
    ensures Mirrors(Tick(r, t, draw), Tick(SwapRoom(r), t, draw))
  {
    hide HandleOnePlayerPlayed, HandleEveryonePlayed, HandleTimeout;
    var o1, s1 := HandleOnePlayerPlayed(r, t), HandleOnePlayerPlayed(SwapRoom(r), t);
    OnePlayerPlayedMirrors(r, t);
    var o2, s2 := HandleEveryonePlayed(o1.room), HandleEveryonePlayed(s1.room);
    EveryonePlayedMirrors(o1.room);
    ThenMirrors(o1, s1, o2, s2);
    TimeoutMirrors(o2.room, t);
    ThenMirrors(Outcome(o2.room, o1.sent + o2.sent), Outcome(s2.room, s1.sent + s2.sent),
                HandleTimeout(o2.room, t), HandleTimeout(s2.room, t));
  }

  lemma LeaveMirrors(r: RoomState, id: int)
    requires RoomInv(r) && DistinctIds(r)
    ensures Mirrors(RemovePlayer(r, id), RemovePlayer(SwapRoom(r), id))
  {
    hide Inbox;
    var o := RemovePlayer(r, id);
    SilenceMirrors(o.room);
    if r.SlotOf(id).Some? {
      BroadcastMirrors(o.room, PlayerLeftRoom(r.SlotOf(id).value));
    }
  }

  lemma SetReadyMirrors(r: RoomState, a: PlayerAssignment, b: bool)
    requires RoomInv(r) && DistinctIds(r) && r.Slot(a).Some?
    ensures Mirrors(HandleSetReadyState(r, a, b), HandleSetReadyState(SwapRoom(r), Other(a), b))
  {
    SilenceMirrors(r);
    var next := HandleSetReadyState(r, a, b).room;
    if r.phase == WaitingPlayers {
      BroadcastMirrors(next, PlayerReadyStateChanged(a, b));
      assert HandleSetReadyState(SwapRoom(r), Other(a), b)
          == Announce(SwapRoom(next), PlayerReadyStateChanged(Other(a), b));
    }
  }

  lemma SetReplayReadyMirrors(r: RoomState, a: PlayerAssignment, b: bool)
    requires RoomInv(r) && DistinctIds(r) && r.Slot(a).Some?
    ensures Mirrors(HandleSetReplayReadyState(r, a, b), HandleSetReplayReadyState(SwapRoom(r), Other(a), b))
  {
    hide Inbox;
    var next := HandleSetReplayReadyState(r, a, b).room;
    BroadcastMirrors(next, PlayerReplayReadyStateChanged(a, b));
    assert HandleSetReplayReadyState(SwapRoom(r), Other(a), b)
        == Announce(SwapRoom(next), PlayerReplayReadyStateChanged(Other(a), b));
  }

  lemma SilentActionMirrors(r: RoomState, a: PlayerAssignment, input: GameplayInput, time: int, at: Time)
    requires RoomInv(r) && DistinctIds(r) && r.Slot(a).Some?
    ensures Mirrors(HandleInput(r, a, input, time, at), HandleInput(SwapRoom(r), Other(a), input, time, at))
    ensures Mirrors(HandleNotifyCanPlay(r, a), HandleNotifyCanPlay(SwapRoom(r), Other(a)))
  {
    SilenceMirrors(HandleInput(r, a, input, time, at).room);
    SilenceMirrors(HandleNotifyCanPlay(r, a).room);
  }

  lemma ActionMirrors(r: RoomState, id: int, action: PlayerAction, at: Time)
    requires RoomInv(r) && DistinctIds(r)
    ensures Mirrors(HandlePlayerMessage(r, id, action, at), HandlePlayerMessage(SwapRoom(r), id, action, at))
  {
    hide HandleSetReadyState, HandleNotifyCanPlay, HandleInput, HandleSetReplayReadyState, RemovePlayer, Inbox;
    if r.SlotOf(id).None? {
      SilenceMirrors(r);
    } else {
      var a := r.SlotOf(id).value;
      assert SwapRoom(r).SlotOf(id) == Some(Other(a));
      match action
      case SetReadyState(b) => SetReadyMirrors(r, a, b);
      case NotifyCanPlay => SilentActionMirrors(r, a, North, 0, at);
      case PlayerInput(input, time) => SilentActionMirrors(r, a, input, time, at);
      case SetReplayReadyState(b) => SetReplayReadyMirrors(r, a, b);
      case LeaveGame => LeaveMirrors(r, id);
      case JoinGame(_, _) => SilenceMirrors(r);
    }
  }

  lemma JoinMirrors(r: RoomState, id: int, nickname: string)
    requires RoomInv(r) && DistinctIds(r) && !r.IsEmpty() && !r.HasPlayerWithId(id)
    ensures Mirrors(AddPlayer(r, id, nickname), AddPlayer(SwapRoom(r), id, nickname))
  {
    var o, s := AddPlayer(r, id, nickname), AddPlayer(SwapRoom(r), id, nickname);
    SilenceMirrors(o.room);
    if !r.IsFull() {
      assert s.room == SwapRoom(o.room) && |o.sent| == |s.sent| == 2;
      assert s.sent[0] == o.sent[0].(message := SwapMessage(o.sent[0].message));
      assert s.sent[1] == o.sent[1].(message := SwapMessage(o.sent[1].message));
      TwoEnvelopesMirror(o.sent, s.sent);
    }
  }

  lemma TwoEnvelopesMirror(sent: seq<Envelope>, swapped: seq<Envelope>)
    requires |sent| == |swapped| == 2
    requires forall i | 0 <= i < 2 :: swapped[i] == sent[i].(message := SwapMessage(sent[i].message))
    ensures forall id :: Inbox(id, swapped) == SwapMessages(Inbox(id, sent))
  {
    hide SwapMessage, SwapMessages, Inbox;
    assert sent == [sent[0], sent[1]] && swapped == [swapped[0], swapped[1]];
    forall id
      ensures Inbox(id, swapped) == SwapMessages(Inbox(id, sent))
    {
      InboxOfTwo(id, sent[0], sent[1]);
      InboxOfTwo(id, swapped[0], swapped[1]);
      var first, second := if sent[0].to == id then [sent[0].message] else [],
                           if sent[1].to == id then [sent[1].message] else [];
      SwapConcat(first, second);
      SwapOne(first);
      SwapOne(second);
    }
  }

  lemma SwapConcat(a: seq<GameplayMessage>, b: seq<GameplayMessage>)
    ensures SwapMessages(a + b) == SwapMessages(a) + SwapMessages(b)
  {
  }

  lemma SwapOne(ms: seq<GameplayMessage>)
    requires |ms| <= 1
    ensures SwapMessages(ms) == if ms == [] then [] else [SwapMessage(ms[0])]
  {
  }

  lemma InboxOfTwo(id: int, e1: Envelope, e2: Envelope)
    ensures Inbox(id, [e1, e2])
         == (if e1.to == id then [e1.message] else []) + (if e2.to == id then [e2.message] else [])
  {
    assert [e1, e2] == [e1] + [e2];
    InboxAppend(id, [e1], [e2]);
    assert [e1][1..] == [] && [e2][1..] == [];
  }

  /** Every step commutes with the exchange of the slots, except exactly a join into an
      empty room, which always takes P1. */
  lemma StepMirrors(r: RoomState, e: Event)
    requires RoomInv(r) && DistinctIds(r) && Legal(r, e)
    ensures Mirrors(Step(r, e), Step(SwapRoom(r), e)) <==> !(e.Join? && r.IsEmpty())
  {
    match e
    case Join(id, nickname) =>
      if !r.IsEmpty() { JoinMirrors(r, id, nickname); }
    case Leave(id) => LeaveMirrors(r, id);
    case Act(id, action, at) => ActionMirrors(r, id, action, at);
    case TickEvent(t, draw) => TickMirrors(r, t, draw);
  }

  // A legal run that never joins an empty room.
  predicate KeepsCompany(r: RoomState, es: seq<Event>)
    requires RoomInv(r)
    decreases |es|
  {
    es == [] ||
    (Legal(r, es[0]) && !(es[0].Join? && r.IsEmpty()) && KeepsCompany(Step(r, es[0]).room, es[1..]))
  }

  /** No slot is favoured over any run: exchanging the slots at the start exchanges the
      final room, all winners and all messages, for every player. */
  lemma {:induction false} RunMirrors(r: RoomState, es: seq<Event>)
    requires RoomInv(r) && DistinctIds(r) && KeepsCompany(r, es)
    ensures Mirrors(Run(r, es), Run(SwapRoom(r), es))
    decreases |es|
  {
    if es == [] {
      SilenceMirrors(r);
    } else {
      StepMirrors(r, es[0]);
      StepKeepsDistinctIds(r, es[0]);
      var o, s := Step(r, es[0]), Step(SwapRoom(r), es[0]);
      RunMirrors(o.room, es[1..]);
      ThenMirrors(o, s, Run(o.room, es[1..]), Run(s.room, es[1..]));
    }
  }
}
