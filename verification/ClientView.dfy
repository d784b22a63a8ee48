/** What a client can know: its messages, folded from the start, always give the exact
    lobby and phase of the room it sits in, and they follow the phase protocol. */
module ClientView {
  import opened Messages
  import opened Chrono
  import opened RoomModel

  // What a client keeps. `other` is the other player's nickname.
  datatype Client =
    | Outside
    | Inside(me: PlayerAssignment, other: Option<string>, myReady: bool, otherReady: bool,
             phase: GameplayState, expectedInput: GameplayInput)

  /** The server's truth for the player in slot `a`. */
  function ViewOf(r: RoomState, a: PlayerAssignment): Client
    requires r.Slot(a).Some?
  {
    var other := r.Slot(Other(a));
    Inside(a,
           if other.Some? then Some(other.value.nickname) else None,
           r.Slot(a).value.isReady,
           other.Some? && other.value.isReady,
           r.phase,
           r.expectedInput)
  }

  /** The client's bookkeeping: joining starts it afresh. */
  function Learn(c: Client, m: GameplayMessage): Client {
    match m
    case RoomJoined(a, other) =>
      Inside(a, if other.Some? then Some(other.value.nickname) else None,
             false, other.Some? && other.value.isReady, WaitingPlayers, North)
    case _ => if c.Outside? then c else LearnInside(c, m)
  }

  // A departure and a replay reset as resetToReplay does.
  function LearnInside(c: Client, m: GameplayMessage): Client
    requires c.Inside?
  {
    match m
    case PlayerJoinedRoom(p) => c.(other := Some(p.nickname), otherReady := p.isReady)
    case PlayerLeftRoom(_) =>
      c.(other := None, otherReady := false, myReady := true, phase := WaitingPlayers, expectedInput := North)
    case PlayerReadyStateChanged(who, b) => if who == c.me then c.(myReady := b) else c.(otherReady := b)
    case AllReadyGameStarting => c.(phase := Started)
    case GameExpectingInput(input) => c.(phase := ExpectingInput, expectedInput := input)
    case AllReplayReadyGameStarting =>
      c.(phase := Started, expectedInput := North, myReady := true, otherReady := true)
    case _ => if m.IsGameOver() then c.(phase := Over) else c
  }

  /** Which message the protocol allows next; a join may come at any time. */
  predicate Allowed(c: Client, m: GameplayMessage) {
    m.RoomJoined? || (c.Inside? && AllowedInside(c, m))
  }

  predicate AllowedInside(c: Client, m: GameplayMessage)
    requires c.Inside?
  {
    match m
    case PlayerJoinedRoom(p) => c.phase == WaitingPlayers && c.other.None? && p.assignment == Other(c.me)
    case PlayerLeftRoom(who) => c.other.Some? && who == Other(c.me)
    case PlayerReadyStateChanged(who, _) => c.phase == WaitingPlayers && (who == c.me || c.other.Some?)
    case AllReadyGameStarting => c.phase == WaitingPlayers && c.other.Some? && c.myReady && c.otherReady
    case GameExpectingInput(_) => c.phase == Started
    case GameOverEarlyInput(_) => c.phase == Started
    case PlayerReplayReadyStateChanged(who, _) => who == c.me || c.other.Some?
    case AllReplayReadyGameStarting => c.phase == Over
    case _ => m.IsGameOver() && c.phase == ExpectingInput
  }

  function LearnAll(c: Client, ms: seq<GameplayMessage>): Client
    decreases |ms|
  {
    if ms == [] then c else LearnAll(Learn(c, ms[0]), ms[1..])
  }

  predicate Accepted(c: Client, ms: seq<GameplayMessage>)
    decreases |ms|
  {
    ms == [] || (Allowed(c, ms[0]) && Accepted(Learn(c, ms[0]), ms[1..]))
  }

  lemma {:induction false} LearnAppend(c: Client, a: seq<GameplayMessage>, b: seq<GameplayMessage>)
    ensures LearnAll(c, a + b) == LearnAll(LearnAll(c, a), b)
    ensures Accepted(c, a + b) <==> Accepted(c, a) && Accepted(LearnAll(c, a), b)
    decreases |a|
  {
    if a == [] {
      assert a + b == b;
    } else {
      hide Learn, Allowed;
      TailOfSum(a, b);
      LearnAppend(Learn(c, a[0]), a[1..], b);
    }
  }

  // ---------- one step ----------

  // What `o` published brings a client that knew the truth of `r` to the truth of `o.room`;
  // a player no longer in the room hears nothing.
  ghost predicate Informs(r: RoomState, o: Outcome, id: int)
    requires DistinctIds(r) && DistinctIds(o.room)
  {
    var inbox := Inbox(id, o.sent);
    match (r.SlotOf(id), o.room.SlotOf(id))
    case (Some(a), Some(b)) =>
      && LearnAll(ViewOf(r, a), inbox) == ViewOf(o.room, b)
      && Accepted(ViewOf(r, a), inbox)
    case (None, Some(b)) =>
      forall c :: LearnAll(c, inbox) == ViewOf(o.room, b) && Accepted(c, inbox)
    case (_, None) => inbox == []
  }

  lemma SilenceInforms(r: RoomState, s: RoomState, id: int)
    requires DistinctIds(r) && DistinctIds(s) && r.SlotOf(id) == s.SlotOf(id)
    requires r.SlotOf(id).Some? ==> ViewOf(r, r.SlotOf(id).value) == ViewOf(s, r.SlotOf(id).value)
    ensures Informs(r, Outcome(s, []), id)
  {
  }

  lemma AnnouncementInforms(r: RoomState, s: RoomState, m: GameplayMessage, id: int)
    requires DistinctIds(r) && DistinctIds(s) && (s.SlotOf(id).Some? ==> r.SlotOf(id) == s.SlotOf(id))
    requires s.SlotOf(id).Some? ==>
               var a := s.SlotOf(id).value;
               Allowed(ViewOf(r, a), m) && Learn(ViewOf(r, a), m) == ViewOf(s, a)
    ensures Informs(r, Announce(s, m), id)
  {
    InboxBroadcast(s, m, id);
    if s.SlotOf(id).Some? {
      assert [m][1..] == [];
    }
  }

  lemma ThenInforms(r: RoomState, o1: Outcome, o2: Outcome, id: int)
    requires DistinctIds(r) && DistinctIds(o1.room) && DistinctIds(o2.room)
    requires r.SlotOf(id) == o1.room.SlotOf(id) == o2.room.SlotOf(id)
    requires Informs(r, o1, id) && Informs(o1.room, o2, id)
    ensures Informs(r, Outcome(o2.room, o1.sent + o2.sent), id)
  {
    InboxAppend(id, o1.sent, o2.sent);
    if r.SlotOf(id).Some? {
      LearnAppend(ViewOf(r, r.SlotOf(id).value), Inbox(id, o1.sent), Inbox(id, o2.sent));
    }
  }

  lemma CanPlayInforms(r: RoomState, t: Readings, draw: nat, id: int)
    requires RoomInv(r) && DistinctIds(r)
    ensures Informs(r, HandleEveryoneCanPlay(r, t, draw), id)
  {
    var o := HandleEveryoneCanPlay(r, t, draw);
    if o.sent == [] {
      SilenceInforms(r, o.room, id);
    } else {
      AnnouncementInforms(r, o.room, GameExpectingInput(o.room.expectedInput), id);
    }
  }

  lemma OnePlayerPlayedInforms(r: RoomState, t: Readings, id: int)
    requires RoomInv(r) && DistinctIds(r)
    ensures Informs(r, HandleOnePlayerPlayed(r, t), id)
  {
    var o := HandleOnePlayerPlayed(r, t);
    if o.sent == [] {
      SilenceInforms(r, o.room, id);
    } else {
      AnnouncementInforms(r, o.room, o.sent[0].message, id);
    }
  }

  lemma EveryonePlayedInforms(r: RoomState, id: int)
    requires RoomInv(r) && DistinctIds(r)
    ensures Informs(r, HandleEveryonePlayed(r), id)
  {
    var o := HandleEveryonePlayed(r);
    if o.sent == [] {
      SilenceInforms(r, o.room, id);
    } else {
      AnnouncementInforms(r, o.room, o.sent[0].message, id);
    }
  }

  lemma TimeoutInforms(r: RoomState, t: Readings, id: int)
    requires RoomInv(r) && DistinctIds(r)
    ensures Informs(r, HandleTimeout(r, t), id)
  {
    var o := HandleTimeout(r, t);
    if o.sent == [] {
      SilenceInforms(r, o.room, id);
    } else {
      AnnouncementInforms(r, o.room, o.sent[0].message, id);
    }
  }

  lemma ExpectingTickInforms(r: RoomState, t: Readings, draw: nat, id: int)
    requires RoomInv(r) && DistinctIds(r) && r.phase == ExpectingInput
    ensures Informs(r, Tick(r, t, draw), id)
  {
    var o1 := HandleOnePlayerPlayed(r, t);
    OnePlayerPlayedInforms(r, t, id);
    var o2 := HandleEveryonePlayed(o1.room);
    EveryonePlayedInforms(o1.room, id);
    ThenInforms(r, o1, o2, id);
    TimeoutInforms(o2.room, t, id);
    ThenInforms(r, Outcome(o2.room, o1.sent + o2.sent), HandleTimeout(o2.room, t), id);
  }

  lemma StartedTickInforms(r: RoomState, t: Readings, draw: nat, id: int)
    requires RoomInv(r) && DistinctIds(r) && r.phase == Started
    ensures Informs(r, Tick(r, t, draw), id)
  {
    var o1 := HandleEveryoneCanPlay(r, t, draw);
    CanPlayInforms(r, t, draw, id);
    OnePlayerPlayedInforms(o1.room, t, id);
    ThenInforms(r, o1, HandleOnePlayerPlayed(o1.room, t), id);
  }

  lemma StartInforms(r: RoomState, id: int)
    requires RoomInv(r) && DistinctIds(r)
    ensures Informs(r, HandleEveryoneReady(r), id)
  {
    var o := HandleEveryoneReady(r);
    if o.sent == [] {
      SilenceInforms(r, o.room, id);
    } else {
      AnnouncementInforms(r, o.room, AllReadyGameStarting, id);
    }
  }

  lemma ReplayInforms(r: RoomState, id: int)
    requires RoomInv(r) && DistinctIds(r)
    ensures Informs(r, HandleReplay(r), id)
  {
    var o := HandleReplay(r);
    if o.sent == [] {
      SilenceInforms(r, o.room, id);
    } else {
      AnnouncementInforms(r, o.room, AllReplayReadyGameStarting, id);
    }
  }

  lemma TickInforms(r: RoomState, t: Readings, draw: nat, id: int)
    requires RoomInv(r) && DistinctIds(r)
    ensures DistinctIds(Tick(r, t, draw).room)
    ensures Informs(r, Tick(r, t, draw), id)
  {
    match r.phase
    case WaitingPlayers => StartInforms(r, id);
    case Over => ReplayInforms(r, id);
    case Started => StartedTickInforms(r, t, draw, id);
    case ExpectingInput => ExpectingTickInforms(r, t, draw, id);
  }

  lemma LeaveInforms(r: RoomState, who: int, id: int)
    requires RoomInv(r) && DistinctIds(r)
    ensures Informs(r, RemovePlayer(r, who), id)
  {
    var o := RemovePlayer(r, who);
    if r.SlotOf(who).None? {
      SilenceInforms(r, o.room, id);
    } else {
      AnnouncementInforms(r, o.room, PlayerLeftRoom(r.SlotOf(who).value), id);
    }
  }

  lemma SetReadyInforms(r: RoomState, a: PlayerAssignment, b: bool, id: int)
    requires RoomInv(r) && DistinctIds(r) && r.Slot(a).Some?
    ensures Informs(r, HandleSetReadyState(r, a, b), id)
  {
    var o := HandleSetReadyState(r, a, b);
    if o.sent == [] {
      SilenceInforms(r, o.room, id);
    } else {
      AnnouncementInforms(r, o.room, PlayerReadyStateChanged(a, b), id);
    }
  }

  lemma SetReplayReadyInforms(r: RoomState, a: PlayerAssignment, b: bool, id: int)
    requires RoomInv(r) && DistinctIds(r) && r.Slot(a).Some?
    ensures Informs(r, HandleSetReplayReadyState(r, a, b), id)
  {
    AnnouncementInforms(r, HandleSetReplayReadyState(r, a, b).room, PlayerReplayReadyStateChanged(a, b), id);
  }

  lemma SilentActionInforms(r: RoomState, a: PlayerAssignment, input: GameplayInput, time: int, at: Time, id: int)
    requires RoomInv(r) && DistinctIds(r) && r.Slot(a).Some?
    ensures Informs(r, HandleInput(r, a, input, time, at), id)
    ensures Informs(r, HandleNotifyCanPlay(r, a), id)
  {
    SilenceInforms(r, HandleInput(r, a, input, time, at).room, id);
    SilenceInforms(r, HandleNotifyCanPlay(r, a).room, id);
  }

  lemma ActionInforms(r: RoomState, who: int, action: PlayerAction, at: Time, id: int)
    requires RoomInv(r) && DistinctIds(r)
    ensures DistinctIds(HandlePlayerMessage(r, who, action, at).room)
    ensures Informs(r, HandlePlayerMessage(r, who, action, at), id)
  {
    if r.SlotOf(who).None? {
      SilenceInforms(r, r, id);
    } else {
      var a := r.SlotOf(who).value;
      match action
      case SetReadyState(b) => SetReadyInforms(r, a, b, id);
      case NotifyCanPlay => SilentActionInforms(r, a, North, 0, at, id);
      case PlayerInput(input, time) => SilentActionInforms(r, a, input, time, at, id);
      case SetReplayReadyState(b) => SetReplayReadyInforms(r, a, b, id);
      case LeaveGame => LeaveInforms(r, who, id);
      case JoinGame(_, _) => SilenceInforms(r, r, id);
    }
  }

  lemma JoinInforms(r: RoomState, who: int, nickname: string, id: int)
    requires RoomInv(r) && DistinctIds(r) && !r.HasPlayerWithId(who)
    ensures DistinctIds(AddPlayer(r, who, nickname).room)
    ensures Informs(r, AddPlayer(r, who, nickname), id)
  {
    var o := AddPlayer(r, who, nickname);
    if r.IsFull() {
      SilenceInforms(r, r, id);
    } else if r.IsEmpty() {
      JoinedAlone(o.sent[0], id);
    } else {
      InboxAppend(id, [o.sent[0]], [o.sent[1]]);
      JoinedAlone(o.sent[0], id);
      JoinedAlone(o.sent[1], id);
      assert o.sent == [o.sent[0]] + [o.sent[1]];
    }
  }

  lemma JoinedAlone(e: Envelope, id: int)
    ensures Inbox(id, [e]) == if e.to == id then [e.message] else []
    ensures forall c :: LearnAll(c, [e.message]) == Learn(c, e.message)
    ensures forall c :: Accepted(c, [e.message]) <==> Allowed(c, e.message)
  {
    assert [e][1..] == [] && [e.message][1..] == [];
  }

  /** One step keeps every client informed, with allowed messages only. */
  lemma StepInforms(r: RoomState, e: Event, id: int)
    requires RoomInv(r) && DistinctIds(r) && Legal(r, e)
    ensures DistinctIds(Step(r, e).room)
    ensures Informs(r, Step(r, e), id)
  {
    StepKeepsDistinctIds(r, e);
    match e
    case Join(who, nickname) => JoinInforms(r, who, nickname, id);
    case Leave(who) => LeaveInforms(r, who, id);
    case Act(who, action, at) => ActionInforms(r, who, action, at, id);
    case TickEvent(t, draw) => TickInforms(r, t, draw, id);
  }

  // ---------- runs ----------

  // `c` is right about the room for player `id`.
  predicate Knows(c: Client, r: RoomState, id: int) {
    r.SlotOf(id).Some? ==> c == ViewOf(r, r.SlotOf(id).value)
  }

  /** Over any legal run, through departures and rejoins, a client that starts out right
      stays right, and every message it receives is one the protocol allows. */
  lemma {:induction false} RunInforms(r: RoomState, es: seq<Event>, id: int, c: Client)
    requires RoomInv(r) && DistinctIds(r) && LegalRun(r, es) && Knows(c, r, id)
    ensures Knows(LearnAll(c, Inbox(id, Run(r, es).sent)), Run(r, es).room, id)
    ensures Accepted(c, Inbox(id, Run(r, es).sent))
    decreases |es|
  {
    if es != [] {
      var o := Step(r, es[0]);
      var o2 := Run(o.room, es[1..]);
      StepInforms(r, es[0], id);
      var c1 := LearnAll(c, Inbox(id, o.sent));
      RunInforms(o.room, es[1..], id, c1);
      InboxAppend(id, o.sent, o2.sent);
      LearnAppend(c, Inbox(id, o.sent), Inbox(id, o2.sent));
    }
  }

  // ---------- what acceptance means ----------

  function Count(ms: seq<GameplayMessage>, p: GameplayMessage -> bool): nat {
    if ms == [] then 0 else (if p(ms[0]) then 1 else 0) + Count(ms[1..], p)
  }

  predicate RoundOpen(c: Client) {
    c.Inside? && (c.phase == Started || c.phase == ExpectingInput)
  }

  /** In an accepted conversation every game over closes a start of its own, and an input
      is requested at most once per start. */
  lemma {:induction false} AtMostOneGameOverPerStart(c: Client, ms: seq<GameplayMessage>)
    requires Accepted(c, ms)
    ensures Count(ms, (m: GameplayMessage) => m.IsGameOver()) + (if RoundOpen(LearnAll(c, ms)) then 1 else 0)
         <= Count(ms, (m: GameplayMessage) => m.IsStart()) + (if RoundOpen(c) then 1 else 0)
    ensures Count(ms, (m: GameplayMessage) => m.GameExpectingInput?)
            + (if LearnAll(c, ms).Inside? && LearnAll(c, ms).phase == Started then 1 else 0)
         <= Count(ms, (m: GameplayMessage) => m.IsStart()) + (if c.Inside? && c.phase == Started then 1 else 0)
    decreases |ms|
  {
    if ms != [] {
      AtMostOneGameOverPerStart(Learn(c, ms[0]), ms[1..]);
    }
  }

  // Outside an open round no verdict is allowed before the next start.
  lemma {:induction false} NoStartNoVerdict(c: Client, ms: seq<GameplayMessage>)
    requires Accepted(c, ms) && !RoundOpen(c) && forall m | m in ms :: !m.IsStart()
    ensures forall m | m in ms :: !m.IsGameOver()
    decreases |ms|
  {
    if ms != [] {
      assert forall m | m in ms[1..] :: m in ms;
      assert ms[0] in ms;
      NoStartNoVerdict(Learn(c, ms[0]), ms[1..]);
    }
  }

  // After a verdict the round is closed; next comes a replay wish, a replay start, a
  // departure or a new join.
  lemma AfterGameOver(c: Client, before: seq<GameplayMessage>, verdict: GameplayMessage, rest: seq<GameplayMessage>)
    requires Accepted(c, before + ([verdict] + rest)) && verdict.IsGameOver()
    ensures Accepted(Learn(LearnAll(c, before), verdict), rest)
    ensures !RoundOpen(Learn(LearnAll(c, before), verdict))
    ensures rest == [] || rest[0].AllReplayReadyGameStarting? || rest[0].PlayerReplayReadyStateChanged?
            || rest[0].PlayerLeftRoom? || rest[0].RoomJoined?
  {
    hide LearnInside, AllowedInside;
    var d := LearnAll(c, before);
    LearnAppend(c, before, [verdict] + rest);
    TailOfCons(verdict, rest);
    VerdictCloses(d, verdict);
    if rest != [] {
      OverAllows(Learn(d, verdict), rest[0]);
    }
  }

  lemma VerdictCloses(c: Client, verdict: GameplayMessage)
    requires Allowed(c, verdict) && verdict.IsGameOver()
    ensures Learn(c, verdict).Inside? && Learn(c, verdict).phase == Over
  {
  }

  lemma OverAllows(c: Client, m: GameplayMessage)
    requires c.Inside? && c.phase == Over && Allowed(c, m)
    ensures m.AllReplayReadyGameStarting? || m.PlayerReplayReadyStateChanged? || m.PlayerLeftRoom? || m.RoomJoined?
  {
  }

  lemma NextVerdictNeedsAStart(c: Client, before: seq<GameplayMessage>, verdict: GameplayMessage,
                               between: seq<GameplayMessage>, rest: seq<GameplayMessage>)
    requires Accepted(c, before + ([verdict] + (between + rest)))
    requires verdict.IsGameOver() && exists m | m in between :: m.IsGameOver()
    ensures exists m | m in between :: m.IsStart()
  {
    AfterGameOver(c, before, verdict, between + rest);
    var d := Learn(LearnAll(c, before), verdict);
    LearnAppend(d, between, rest);
    if forall m | m in between :: !m.IsStart() {
      NoStartNoVerdict(d, between);
      assert false;
    }
  }

  /** A game over is the last word of its round: in an accepted conversation a start lies
      between any two verdicts. */
  lemma StartBetweenVerdicts(c: Client, ms: seq<GameplayMessage>, i: nat, j: nat)
    requires Accepted(c, ms) && i < j < |ms| && ms[i].IsGameOver() && ms[j].IsGameOver()
    ensures exists k | i < k < j :: ms[k].IsStart()
  {
    hide Accepted;
    var between, rest := ms[i + 1..j + 1], ms[j + 1..];
    assert ms == ms[..i] + ([ms[i]] + (between + rest));
    assert between[j - i - 1] == ms[j];
    NextVerdictNeedsAStart(c, ms[..i], ms[i], between, rest);
    var k :| 0 <= k < |between| && between[k].IsStart();
    assert ms[i + 1 + k] == between[k];
  }

  /** So over every legal run no player is sent two verdicts without a start in between. */
  lemma VerdictsAlternateWithStarts(r: RoomState, es: seq<Event>, id: int, c: Client, i: nat, j: nat)
    requires RoomInv(r) && DistinctIds(r) && LegalRun(r, es) && Knows(c, r, id)
    requires var inbox := Inbox(id, Run(r, es).sent);
             i < j < |inbox| && inbox[i].IsGameOver() && inbox[j].IsGameOver()
    ensures exists k | i < k < j :: Inbox(id, Run(r, es).sent)[k].IsStart()
  {
    RunInforms(r, es, id, c);
    StartBetweenVerdicts(c, Inbox(id, Run(r, es).sent), i, j);
  }
}
