/** A whole pass over the subscriber map while the network thread keeps pushing: call by
    call, in any interleaving. It is `DrainPlayers` over queues that account for every push. */
module Passes {
  import opened Messages
  import opened ManagerModel
  import opened ServerRuns
  import opened Dispatch

  // The player being drained: its snapshot, the callbacks already run for the front of its
  // queue, and the messages already popped.
  datatype Visit = Visit(id: int, snapshot: seq<Subscriber>, called: nat, popped: nat)

  datatype Pass = Pass(world: World, actions: ActionQueues, toVisit: seq<int>, current: Option<Visit>)

  datatype Move =
    | Push(id: int, action: PlayerAction)   // the network thread, at any time, for anybody
    | Begin                                 // the next player of the map: its list is copied
    | CallNext
    | Pop
    | End

  // The queue being drained.
  function Front(p: Pass): seq<PlayerAction> {
    if p.current.Some? then Lookup(p.actions, p.current.value.id) else []
  }

  predicate Enabled(p: Pass, a: Move) {
    match a
    case Push(_, _) => true
    case Begin => p.current.None? && p.toVisit != []
    case CallNext => p.current.Some? && Front(p) != [] && p.current.value.called < |p.current.value.snapshot|
    case Pop => p.current.Some? && Front(p) != [] && p.current.value.called == |p.current.value.snapshot|
    case End => p.current.Some? && Front(p) == []
  }

  function Next(p: Pass, a: Move, supply: Supply): (q: Pass)
    requires RoomsOk(p.world.rooms) && Enabled(p, a)
    ensures RoomsOk(q.world.rooms)
  {
    match a
    case Push(id, action) => p.(actions := p.actions[id := Lookup(p.actions, id) + [action]])
    case Begin =>
      p.(toVisit := p.toVisit[1..], current := Some(Visit(p.toVisit[0], Lookup(p.world.subs, p.toVisit[0]), 0, 0)))
    case CallNext =>
      var v := p.current.value;
      p.(world := Deliver(p.world, v.id, v.snapshot[v.called], Front(p)[0], supply(v.id, v.popped, v.called)),
         current := Some(v.(called := v.called + 1)))
    case Pop =>
      var v := p.current.value;
      p.(actions := p.actions[v.id := Front(p)[1..]], current := Some(v.(called := 0, popped := v.popped + 1)))
    case End => p.(current := None)
  }

  predicate Possible(p: Pass, moves: seq<Move>, supply: Supply)
    requires RoomsOk(p.world.rooms)
    decreases |moves|
  {
    moves == [] || (Enabled(p, moves[0]) && Possible(Next(p, moves[0], supply), moves[1..], supply))
  }

  function After(p: Pass, moves: seq<Move>, supply: Supply): (q: Pass)
    requires RoomsOk(p.world.rooms) && Possible(p, moves, supply)
    ensures RoomsOk(q.world.rooms)
    decreases |moves|
  {
    if moves == [] then p else After(Next(p, moves[0], supply), moves[1..], supply)
  }

  predicate Done(p: Pass) {
    p.toVisit == [] && p.current.None?
  }

  function PushedFor(id: int, moves: seq<Move>): seq<PlayerAction> {
    if moves == [] then []
    else (if moves[0].Push? && moves[0].id == id then [moves[0].action] else []) + PushedFor(id, moves[1..])
  }

  // Every JOIN_GAME is first called, or dropped for want of a subscriber, when its player
  // is in no room.
  predicate LegalMove(p: Pass, a: Move)
    requires Enabled(p, a)
  {
    (a.CallNext? && p.current.value.called == 0) || (a.Pop? && p.current.value.snapshot == []) ==>
      (Front(p)[0].JoinGame? ==> Nowhere(p.world.rooms, p.current.value.id))
  }

  predicate LegalMoves(p: Pass, moves: seq<Move>, supply: Supply)
    requires RoomsOk(p.world.rooms) && Possible(p, moves, supply)
    decreases |moves|
  {
    moves == [] || (LegalMove(p, moves[0]) && LegalMoves(Next(p, moves[0], supply), moves[1..], supply))
  }

  // ---------- what is left of a pass ----------

  predicate WellFormed(p: Pass) {
    && RoomsOk(p.world.rooms)
    && NoDuplicates(p.toVisit)
    && (p.current.Some? ==>
          p.current.value.id !in p.toVisit && p.current.value.called <= |p.current.value.snapshot|)
  }

  // The rest of the current visit, if `queue` is what it is going to serve.
  function RestOfVisit(w: World, v: Visit, queue: seq<PlayerAction>, supply: Supply): (x: World)
    requires RoomsOk(w.rooms) && v.called <= |v.snapshot|
    ensures RoomsOk(x.rooms)
  {
    if queue == [] then w
    else
      var cs := ChancesFor(supply, v.id, v.popped, |v.snapshot|);
      var next := DeliverAll(w, v.id, v.snapshot[v.called..], queue[0], cs[v.called..]);
      DrainPlayer(next, v.id, v.snapshot, queue[1..], v.popped + 1, supply)
  }

  function AfterVisit(p: Pass, served: ActionQueues, supply: Supply): (w: World)
    requires WellFormed(p)
    ensures RoomsOk(w.rooms)
  {
    if p.current.None? then p.world
    else RestOfVisit(p.world, p.current.value, Lookup(served, p.current.value.id), supply)
  }

  function Rest(p: Pass, served: ActionQueues, supply: Supply): (w: World)
    requires WellFormed(p)
    ensures RoomsOk(w.rooms)
  {
    DrainPlayers(AfterVisit(p, served, supply), p.toVisit, served, supply)
  }

  predicate LegalVisit(w: World, v: Visit, queue: seq<PlayerAction>, supply: Supply)
    requires RoomsOk(w.rooms) && v.called <= |v.snapshot|
  {
    queue == [] ||
    (var cs := ChancesFor(supply, v.id, v.popped, |v.snapshot|);
     var next := DeliverAll(w, v.id, v.snapshot[v.called..], queue[0], cs[v.called..]);
     && (v.called == 0 && queue[0].JoinGame? ==> Nowhere(w.rooms, v.id))
     && LegalDrain(next, v.id, v.snapshot, queue[1..], v.popped + 1, supply))
  }

  predicate LegalRest(p: Pass, served: ActionQueues, supply: Supply)
    requires WellFormed(p)
  {
    && (p.current.Some? ==>
          LegalVisit(p.world, p.current.value, Lookup(served, p.current.value.id), supply))
    && LegalDrains(AfterVisit(p, served, supply), p.toVisit, served, supply)
  }

  predicate Pending(p: Pass, id: int) {
    id in p.toVisit || (p.current.Some? && p.current.value.id == id)
  }

  // `served` is what the rest of the pass serves: a pending player's queue and what is
  // pushed for it in time; nothing of anybody else.
  ghost predicate Accounts(p: Pass, moves: seq<Move>, served: ActionQueues, end: Pass) {
    forall id :: AccountsFor(Pending(p, id), Lookup(p.actions, id), PushedFor(id, moves),
                             Lookup(served, id), Lookup(end.actions, id))
  }

  predicate AccountsFor(pending: bool, queue: seq<PlayerAction>, pushed: seq<PlayerAction>,
                        served: seq<PlayerAction>, left: seq<PlayerAction>)
  {
    && queue + pushed == served + left
    && if pending then queue <= served else served == []
  }

  lemma AccountsAfterPush(pending: bool, queue: seq<PlayerAction>, action: PlayerAction, pushed: seq<PlayerAction>,
                          served: seq<PlayerAction>, left: seq<PlayerAction>)
    requires AccountsFor(pending, queue + [action], pushed, served, left)
    ensures AccountsFor(pending, queue, [action] + pushed, served, left)
  {
    assert queue + ([action] + pushed) == (queue + [action]) + pushed;
    if pending {
      assert queue == (queue + [action])[..|queue|] == served[..|queue|];
    }
  }

  lemma AccountsAtEnd(pushed: seq<PlayerAction>, served: seq<PlayerAction>, left: seq<PlayerAction>)
    requires AccountsFor(false, [], pushed, served, left)
    ensures AccountsFor(true, [], pushed, served, left) && served == []
  {
  }

  lemma AccountsAfterPop(front: PlayerAction, queue: seq<PlayerAction>, pushed: seq<PlayerAction>,
                         served: seq<PlayerAction>, left: seq<PlayerAction>)
    requires AccountsFor(true, queue, pushed, served, left)
    ensures AccountsFor(true, [front] + queue, pushed, [front] + served, left)
  {
    assert ([front] + queue) + pushed == [front] + (queue + pushed) == [front] + (served + left);
    assert [front] + (served + left) == ([front] + served) + left;
  }

  // Only the queues of the listed players matter.
  lemma {:induction false} OnlyListedQueuesMatter(w: World, order: seq<int>, a: ActionQueues, b: ActionQueues,
                                                  supply: Supply)
    requires RoomsOk(w.rooms) && forall id | id in order :: Lookup(a, id) == Lookup(b, id)
    ensures DrainPlayers(w, order, a, supply) == DrainPlayers(w, order, b, supply)
    ensures LegalDrains(w, order, a, supply) <==> LegalDrains(w, order, b, supply)
    decreases |order|
  {
    hide DrainPlayer, LegalDrain, Lookup;
    if order != [] {
      assert order[0] in order && forall id | id in order[1..] :: id in order;
      var next := DrainPlayer(w, order[0], Lookup(w.subs, order[0]), Lookup(a, order[0]), 0, supply);
      OnlyListedQueuesMatter(next, order[1..], a, b, supply);
    }
  }

  lemma NextIsWellFormed(p: Pass, a: Move, supply: Supply)
    requires WellFormed(p) && Enabled(p, a)
    ensures WellFormed(Next(p, a, supply))
  {
    hide Deliver;
  }

  // A visit from its start is a drain of the player.
  lemma VisitFromStart(w: World, v: Visit, queue: seq<PlayerAction>, supply: Supply)
    requires RoomsOk(w.rooms) && v.called == 0
    ensures RestOfVisit(w, v, queue, supply) == DrainPlayer(w, v.id, v.snapshot, queue, v.popped, supply)
    ensures LegalVisit(w, v, queue, supply) <==> LegalDrain(w, v.id, v.snapshot, queue, v.popped, supply)
  {
    hide DeliverAll;
    assert v.snapshot[0..] == v.snapshot;
    assert ChancesFor(supply, v.id, v.popped, |v.snapshot|)[0..] == ChancesFor(supply, v.id, v.popped, |v.snapshot|);
  }

  // A call is the next delivery of the visit.
  lemma VisitAfterCall(w: World, v: Visit, queue: seq<PlayerAction>, supply: Supply)
    requires RoomsOk(w.rooms) && v.called < |v.snapshot| && queue != []
    ensures var next := Deliver(w, v.id, v.snapshot[v.called], queue[0], supply(v.id, v.popped, v.called));
            var u := v.(called := v.called + 1);
            && RestOfVisit(w, v, queue, supply) == RestOfVisit(next, u, queue, supply)
            && (&& LegalVisit(next, u, queue, supply)
                && (v.called == 0 && queue[0].JoinGame? ==> Nowhere(w.rooms, v.id))
                ==>
                LegalVisit(w, v, queue, supply))
  {
    hide Deliver, DrainPlayer, LegalDrain;
    var cs := ChancesFor(supply, v.id, v.popped, |v.snapshot|);
    assert v.snapshot[v.called..][0] == v.snapshot[v.called] && cs[v.called..][0] == cs[v.called];
    assert v.snapshot[v.called..][1..] == v.snapshot[v.called + 1..];
    assert cs[v.called..][1..] == cs[v.called + 1..];
  }

  // Popping ends a message of the visit.
  lemma VisitAfterPop(w: World, v: Visit, front: PlayerAction, queue: seq<PlayerAction>, supply: Supply)
    requires RoomsOk(w.rooms) && v.called == |v.snapshot|
    ensures var u := v.(called := 0, popped := v.popped + 1);
            && RestOfVisit(w, v, [front] + queue, supply) == RestOfVisit(w, u, queue, supply)
            && (&& LegalVisit(w, u, queue, supply)
                && (v.snapshot == [] && front.JoinGame? ==> Nowhere(w.rooms, v.id))
                ==>
                LegalVisit(w, v, [front] + queue, supply))
  {
    VisitFromStart(w, v.(called := 0, popped := v.popped + 1), queue, supply);
    hide DrainPlayer, LegalDrain;
    assert ([front] + queue)[1..] == queue;
    assert v.snapshot[v.called..] == [];
  }

  lemma PushBack(p: Pass, moves: seq<Move>, served: ActionQueues, end: Pass, supply: Supply)
    requires WellFormed(p) && moves != [] && moves[0].Push?
    requires Accounts(Next(p, moves[0], supply), moves[1..], served, end)
    ensures Accounts(p, moves, served, end)
  {
    hide AccountsFor, WellFormed;
    var q := Next(p, moves[0], supply);
    forall id
      ensures AccountsFor(Pending(p, id), Lookup(p.actions, id), PushedFor(id, moves),
                          Lookup(served, id), Lookup(end.actions, id))
    {
      var pushed := PushedFor(id, moves[1..]);
      assert AccountsFor(Pending(q, id), Lookup(q.actions, id), pushed, Lookup(served, id), Lookup(end.actions, id));
      if moves[0].id == id {
        AccountsAfterPush(Pending(p, id), Lookup(p.actions, id), moves[0].action, pushed,
                          Lookup(served, id), Lookup(end.actions, id));
      } else {
        assert [] + pushed == pushed;
      }
    }
  }

  // A move that pushes nothing, leaves the queues alone and keeps the pending players.
  lemma QuietBack(p: Pass, q: Pass, moves: seq<Move>, served: ActionQueues, end: Pass)
    requires moves != [] && !moves[0].Push? && Accounts(q, moves[1..], served, end)
    requires q.actions == p.actions && forall id :: Pending(p, id) <==> Pending(q, id)
    ensures Accounts(p, moves, served, end)
  {
    hide AccountsFor, Pending;
    forall id
      ensures AccountsFor(Pending(p, id), Lookup(p.actions, id), PushedFor(id, moves),
                          Lookup(served, id), Lookup(end.actions, id))
    {
      assert PushedFor(id, moves) == [] + PushedFor(id, moves[1..]) == PushedFor(id, moves[1..]);
      assert AccountsFor(Pending(q, id), Lookup(q.actions, id), PushedFor(id, moves[1..]),
                         Lookup(served, id), Lookup(end.actions, id));
    }
  }

  lemma BeginBack(p: Pass, moves: seq<Move>, served: ActionQueues, end: Pass, supply: Supply)
    requires WellFormed(p) && moves != [] && moves[0].Begin? && Enabled(p, Begin)
    requires Accounts(Next(p, Begin, supply), moves[1..], served, end)
    ensures Accounts(p, moves, served, end)
    ensures WellFormed(Next(p, Begin, supply))
    ensures Rest(p, served, supply) == Rest(Next(p, Begin, supply), served, supply)
    ensures LegalRest(Next(p, Begin, supply), served, supply) ==> LegalRest(p, served, supply)
  {
    hide Accounts, RestOfVisit, LegalVisit, DrainPlayer, LegalDrain, Lookup;
    var q := Next(p, Begin, supply);
    NextIsWellFormed(p, Begin, supply);
    VisitFromStart(p.world, q.current.value, Lookup(served, p.toVisit[0]), supply);
    assert p.toVisit == [p.toVisit[0]] + p.toVisit[1..];
    assert forall id :: Pending(p, id) <==> Pending(q, id);
    QuietBack(p, q, moves, served, end);
  }

  lemma CallBack(p: Pass, moves: seq<Move>, served: ActionQueues, end: Pass, supply: Supply)
    requires WellFormed(p) && moves != [] && moves[0].CallNext? && Enabled(p, CallNext)
    requires Accounts(Next(p, CallNext, supply), moves[1..], served, end)
    ensures Accounts(p, moves, served, end)
    ensures WellFormed(Next(p, CallNext, supply))
    ensures Rest(p, served, supply) == Rest(Next(p, CallNext, supply), served, supply)
    ensures LegalMove(p, CallNext) && LegalRest(Next(p, CallNext, supply), served, supply) ==>
              LegalRest(p, served, supply)
  {
    hide RestOfVisit, LegalVisit, DrainPlayers, LegalDrains, Deliver, PushedFor;
    var q, v := Next(p, CallNext, supply), p.current.value;
    NextIsWellFormed(p, CallNext, supply);
    FrontIsServed(q, moves[1..], served, end);
    hide Accounts, Lookup;
    QuietBack(p, q, moves, served, end);
    VisitAfterCall(p.world, v, Lookup(served, v.id), supply);
  }

  // The front of the current queue is the first message still to be served.
  lemma FrontIsServed(p: Pass, moves: seq<Move>, served: ActionQueues, end: Pass)
    requires p.current.Some? && Front(p) != [] && Accounts(p, moves, served, end)
    ensures Lookup(served, p.current.value.id) != [] && Lookup(served, p.current.value.id)[0] == Front(p)[0]
  {
    var id := p.current.value.id;
    hide PushedFor;
    assert AccountsFor(Pending(p, id), Lookup(p.actions, id), PushedFor(id, moves),
                       Lookup(served, id), Lookup(end.actions, id));
  }

  lemma PopBack(p: Pass, moves: seq<Move>, served: ActionQueues, end: Pass, supply: Supply)
    returns (more: ActionQueues)
    requires WellFormed(p) && moves != [] && moves[0].Pop? && Enabled(p, Pop)
    requires Accounts(Next(p, Pop, supply), moves[1..], served, end)
    ensures Accounts(p, moves, more, end)
    ensures WellFormed(Next(p, Pop, supply)) && Rest(p, more, supply) == Rest(Next(p, Pop, supply), served, supply)
    ensures LegalMove(p, Pop) && LegalRest(Next(p, Pop, supply), served, supply) ==> LegalRest(p, more, supply)
  {
    hide Accounts, RestOfVisit, LegalVisit, DrainPlayers, LegalDrains;
    var q, v, front := Next(p, Pop, supply), p.current.value, Front(p)[0];
    var queue := Lookup(served, v.id);
    more := served[v.id := [front] + queue];
    NextIsWellFormed(p, Pop, supply);
    PopAccounts(p, moves, served, more, end, supply);
    VisitAfterPop(p.world, v, front, queue, supply);
    assert Lookup(more, v.id) == [front] + queue;
    assert forall id | id in p.toVisit :: Lookup(more, id) == Lookup(served, id);
    hide Lookup;
    OnlyListedQueuesMatter(RestOfVisit(p.world, v, [front] + queue, supply), p.toVisit, more, served, supply);
  }

  lemma PopAccounts(p: Pass, moves: seq<Move>, served: ActionQueues, more: ActionQueues, end: Pass, supply: Supply)
    requires WellFormed(p) && moves != [] && moves[0].Pop? && Enabled(p, Pop)
    requires Accounts(Next(p, Pop, supply), moves[1..], served, end)
    requires more == served[p.current.value.id := [Front(p)[0]] + Lookup(served, p.current.value.id)]
    ensures Accounts(p, moves, more, end)
  {
    hide AccountsFor, WellFormed;
    var q, front := Next(p, Pop, supply), Front(p);
    assert front == [front[0]] + front[1..];
    forall id
      ensures AccountsFor(Pending(p, id), Lookup(p.actions, id), PushedFor(id, moves),
                          Lookup(more, id), Lookup(end.actions, id))
    {
      var pushed := PushedFor(id, moves[1..]);
      assert PushedFor(id, moves) == [] + pushed == pushed;
      assert AccountsFor(Pending(q, id), Lookup(q.actions, id), pushed, Lookup(served, id), Lookup(end.actions, id));
      if id == p.current.value.id {
        AccountsAfterPop(front[0], front[1..], pushed, Lookup(served, id), Lookup(end.actions, id));
      }
    }
  }

  lemma EndAccounts(p: Pass, moves: seq<Move>, served: ActionQueues, end: Pass, supply: Supply)
    requires WellFormed(p) && moves != [] && moves[0].End? && Enabled(p, End)
    requires Accounts(Next(p, End, supply), moves[1..], served, end)
    ensures Accounts(p, moves, served, end)
    ensures Lookup(served, p.current.value.id) == []
  {
    hide AccountsFor;
    var q, last := Next(p, End, supply), p.current.value.id;
    forall id
      ensures AccountsFor(Pending(p, id), Lookup(p.actions, id), PushedFor(id, moves),
                          Lookup(served, id), Lookup(end.actions, id))
      ensures id == last ==> Lookup(served, id) == []
    {
      assert PushedFor(id, moves) == [] + PushedFor(id, moves[1..]) == PushedFor(id, moves[1..]);
      assert AccountsFor(Pending(q, id), Lookup(q.actions, id), PushedFor(id, moves[1..]),
                         Lookup(served, id), Lookup(end.actions, id));
      if id == last {
        AccountsAtEnd(PushedFor(id, moves[1..]), Lookup(served, id), Lookup(end.actions, id));
      }
    }
  }

  lemma EndBack(p: Pass, moves: seq<Move>, served: ActionQueues, end: Pass, supply: Supply)
    requires WellFormed(p) && moves != [] && moves[0].End? && Enabled(p, End)
    requires Accounts(Next(p, End, supply), moves[1..], served, end)
    ensures Accounts(p, moves, served, end)
    ensures WellFormed(Next(p, End, supply)) && Rest(p, served, supply) == Rest(Next(p, End, supply), served, supply)
    ensures LegalRest(Next(p, End, supply), served, supply) ==> LegalRest(p, served, supply)
  {
    hide DrainPlayers, LegalDrains, Accounts;
    NextIsWellFormed(p, End, supply);
    EndAccounts(p, moves, served, end, supply);
  }

  /** From any stage of a pass to its end, whatever is pushed meanwhile: the world becomes
      what the rest of the pass makes of some queues, and these account for every action. */
  lemma {:induction false} RestOfPass(p: Pass, moves: seq<Move>, supply: Supply) returns (served: ActionQueues)
    requires WellFormed(p) && Possible(p, moves, supply) && Done(After(p, moves, supply))
    ensures Accounts(p, moves, served, After(p, moves, supply))
    ensures After(p, moves, supply).world == Rest(p, served, supply)
    ensures LegalMoves(p, moves, supply) ==> LegalRest(p, served, supply)
    decreases |moves|
  {
    served := map[];
    if moves != [] {
      hide Rest, LegalRest, Accounts, WellFormed, Next, LegalMove;
      var q, end := Next(p, moves[0], supply), After(p, moves, supply);
      NextIsWellFormed(p, moves[0], supply);
      served := RestOfPass(q, moves[1..], supply);
      match moves[0]
      case Push(_, _) =>
        PushBack(p, moves, served, end, supply);
        PushChangesNoWorld(p, moves[0], served, supply);
      case Begin => BeginBack(p, moves, served, end, supply);
      case CallNext => CallBack(p, moves, served, end, supply);
      case Pop => served := PopBack(p, moves, served, end, supply);
      case End => EndBack(p, moves, served, end, supply);
    }
  }

  lemma PushChangesNoWorld(p: Pass, a: Move, served: ActionQueues, supply: Supply)
    requires WellFormed(p) && a.Push?
    ensures WellFormed(Next(p, a, supply)) && Rest(p, served, supply) == Rest(Next(p, a, supply), served, supply)
    ensures LegalRest(p, served, supply) <==> LegalRest(Next(p, a, supply), served, supply)
  {
  }

  /** A pass under any interleaving with the network thread is `DrainPlayers` over queues
      `served`: for a player of the map all that was queued when the pass began and a first
      part of what was pushed to it during the pass, the rest staying queued; for anybody
      else nothing. If joins come from players in no room, it keeps every server invariant. */
  lemma InterleavedPassIsAPass(w: World, order: seq<int>, actions: ActionQueues, moves: seq<Move>, supply: Supply)
    returns (served: ActionQueues)
    requires ServerInv(w) && NoDuplicates(order) && forall id | id in order :: id in w.subs
    requires Possible(Pass(w, actions, order, None), moves, supply)
    requires Done(After(Pass(w, actions, order, None), moves, supply))
    ensures var end := After(Pass(w, actions, order, None), moves, supply);
            && end.world == DrainPlayers(w, order, served, supply)
            && (forall id ::
                  Lookup(actions, id) + PushedFor(id, moves) == Lookup(served, id) + Lookup(end.actions, id))
            && (forall id ::
                  if id in order then Lookup(actions, id) <= Lookup(served, id) else Lookup(served, id) == [])
            && (LegalMoves(Pass(w, actions, order, None), moves, supply) ==> ServerInv(end.world))
  {
    var p := Pass(w, actions, order, None);
    served := RestOfPass(p, moves, supply);
    assert forall id :: Pending(p, id) <==> id in order;
    if LegalMoves(p, moves, supply) {
      PassKeepsInv(w, order, served, supply);
    }
  }
}
