/** Concurrent refreshes: `_refresh_lock` and the one `_frame_arrival` slot, as a state machine over
    the steps any number of callers can take, in any order, between awaits. */
module RefreshLock {
  import opened Wrappers

  type Caller = nat

  /** Where a caller of `async_refresh_and_settle` is: queued for the lock, sending the dump request
      or waiting for frames (both inside the locked body), or gone. */
  datatype Stage = Queued | Sending | Waiting | Finished {
    predicate InBody() {
      Sending? || Waiting?
    }
  }

  /** `arrival` names the caller whose event sits in `_frame_arrival`; `set` are the events set. */
  datatype World = World(
    stages: map<Caller, Stage>, queue: seq<Caller>, holder: Option<Caller>,
    arrival: Option<Caller>, events: set<Caller>, busOpen: bool)

  const START := World(map[], [], None, None, {}, true)

  datatype Move =
    | Call(c: Caller)
    | Acquire(c: Caller)
    | SendEnds(c: Caller, ok: bool)
    | ClearEvent(c: Caller)
    | Settle(c: Caller)
    | Cancel(c: Caller)
    | FrameAccepted
    | BusChanges(open: bool)

  function StageOf(w: World, c: Caller): Option<Stage> {
    if c in w.stages then Some(w.stages[c]) else None
  }

  /** The `finally` of the body together with the release of the lock. */
  function Leave(w: World, c: Caller): World {
    w.(stages := w.stages[c := Finished], arrival := None, holder := None)
  }

  /** One move; a move that is not possible in `w` changes nothing. */
  function Next(w: World, m: Move): World {
    match m
    case Call(c) =>
      if c in w.stages then w
      else if !w.busOpen then w.(stages := w.stages[c := Finished])
      else w.(stages := w.stages[c := Queued], queue := w.queue + [c])
    case Acquire(c) =>
      if w.holder.Some? || w.queue == [] || w.queue[0] != c then w
      else
        var w' := w.(queue := w.queue[1..]);
        if !w.busOpen then w'.(stages := w.stages[c := Finished])
        else w'.(stages := w.stages[c := Sending], holder := Some(c), arrival := Some(c), events := w.events - {c})
    case SendEnds(c, ok) =>
      if StageOf(w, c) != Some(Sending) then w
      else if ok then w.(stages := w.stages[c := Waiting])
      else Leave(w, c)
    case ClearEvent(c) =>
      if StageOf(w, c) != Some(Waiting) then w else w.(events := w.events - {c})
    case Settle(c) =>
      if StageOf(w, c) != Some(Waiting) then w else Leave(w, c)
    case Cancel(c) =>
      (match StageOf(w, c)
       case Some(Queued) => w.(stages := w.stages[c := Finished], queue := Without(w.queue, c))
       case Some(Finished) => w
       case None => w
       case Some(_) => Leave(w, c))
    case FrameAccepted =>
      if w.arrival.Some? then w.(events := w.events + {w.arrival.value}) else w
    case BusChanges(open) => w.(busOpen := open)
  }

  function Without(q: seq<Caller>, c: Caller): (r: seq<Caller>)
    ensures forall x :: x in r <==> x in q && x != c
    ensures Distinct(q) ==> Distinct(r)
  {
    if q == [] then []
    else
      var rest := Without(q[1..], c);
      assert Distinct(q) ==> Distinct(q[1..]) && q[0] !in q[1..];
      if q[0] == c then rest else [q[0]] + rest
  }

  predicate Distinct(q: seq<Caller>) {
    forall i, j :: 0 <= i < j < |q| ==> q[i] != q[j]
  }

  function Run(moves: seq<Move>): World {
    if moves == [] then START else Next(Run(moves[..|moves| - 1]), moves[|moves| - 1])
  }

  ghost predicate Inv(w: World) {
    && w.arrival == w.holder
    && (forall c :: w.holder == Some(c) <==> c in w.stages && w.stages[c].InBody())
    && (forall c :: c in w.queue <==> c in w.stages && w.stages[c].Queued?)
    && Distinct(w.queue)
  }

  lemma MoveKeepsInv(w: World, m: Move)
    requires Inv(w)
    ensures Inv(Next(w, m))
  {
    if m.Acquire? && w.queue != [] {
      assert w.queue == [w.queue[0]] + w.queue[1..];
      assert w.queue[0] in w.queue;
      assert w.queue[0] !in w.queue[1..];
    }
    if m.Cancel? {
      assert forall c :: c in Next(w, m).stages <==> c in w.stages;
    }
  }

  /** Over every run of any number of callers: the event in the slot is that of the lock holder, who
      is the one caller inside the body; when nobody is inside, the slot is empty. */
  lemma {:induction false} ArrivalBelongsToHolder(moves: seq<Move>)
    ensures Inv(Run(moves))
    ensures var w := Run(moves);
            && w.arrival == w.holder
            && (forall c :: w.arrival == Some(c) <==> c in w.stages && w.stages[c].InBody())
  {
    if moves != [] {
      ArrivalBelongsToHolder(moves[..|moves| - 1]);
      MoveKeepsInv(Run(moves[..|moves| - 1]), moves[|moves| - 1]);
    }
  }

  /** So no wake-up is lost: an accepted frame sets the event of a caller exactly when that caller is
      inside the body, and leaving the body empties the slot however it is left. */
  lemma FrameWakesTheWaiter(moves: seq<Move>, c: Caller)
    ensures var w := Run(moves);
            && (StageOf(w, c).Some? && StageOf(w, c).value.InBody() ==> c in Next(w, FrameAccepted).events)
            && (forall other :: other in Next(w, FrameAccepted).events && other !in w.events ==>
                  StageOf(w, other).Some? && StageOf(w, other).value.InBody())
    ensures var w, m := Run(moves), Cancel(c);
            StageOf(w, c).Some? && StageOf(w, c).value.InBody() ==>
              Next(w, m).arrival == None && Next(w, m).holder == None
    ensures var w := Run(moves);
            StageOf(w, c) == Some(Waiting) ==> Next(w, Settle(c)).arrival == None && Next(w, Settle(c)).holder == None
  {
    ArrivalBelongsToHolder(moves);
  }

  /** A free lock goes to the first in the queue, and only to it: with the bus open that caller gets
      into the body with an unset event in the slot, with the bus closed it is done. */
  lemma LockHandsOver(moves: seq<Move>, c: Caller)
    requires Run(moves).holder == None && Run(moves).queue != []
    ensures var w := Run(moves);
            var first := w.queue[0];
            && StageOf(w, first) == Some(Queued)
            && (c != first ==> Next(w, Acquire(c)) == w)
            && var t := Next(w, Acquire(first));
            && t.queue == w.queue[1..]
            && (w.busOpen ==>
                  && StageOf(t, first) == Some(Sending) && t.holder == t.arrival == Some(first) && first !in t.events)
            && (!w.busOpen ==> StageOf(t, first) == Some(Finished) && t.holder == None)
  {
    ArrivalBelongsToHolder(moves);
    assert Run(moves).queue[0] in Run(moves).queue;
  }

  /** A caller in the body gets on: a request that went out leads to the wait, one that failed or a
      burst that settled leads out and frees the lock, and nobody else is moved by it. */
  lemma BodyGetsOn(moves: seq<Move>, c: Caller, other: Caller)
    ensures var w := Run(moves);
            StageOf(w, c) == Some(Sending) ==>
              && StageOf(Next(w, SendEnds(c, true)), c) == Some(Waiting) && Next(w, SendEnds(c, true)).holder == Some(c)
              && StageOf(Next(w, SendEnds(c, false)), c) == Some(Finished) && Next(w, SendEnds(c, false)).holder == None
              && (other != c ==> StageOf(Next(w, SendEnds(c, false)), other) == StageOf(w, other))
    ensures var w := Run(moves);
            StageOf(w, c) == Some(Waiting) ==>
              && StageOf(Next(w, Settle(c)), c) == Some(Finished) && Next(w, Settle(c)).holder == None
              && (other != c ==> StageOf(Next(w, Settle(c)), other) == StageOf(w, other))
              && c !in Next(w, ClearEvent(c)).events && Next(w, ClearEvent(c)).holder == Some(c)
  {
    ArrivalBelongsToHolder(moves);
  }

  /** The same body without the lock. */
  function Barge(w: World, c: Caller): World {
    w.(stages := w.stages[c := Sending], arrival := Some(c), events := w.events - {c})
  }

  /** What the lock is for: without it a second caller takes the slot, the first one's frames no
      longer wake it, and when the second leaves there is no slot at all while the first still waits. */
  lemma LockIsNeeded()
    ensures var w := Barge(Barge(START, 1), 2);
            && w.stages[1].InBody() && 1 !in Next(w, FrameAccepted).events
            && Next(w, SendEnds(2, false)).arrival == None && Next(w, SendEnds(2, false)).stages[1].InBody()
  {
  }
}
