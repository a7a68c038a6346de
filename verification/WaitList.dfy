/**
 * The waiter queue that `Semphore`, `Mutex`, `RwLock` and `Condvar` keep in `to_wake`,
 * together with the blockers ever pushed on it. Thread `i` waits on blocker `cur[i]` and is
 * waking blocker `out[i]` (its locals `cur` and `w` in the source); -1 stands for none.
 */
module WaitList {
  import opened Counting
  import opened Handoff

  datatype Table = Table(
    queue: seq<nat>, blockers: seq<Blocker>,
    owner: seq<nat>, waker: seq<nat>,   // who waits on, and who popped, each blocker
    cur: seq<int>, out: seq<int>)

  function Empty(threads: nat): Table {
    Table([], [], [], [], seq(threads, _ => -1), seq(threads, _ => -1))
  }

  // ---------------------------------------------------------------- operations

  /** `SyncBlocker::current()` and `to_wake.push(cur)`. */
  predicate CanJoin(t: Table, i: nat) { i < |t.cur| && t.cur[i] == -1 }

  function Join(t: Table, i: nat): Table
    requires CanJoin(t, i)
  {
    t.(blockers := t.blockers + [FRESH], queue := t.queue + [|t.blockers|],
       owner := t.owner + [i], waker := t.waker + [0], cur := t.cur[i := |t.blockers|])
  }

  /** `to_wake.pop()` when it returns a blocker. */
  predicate CanPop(t: Table, i: nat) {
    && i < |t.out| && t.out[i] == -1 && t.queue != []
    && t.queue[0] < |t.blockers| && t.queue[0] < |t.waker| && Can(t.blockers[t.queue[0]], Pop)
  }

  function PopBy(t: Table, i: nat): Table
    requires CanPop(t, i)
  {
    var w := t.queue[0];
    t.(queue := t.queue[1..], blockers := t.blockers[w := Do(t.blockers[w], Pop)],
       waker := t.waker[w := i], out := t.out[i := w])
  }

  predicate CanWaiter(t: Table, i: nat, m: Move) {
    && i < |t.cur| && 0 <= t.cur[i] < |t.blockers| && ByWaiter(m) && Can(t.blockers[t.cur[i]], m)
  }

  function Waiter(t: Table, i: nat, m: Move): Table
    requires CanWaiter(t, i, m)
  {
    var b := Do(t.blockers[t.cur[i]], m);
    t.(blockers := t.blockers[t.cur[i] := b], cur := if b.waiter.Gone? then t.cur[i := -1] else t.cur)
  }

  predicate WaiterClaims(t: Table, i: nat, m: Move)
    requires CanWaiter(t, i, m)
  {
    Claims(t.blockers[t.cur[i]], m)
  }

  predicate CanWaker(t: Table, i: nat, m: Move) {
    && i < |t.out| && 0 <= t.out[i] < |t.blockers|
    && !ByWaiter(m) && !m.Pop? && Can(t.blockers[t.out[i]], m)
  }

  function Waker(t: Table, i: nat, m: Move): Table
    requires CanWaker(t, i, m)
  {
    var b := Do(t.blockers[t.out[i]], m);
    t.(blockers := t.blockers[t.out[i] := b], out := if b.waker.Finished? then t.out[i := -1] else t.out)
  }

  predicate WakerClaims(t: Table, i: nat, m: Move)
    requires CanWaker(t, i, m)
  {
    Claims(t.blockers[t.out[i]], m)
  }

  // ---------------------------------------------------------------- views

  /** Where thread `i` is in its wait; `Gone` when it is not waiting. */
  function Stage(t: Table, i: nat): WaiterPc {
    if i < |t.cur| && 0 <= t.cur[i] < |t.blockers| then t.blockers[t.cur[i]].waiter else Gone
  }

  predicate Waking(t: Table, i: nat) { i < |t.out| && t.out[i] != -1 }

  /** How far thread `i` is with the blocker it is waking; `Finished` when it is not waking any. */
  function WakeStage(t: Table, i: nat): WakerPc {
    if i < |t.out| && 0 <= t.out[i] < |t.blockers| then t.blockers[t.out[i]].waker else Finished
  }

  function HandedOver(b: Blocker): nat { if InTransit(b) then 1 else 0 }

  /** How many popped blockers have a resource that neither side has claimed. */
  function InFlight(t: Table): nat { Total(HandedOver, t.blockers) }

  /** Parked, with no wake token pending. */
  predicate Parked(t: Table, i: nat) {
    Stage(t, i).Waiting? && !t.blockers[t.cur[i]].token
  }

  // ---------------------------------------------------------------- invariant

  ghost predicate Shaped(t: Table) {
    |t.owner| == |t.waker| == |t.blockers| && |t.cur| == |t.out|
  }

  /** The queue holds exactly the unpopped blockers, oldest first. */
  ghost predicate QueueOk(t: Table) {
    && (forall k :: 0 <= k < |t.queue| ==> t.queue[k] < |t.blockers| && t.blockers[t.queue[k]].waker.Queued?)
    && (forall k, l :: 0 <= k < l < |t.queue| ==> t.queue[k] < t.queue[l])
    && (forall b :: 0 <= b < |t.blockers| && t.blockers[b].waker.Queued? ==> b in t.queue)
  }

  ghost predicate ThreadOk(t: Table, i: nat)
    requires Shaped(t) && i < |t.cur|
  {
    && (t.cur[i] != -1 ==>
          0 <= t.cur[i] < |t.blockers| && t.owner[t.cur[i]] == i && !t.blockers[t.cur[i]].waiter.Gone?)
    && (t.out[i] != -1 ==>
          0 <= t.out[i] < |t.blockers| && t.waker[t.out[i]] == i && InWakerHands(t.blockers[t.out[i]]))
  }

  /** Every unfinished side of a blocker belongs to a thread that is still at it. */
  ghost predicate BlockerOk(t: Table, b: nat)
    requires Shaped(t) && b < |t.blockers|
  {
    && Consistent(t.blockers[b])
    && (!t.blockers[b].waiter.Gone? ==> t.owner[b] < |t.cur| && t.cur[t.owner[b]] == b)
    && (InWakerHands(t.blockers[b]) ==> t.waker[b] < |t.out| && t.out[t.waker[b]] == b)
  }

  ghost predicate Ok(t: Table) {
    && Shaped(t) && QueueOk(t)
    && (forall i :: 0 <= i < |t.cur| ==> ThreadOk(t, i))
    && (forall b :: 0 <= b < |t.blockers| ==> BlockerOk(t, b))
  }

  /** Thread `i` acted; every other thread is where it was. */
  ghost predicate OthersKept(t: Table, u: Table, i: nat) {
    && |u.cur| == |t.cur|
    && (forall j: nat :: j != i ==>
          Stage(u, j) == Stage(t, j) && (Waking(u, j) <==> Waking(t, j)) && WakeStage(u, j) == WakeStage(t, j))
  }

  lemma EmptyOk(threads: nat)
    ensures Ok(Empty(threads)) && InFlight(Empty(threads)) == 0
  {
  }

  lemma Framed(t: Table, u: Table, i: nat, b: nat)
    requires Ok(t) && Shaped(u) && i < |t.cur| == |u.cur| && b < |t.blockers| == |u.blockers|
    requires u.blockers == t.blockers[b := u.blockers[b]] && u.owner == t.owner && u.waker == t.waker[b := u.waker[b]]
    requires u.cur == t.cur[i := u.cur[i]] && u.out == t.out[i := u.out[i]]
    requires QueueOk(u) && ThreadOk(u, i) && BlockerOk(u, b)
    requires u.blockers[b].waiter == t.blockers[b].waiter || t.owner[b] == i
    requires || (u.blockers[b].waker == t.blockers[b].waker && u.waker[b] == t.waker[b])
             || t.blockers[b].waker.Queued? || t.waker[b] == i
    requires t.cur[i] in {-1, b, u.cur[i]} && t.out[i] in {-1, b, u.out[i]}
    ensures Ok(u) && OthersKept(t, u, i)
  {
    forall j | 0 <= j < |u.cur| ensures ThreadOk(u, j) {
      assert ThreadOk(t, j);
    }
    forall c | 0 <= c < |u.blockers| ensures BlockerOk(u, c) {
      assert BlockerOk(t, c);
    }
    forall j: nat | j != i
      ensures Stage(u, j) == Stage(t, j) && (Waking(u, j) <==> Waking(t, j)) && WakeStage(u, j) == WakeStage(t, j)
    {
      if j < |t.cur| { assert ThreadOk(t, j); }
    }
  }

  lemma JoinOk(t: Table, i: nat)
    requires Ok(t) && CanJoin(t, i)
    ensures Ok(Join(t, i)) && OthersKept(t, Join(t, i), i)
    ensures Stage(Join(t, i), i).Waiting? && (Waking(Join(t, i), i) <==> Waking(t, i))
    ensures InFlight(Join(t, i)) == InFlight(t)
  {
    var u := Join(t, i);
    forall j | 0 <= j < |u.cur| ensures ThreadOk(u, j) {
      assert ThreadOk(t, j);
    }
    forall c | 0 <= c < |u.blockers| ensures BlockerOk(u, c) {
      if c < |t.blockers| { assert BlockerOk(t, c); }
    }
    TotalAppend(HandedOver, t.blockers, FRESH);
    forall j: nat | j != i
      ensures Stage(u, j) == Stage(t, j) && (Waking(u, j) <==> Waking(t, j)) && WakeStage(u, j) == WakeStage(t, j)
    {
      if j < |t.cur| { assert ThreadOk(t, j); }
    }
  }

  lemma QueueSame(t: Table, u: Table, b: nat)
    requires QueueOk(t) && b < |t.blockers| == |u.blockers|
    requires u.queue == t.queue && u.blockers == t.blockers[b := u.blockers[b]]
    requires u.blockers[b].waker.Queued? == t.blockers[b].waker.Queued?
    ensures QueueOk(u)
  {
  }

  lemma QueuePopped(t: Table, u: Table)
    requires QueueOk(t) && t.queue != [] && |t.blockers| == |u.blockers|
    requires u.queue == t.queue[1..] && u.blockers == t.blockers[t.queue[0] := u.blockers[t.queue[0]]]
    requires !u.blockers[t.queue[0]].waker.Queued?
    ensures QueueOk(u)
  {
    forall b | 0 <= b < |u.blockers| && u.blockers[b].waker.Queued? ensures b in u.queue {
      assert b in t.queue;
      assert t.queue == [t.queue[0]] + u.queue;
    }
  }

  lemma PopOk(t: Table, i: nat)
    requires Ok(t) && CanPop(t, i)
    ensures Ok(PopBy(t, i)) && OthersKept(t, PopBy(t, i), i)
    ensures Stage(PopBy(t, i), i) == Stage(t, i) && Waking(PopBy(t, i), i)
    ensures InFlight(PopBy(t, i)) == InFlight(t) + 1
  {
    var u := PopBy(t, i);
    var w := t.queue[0];
    assert ThreadOk(t, i) && BlockerOk(t, w);
    QueuePopped(t, u);
    Framed(t, u, i, w);
    TotalUpdate(HandedOver, t.blockers, w, u.blockers[w]);
  }

  lemma WaiterOk(t: Table, i: nat, m: Move)
    requires Ok(t) && CanWaiter(t, i, m)
    ensures Ok(Waiter(t, i, m)) && OthersKept(t, Waiter(t, i, m), i)
    ensures Stage(Waiter(t, i, m), i) == Do(t.blockers[t.cur[i]], m).waiter
    ensures Waking(Waiter(t, i, m), i) <==> Waking(t, i)
    ensures InFlight(Waiter(t, i, m)) + (if WaiterClaims(t, i, m) then 1 else 0) == InFlight(t)
    ensures WaiterClaims(t, i, m) ==> Stage(Waiter(t, i, m), i).Gone?
  {
    var u := Waiter(t, i, m);
    var b := t.cur[i];
    assert ThreadOk(t, i) && BlockerOk(t, b);
    MoveKeeps(t.blockers[b], m);
    QueueSame(t, u, b);
    Framed(t, u, i, b);
    TotalUpdate(HandedOver, t.blockers, b, u.blockers[b]);
  }

  lemma WakerOk(t: Table, i: nat, m: Move)
    requires Ok(t) && CanWaker(t, i, m)
    ensures Ok(Waker(t, i, m)) && OthersKept(t, Waker(t, i, m), i)
    ensures Stage(Waker(t, i, m), i) == Stage(t, i)
    ensures InFlight(Waker(t, i, m)) + (if WakerClaims(t, i, m) then 1 else 0) == InFlight(t)
    ensures Waking(Waker(t, i, m), i) <==> !m.Swap?
    ensures WakerClaims(t, i, m) ==> m.Swap?
  {
    var u := Waker(t, i, m);
    var b := t.out[i];
    assert ThreadOk(t, i) && BlockerOk(t, b);
    MoveKeeps(t.blockers[b], m);
    QueueSame(t, u, b);
    Framed(t, u, i, b);
    TotalUpdate(HandedOver, t.blockers, b, u.blockers[b]);
  }

  // ---------------------------------------------------------------- consequences

  /** Whatever is in flight has a thread that still has to move it. */
  lemma InFlightHasCarrier(t: Table, b: nat)
    requires Ok(t) && b < |t.blockers| && InTransit(t.blockers[b])
    ensures exists i :: 0 <= i < |t.cur| && (t.cur[i] == b || t.out[i] == b)
  {
    assert BlockerOk(t, b);
  }

  lemma QuietTable(t: Table)
    requires Ok(t)
    requires forall i :: 0 <= i < |t.cur| ==> t.out[i] == -1 && (t.cur[i] == -1 || Parked(t, i))
    ensures InFlight(t) == 0
    ensures forall i :: 0 <= i < |t.cur| && t.cur[i] != -1 ==> t.cur[i] in t.queue
  {
    forall b | 0 <= b < |t.blockers| ensures HandedOver(t.blockers[b]) == 0 {
      assert BlockerOk(t, b);
      assert t.blockers[b].waiter.Gone? || Parked(t, t.owner[b]);
    }
    TotalZero(HandedOver, t.blockers);
    forall i | 0 <= i < |t.cur| && t.cur[i] != -1 ensures t.cur[i] in t.queue {
      assert ThreadOk(t, i) && BlockerOk(t, t.cur[i]);
    }
  }

  /** The next step of a waiter that is not parked: it has its token, or is settling with its waker. */
  function NextMove(t: Table, i: nat, ignoring: bool): Move {
    match Stage(t, i)
    case Waiting => ParkOk
    case Checking => if ignoring then CheckIgnoring else Check
    case Releasing => SetRelease
    case Rechecking => Recheck
    case Taking => Take
    case Gone => Take
  }

  /** The next step of a thread that is waking. */
  function NextWake(t: Table, i: nat): Move {
    match WakeStage(t, i)
    case Popped => StoreUnparked
    case Marked => Wake
    case _ => Swap
  }

  /** Both can take it, whatever the other side does. */
  lemma WaitersReady(t: Table, i: nat, ignoring: bool)
    requires Ok(t) && i < |t.cur|
    ensures !Stage(t, i).Gone? && !Parked(t, i) ==> CanWaiter(t, i, NextMove(t, i, ignoring))
    ensures t.out[i] != -1 ==> CanWaker(t, i, NextWake(t, i))
  {
    assert ThreadOk(t, i);
  }
}
