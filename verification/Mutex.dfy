/**
 * The lock of src/sync/mutex.rs as a step machine; the global lock inside src/sync/rwlock.rs
 * runs the same operations (without the cancel-ignoring branch), so it is covered as well.
 *
 * A guard is a token of its own (`guards`), not tied to a thread: `unlock` may be called by
 * whoever was given the guard, which is how the last reader of an `RwLock` releases it.
 */
module Mutex {
  import opened Counting
  import opened Traces
  import opened Handoff
  import opened WaitList

  /** What follows a hand-off: the call is over, or a registered waiter goes on to wait. */
  datatype Cont = Finish | ThenWait

  datatype Pc =
    | Idle
    | TryFirst         // `lock` starts with `try_lock`
    | Register         // about to push its blocker
    | Add              // pushed, about to increment the counter
    | InWait           // in the park loop, or leaving it
    | Release(k: Cont) // about to decrement the counter in `unlock`
    | PopNext(k: Cont) // about to pop the next waiter
    | WakeUp(k: Cont)  // handing the lock to the popped waiter

  datatype State = State(cnt: int, wl: Table, pcs: seq<Pc>, guards: nat)

  datatype Action =
    | CallTryLock(i: nat) | CallLock(i: nat) | CallUnlock(i: nat)
    | TryNow(i: nat) | Push(i: nat) | Increment(i: nat) | WaiterMove(i: nat, m: Move)
    | Decrement(i: nat) | PopOne(i: nat) | WakerMove(i: nat, m: Move)

  function Start(threads: nat): State {
    State(0, Empty(threads), seq(threads, _ => Idle), 0)
  }

  predicate Enabled(s: State, a: Action) {
    a.i < |s.pcs| &&
    var p := s.pcs[a.i];
    match a
    case CallTryLock(_) => p.Idle?
    case CallLock(_) => p.Idle?
    case CallUnlock(_) => p.Idle? && s.guards > 0
    case TryNow(_) => p.TryFirst?
    case Push(i) => p.Register? && CanJoin(s.wl, i)
    case Increment(_) => p.Add?
    case WaiterMove(i, m) => p.InWait? && CanWaiter(s.wl, i, m) && !m.SkipPark?
    case Decrement(_) => p.Release?
    case PopOne(i) => p.PopNext? && CanPop(s.wl, i)
    case WakerMove(i, m) => p.WakeUp? && CanWaker(s.wl, i, m)
  }

  function Continue(k: Cont): Pc { if k.Finish? then Idle else InWait }

  /** Does this move end the wait with the guard in hand? */
  predicate Acquires(s: State, i: nat, m: Move)
    requires CanWaiter(s.wl, i, m)
  {
    WaiterClaims(s.wl, i, m) && (m.ParkOk? || m.CheckIgnoring?)
  }

  function AfterWaiter(s: State, i: nat, m: Move): Pc
    requires CanWaiter(s.wl, i, m)
  {
    if WaiterClaims(s.wl, i, m) then (if Acquires(s, i, m) then Idle else Release(Finish))
    else if Stage(Waiter(s.wl, i, m), i).Gone? then Idle
    else InWait
  }

  function Next(s: State, a: Action): State
    requires Enabled(s, a)
  {
    var i := a.i;
    var p := s.pcs[i];
    match a
    case CallTryLock(_) => if s.cnt == 0 then s.(cnt := 1, guards := s.guards + 1) else s
    case CallLock(_) => s.(pcs := s.pcs[i := TryFirst])
    case CallUnlock(_) => s.(guards := s.guards - 1, pcs := s.pcs[i := Release(Finish)])
    case TryNow(_) =>
      if s.cnt == 0 then s.(cnt := 1, guards := s.guards + 1, pcs := s.pcs[i := Idle])
      else s.(pcs := s.pcs[i := Register])
    case Push(_) => s.(wl := Join(s.wl, i), pcs := s.pcs[i := Add])
    case Increment(_) =>
      s.(cnt := s.cnt + 1, pcs := s.pcs[i := if s.cnt == 0 then PopNext(ThenWait) else InWait])
    case WaiterMove(_, m) =>
      s.(wl := Waiter(s.wl, i, m), pcs := s.pcs[i := AfterWaiter(s, i, m)],
         guards := if Acquires(s, i, m) then s.guards + 1 else s.guards)
    case Decrement(_) =>
      s.(cnt := s.cnt - 1, pcs := s.pcs[i := if s.cnt > 1 then PopNext(p.k) else Continue(p.k)])
    case PopOne(_) => s.(wl := PopBy(s.wl, i), pcs := s.pcs[i := WakeUp(p.k)])
    case WakerMove(_, m) =>
      s.(wl := Waker(s.wl, i, m),
         pcs := s.pcs[i := if !m.Swap? then p
                           else if WakerClaims(s.wl, i, m) then Release(p.k) else Continue(p.k)])
  }

  // ---------------------------------------------------------------- the invariant

  predicate HasBlocker(p: Pc) {
    p.Add? || p.InWait? || ((p.Release? || p.PopNext? || p.WakeUp?) && p.k.ThenWait?)
  }

  /** A thread that pushed a blocker and has not counted it, or that owes the queue a pop. */
  function QueueShare(p: Pc): nat { if p.Add? || p.PopNext? then 1 else 0 }

  /** A thread that has the lock in hand and is passing it on. */
  function Passing(p: Pc): nat { if p.Release? || p.PopNext? then 1 else 0 }

  /** Every place the right to the lock can be. */
  function Tokens(s: State): nat { s.guards + Total(Passing, s.pcs) + InFlight(s.wl) }

  ghost predicate PcOk(wl: Table, i: nat, p: Pc) {
    && (HasBlocker(p) <==> !Stage(wl, i).Gone?)
    && (HasBlocker(p) && !p.InWait? ==> Stage(wl, i).Waiting?)
    && (p.WakeUp? <==> Waking(wl, i))
  }

  ghost predicate Linked(s: State) {
    && Ok(s.wl) && |s.wl.cur| == |s.pcs|
    && forall i :: 0 <= i < |s.pcs| ==> PcOk(s.wl, i, s.pcs[i])
  }

  ghost predicate QueueCounted(s: State) { |s.wl.queue| == Total(QueueShare, s.pcs) + Max0(s.cnt - 1) }

  ghost predicate SingleToken(s: State) { s.cnt >= 0 && Tokens(s) == if s.cnt > 0 then 1 else 0 }

  ghost predicate Inv(s: State) { Linked(s) && QueueCounted(s) && SingleToken(s) }

  lemma StartInv(threads: nat)
    ensures Inv(Start(threads))
  {
    var s := Start(threads);
    EmptyOk(threads);
    TotalZero(QueueShare, s.pcs);
    TotalZero(Passing, s.pcs);
  }

  /** What one step guarantees about its own thread, seen from the rest of the machine. */
  ghost predicate GoodStep(s: State, t: State, i: nat)
    requires i < |s.pcs| == |t.pcs|
  {
    && t.pcs == s.pcs[i := t.pcs[i]]
    && Ok(t.wl) && OthersKept(s.wl, t.wl, i) && PcOk(t.wl, i, t.pcs[i])
    && t.cnt >= 0
    && t.guards + Passing(t.pcs[i]) + InFlight(t.wl) - (if t.cnt > 0 then 1 else 0)
       == s.guards + Passing(s.pcs[i]) + InFlight(s.wl) - (if s.cnt > 0 then 1 else 0)
  }

  lemma CounterStep(s: State, a: Action)
    requires Ok(s.wl) && Enabled(s, a) && PcOk(s.wl, a.i, s.pcs[a.i]) && s.cnt >= 0
    requires !a.Push? && !a.WaiterMove? && !a.PopOne? && !a.WakerMove?
    requires a.Decrement? ==> s.cnt > 0
    ensures GoodStep(s, Next(s, a), a.i)
  {
    var t := Next(s, a);
    assert t.wl == s.wl;
    assert HasBlocker(t.pcs[a.i]) == HasBlocker(s.pcs[a.i]);
  }

  lemma WaiterStep(s: State, a: Action)
    requires Ok(s.wl) && Enabled(s, a) && PcOk(s.wl, a.i, s.pcs[a.i]) && s.cnt >= 0
    requires a.Push? || a.WaiterMove?
    ensures GoodStep(s, Next(s, a), a.i)
  {
    match a
    case Push(i) => JoinOk(s.wl, i);
    case WaiterMove(i, m) => WaiterOk(s.wl, i, m);
  }

  lemma WakerStep(s: State, a: Action)
    requires Ok(s.wl) && Enabled(s, a) && PcOk(s.wl, a.i, s.pcs[a.i]) && s.cnt >= 0
    requires a.PopOne? || a.WakerMove?
    ensures GoodStep(s, Next(s, a), a.i)
  {
    match a
    case PopOne(i) => PopOk(s.wl, i);
    case WakerMove(i, m) => WakerOk(s.wl, i, m);
  }

  lemma GoodStepKeeps(s: State, t: State, i: nat)
    requires Linked(s) && SingleToken(s) && i < |s.pcs| == |t.pcs| && GoodStep(s, t, i)
    ensures Linked(t) && SingleToken(t)
  {
    forall j | 0 <= j < |t.pcs| ensures PcOk(t.wl, j, t.pcs[j]) {
      assert j != i ==> PcOk(s.wl, j, s.pcs[j]) && t.pcs[j] == s.pcs[j];
    }
    TotalUpdate(Passing, s.pcs, i, t.pcs[i]);
  }

  lemma QueueStep(s: State, a: Action)
    requires QueueCounted(s) && Enabled(s, a) && s.cnt >= 0
    ensures QueueCounted(Next(s, a))
  {
    var t := Next(s, a);
    TotalUpdate(QueueShare, s.pcs, a.i, t.pcs[a.i]);
    assert t.pcs == s.pcs[a.i := t.pcs[a.i]];
  }

  lemma OwnStep(s: State, a: Action)
    requires Inv(s) && Enabled(s, a)
    ensures |Next(s, a).pcs| == |s.pcs| && GoodStep(s, Next(s, a), a.i)
  {
    assert PcOk(s.wl, a.i, s.pcs[a.i]);
    TotalAtLeast(Passing, s.pcs, a.i);
    if a.Push? || a.WaiterMove? { WaiterStep(s, a); }
    else if a.PopOne? || a.WakerMove? { WakerStep(s, a); }
    else { CounterStep(s, a); }
  }

  lemma InvStep(s: State, a: Action)
    requires Inv(s) && Enabled(s, a)
    ensures Inv(Next(s, a))
  {
    OwnStep(s, a);
    GoodStepKeeps(s, Next(s, a), a.i);
    QueueStep(s, a);
  }

  // ---------------------------------------------------------------- the calls, seen by a client

  /** The steps a call takes by itself, between its beginning and its end. */
  predicate Internal(a: Action) { !a.CallTryLock? && !a.CallLock? && !a.CallUnlock? }

  predicate InLock(p: Pc) { p.TryFirst? || p.Register? || HasBlocker(p) }

  /** In `unlock`, also when a canceled `lock` passes the lock on. */
  predicate InUnlock(p: Pc) { (p.Release? || p.PopNext? || p.WakeUp?) && p.k.Finish? }

  /** In a `lock` that has not begun to leave. */
  predicate Ignoring(s: State, i: nat) {
    i < |s.pcs| && InLock(s.pcs[i]) && !Stage(s.wl, i).Releasing? && !Stage(s.wl, i).Rechecking? && !Stage(s.wl, i).Taking?
  }

  /** Only thread `i` moved, and it alone may have changed its stage. */
  ghost predicate Alone(s: State, t: State, i: nat) {
    && i < |s.pcs| == |t.pcs| && t.pcs == s.pcs[i := t.pcs[i]]
    && (forall j: nat :: j != i ==> Stage(t.wl, j) == Stage(s.wl, j))
  }

  /** How thread `i`'s call goes on: it ends, with or without a new guard, or it stays in its call. */
  predicate CallGoesOn(s: State, t: State, i: nat)
    requires i < |s.pcs| == |t.pcs|
  {
    && (t.guards == s.guards || (t.guards == s.guards + 1 && InLock(s.pcs[i]) && t.pcs[i].Idle?))
    && (InUnlock(s.pcs[i]) ==> t.pcs[i].Idle? || InUnlock(t.pcs[i]))
    && (InLock(s.pcs[i]) ==> t.pcs[i].Idle? || InLock(t.pcs[i]) || InUnlock(t.pcs[i]))
  }

  /** Thread `i` is still in its `lock`, or has just got the guard. */
  predicate EndsWithGuard(s: State, t: State, i: nat)
    requires i < |t.pcs|
  {
    if t.pcs[i].Idle? then t.guards == s.guards + 1 else t.guards == s.guards && Ignoring(t, i)
  }

  /** How a call begins; a `try_lock` is over at once. */
  predicate CallBegins(s: State, t: State, a: Action)
    requires a.i < |t.pcs|
  {
    && (a.CallTryLock? ==> t.pcs[a.i].Idle? && t.guards == s.guards + (if s.cnt == 0 then 1 else 0))
    && (a.CallLock? ==> Ignoring(t, a.i) && t.guards == s.guards)
    && (a.CallUnlock? ==> InUnlock(t.pcs[a.i]) && t.guards == s.guards - 1)
  }

  lemma InternalStep(s: State, a: Action)
    requires Inv(s) && Enabled(s, a) && Internal(a)
    ensures Inv(Next(s, a)) && Alone(s, Next(s, a), a.i) && CallGoesOn(s, Next(s, a), a.i)
  {
    OwnStep(s, a);
    InvStep(s, a);
  }

  /**
   * A `lock` whose cancel is disabled, that is, whose checks all ignore the cancel, ends only by
   * acquiring the guard.
   */
  lemma IgnoringLockAcquires(s: State, a: Action)
    requires Inv(s) && Enabled(s, a) && Internal(a) && Ignoring(s, a.i) && !(a.WaiterMove? && a.m.Check?)
    ensures |Next(s, a).pcs| == |s.pcs| && EndsWithGuard(s, Next(s, a), a.i)
  {
    OwnStep(s, a);
    assert PcOk(s.wl, a.i, s.pcs[a.i]);
    if a.WaiterMove? { WaiterOk(s.wl, a.i, a.m); }
  }

  /** Thread `i` gets no guard any more in its call. */
  predicate EndsWithout(s: State, t: State, i: nat) { t.guards == s.guards && !Ignoring(t, i) }

  /** A `lock` that is leaving, or heeds the cancel now, does not change its mind, and an `unlock` never turns into a `lock`. */
  lemma LeavingLockEnds(s: State, a: Action)
    requires Inv(s) && Enabled(s, a) && Internal(a) && (!Ignoring(s, a.i) || (a.WaiterMove? && a.m.Check?))
    ensures |Next(s, a).pcs| == |s.pcs| && EndsWithout(s, Next(s, a), a.i)
  {
    OwnStep(s, a);
    assert PcOk(s.wl, a.i, s.pcs[a.i]);
    if a.WaiterMove? { WaiterOk(s.wl, a.i, a.m); }
  }

  lemma AtMostOneGuard(s: State)
    requires Inv(s)
    ensures s.guards <= 1
  {
  }

  lemma CallStep(s: State, a: Action)
    requires Inv(s) && Enabled(s, a) && !Internal(a)
    ensures Inv(Next(s, a)) && Alone(s, Next(s, a), a.i) && CallBegins(s, Next(s, a), a)
  {
    assert PcOk(s.wl, a.i, s.pcs[a.i]);
    InvStep(s, a);
    assert Next(s, a).wl == s.wl;
  }

  // ---------------------------------------------------------------- every run

  ghost predicate Initial(s: State) { exists threads: nat :: s == Start(threads) }

  ghost predicate Step(s: State, t: State) { exists a: Action :: Enabled(s, a) && t == Next(s, a) }

  ghost predicate Reachable(s: State) { Reached(Initial, Step, s) }

  lemma ReachableInv(s: State)
    requires Reachable(s)
    ensures Inv(s)
  {
    forall s0 | Initial(s0) ensures Inv(s0) {
      var threads: nat :| s0 == Start(threads);
      StartInv(threads);
    }
    forall s1, s2 | Inv(s1) && Step(s1, s2) ensures Inv(s2) {
      var a: Action :| Enabled(s1, a) && s2 == Next(s1, a);
      InvStep(s1, a);
    }
    InvariantHolds(Initial, Step, Inv, s);
  }

  /**
   * The counter is positive exactly when the one lock token exists; so at most one guard is
   * live, and while it is, nobody else is passing the lock on.
   */
  lemma MutualExclusion(s: State)
    requires Reachable(s)
    ensures s.cnt >= 0 && Tokens(s) == (if s.cnt > 0 then 1 else 0)
    ensures s.guards <= 1
    ensures s.guards == 1 ==> InFlight(s.wl) == 0 && forall i :: 0 <= i < |s.pcs| ==> !s.pcs[i].PopNext? && !s.pcs[i].Release?
  {
    ReachableInv(s);
    forall i | 0 <= i < |s.pcs| && s.guards == 1 ensures !s.pcs[i].PopNext? && !s.pcs[i].Release? {
      TotalAtLeast(Passing, s.pcs, i);
    }
  }

  /** The waiter queue is popped by one thread at a time, as its single consumer must be. */
  lemma SinglePopper(s: State, i: nat, j: nat)
    requires Reachable(s) && i < j < |s.pcs|
    ensures !(s.pcs[i].PopNext? && s.pcs[j].PopNext?)
  {
    ReachableInv(s);
    TotalOfTwo(Passing, s.pcs, i, j);
  }

  /** `expect("got null blocker!")` cannot fail, and `unlock` never takes the counter below zero. */
  lemma HandOffAlwaysFinds(s: State, i: nat)
    requires Reachable(s)
    ensures |s.wl.queue| == Total(QueueShare, s.pcs) + Max0(s.cnt - 1)
    ensures i < |s.pcs| && s.pcs[i].PopNext? ==> s.wl.queue != [] && Enabled(s, PopOne(i))
    ensures i < |s.pcs| && s.pcs[i].Release? ==> s.cnt > 0
  {
    ReachableInv(s);
    if i < |s.pcs| {
      TotalAtLeast(QueueShare, s.pcs, i);
      TotalAtLeast(Passing, s.pcs, i);
      assert PcOk(s.wl, i, s.pcs[i]);
    }
  }

  /** Nobody can take another step without a new call or a cancel. */
  ghost predicate AtRest(s: State) {
    forall i :: 0 <= i < |s.pcs| ==> s.pcs[i].Idle? || (s.pcs[i].InWait? && Parked(s.wl, i))
  }

  lemma Restful(s: State)
    requires Inv(s) && AtRest(s)
    ensures s.guards == (if s.cnt > 0 then 1 else 0)
    ensures (exists i :: 0 <= i < |s.pcs| && !s.pcs[i].Idle?) ==> s.guards == 1
  {
    forall i | 0 <= i < |s.wl.cur| ensures s.wl.out[i] == -1 && (s.wl.cur[i] == -1 || Parked(s.wl, i)) {
      assert PcOk(s.wl, i, s.pcs[i]) && ThreadOk(s.wl, i);
    }
    QuietTable(s.wl);
    TotalZero(Passing, s.pcs);
    TotalZero(QueueShare, s.pcs);
    forall i | 0 <= i < |s.pcs| && !s.pcs[i].Idle? ensures s.cnt > 0 {
      assert PcOk(s.wl, i, s.pcs[i]) && ThreadOk(s.wl, i);
    }
  }

  /** At rest the lock is free or a guard is live; in particular nobody is parked on a free lock. */
  lemma NoLostLockAtRest(s: State)
    requires Reachable(s) && AtRest(s)
    ensures s.guards == (if s.cnt > 0 then 1 else 0)
    ensures (exists i :: 0 <= i < |s.pcs| && !s.pcs[i].Idle?) ==> s.guards == 1
  {
    ReachableInv(s);
    Restful(s);
  }

  lemma PopCanMove(s: State, i: nat)
    requires Inv(s) && i < |s.pcs| && s.pcs[i].PopNext?
    ensures Enabled(s, PopOne(i))
  {
    TotalAtLeast(QueueShare, s.pcs, i);
    assert PcOk(s.wl, i, s.pcs[i]);
  }

  lemma CanMove(s: State, i: nat, ignoring: bool)
    requires Inv(s) && i < |s.pcs| && !s.pcs[i].Idle? && !(s.pcs[i].InWait? && Parked(s.wl, i))
    ensures exists a: Action :: a.i == i && Enabled(s, a) && Internal(a) &&
              (a.WaiterMove? ==> if ignoring then !a.m.Check? else !a.m.CheckIgnoring?)
  {
    assert PcOk(s.wl, i, s.pcs[i]) && ThreadOk(s.wl, i);
    WaitersReady(s.wl, i, ignoring);
    match s.pcs[i]
    case TryFirst => assert Enabled(s, TryNow(i));
    case Register => assert Enabled(s, Push(i));
    case Add => assert Enabled(s, Increment(i));
    case InWait => assert Enabled(s, WaiterMove(i, NextMove(s.wl, i, ignoring)));
    case Release(_) => assert Enabled(s, Decrement(i));
    case PopNext(_) => PopCanMove(s, i);
    case WakeUp(_) => assert Enabled(s, WakerMove(i, NextWake(s.wl, i)));
  }

  /** A thread inside a call can always take a step, unless it is parked. */
  lemma NeverBlocked(s: State, i: nat)
    requires Reachable(s) && i < |s.pcs|
    requires !s.pcs[i].Idle? && !(s.pcs[i].InWait? && Parked(s.wl, i))
    ensures exists a: Action :: a.i == i && Enabled(s, a) && Internal(a)
  {
    ReachableInv(s);
    CanMove(s, i, false);
  }

  /**
   * Seen through its guards the machine is a plain lock, and one knows who has it: a step that makes a
   * guard ends a `lock` or is a `try_lock` of the thread that moves, when nobody has one; a step that takes
   * one away is an `unlock`; and a `try_lock` is refused exactly when the lock's token is somewhere. A `lock`
   * stays one until it has the guard, unless a check that heeds the cancel makes it leave, and then it ends
   * without the guard.
   */
  lemma RefinesPlainLock(s: State, a: Action)
    requires Reachable(s) && Enabled(s, a)
    ensures var t := Next(s, a);
            && |t.pcs| == |s.pcs|
            && (t.guards > s.guards ==> && s.guards == 0 && t.guards == 1 && t.pcs[a.i].Idle?
                                        && (a.CallTryLock? || (Internal(a) && InLock(s.pcs[a.i]))))
            && (t.guards < s.guards ==> s.guards == 1 && t.guards == 0 && a.CallUnlock?)
            && (a.CallTryLock? ==> (t.guards > s.guards <==> Tokens(s) == 0))
    ensures var t := Next(s, a); if Internal(a) then CallGoesOn(s, t, a.i) else CallBegins(s, t, a)
    ensures Internal(a) && Ignoring(s, a.i) && !(a.WaiterMove? && a.m.Check?) ==> EndsWithGuard(s, Next(s, a), a.i)
    ensures Internal(a) && (!Ignoring(s, a.i) || (a.WaiterMove? && a.m.Check?)) ==> EndsWithout(s, Next(s, a), a.i)
  {
    ReachableInv(s);
    InvStep(s, a);
    if Internal(a) {
      InternalStep(s, a);
      if Ignoring(s, a.i) && !(a.WaiterMove? && a.m.Check?) { IgnoringLockAcquires(s, a); } else { LeavingLockEnds(s, a); }
    } else {
      CallStep(s, a);
    }
  }
}
