/**
 * `Condvar` of src/sync/condvar.rs as a step machine over runs that use `notify_one`. The mutex is
 * the machine of `Mutex`, run step by step: `unlock` hands over to waiters, and the re-lock of a wait is a
 * `lock` with the cancel disabled. `holder` is the thread that was given the guard, or -1.
 */
module Condvar {
  import opened Counting
  import opened Traces
  import opened Handoff
  import opened WaitList
  import M = Mutex

  /** What follows a `notify_one`: the user call is over, or a leaving waiter re-locks. */
  datatype Cont = Finish | ThenRelock

  datatype Pc =
    | Idle
    | Locking               // the user's `lock`
    | Unlocking(wait: bool) // `unlock`, by the user or inside `wait_impl`
    | Enqueue               // wait_impl: about to push its blocker, mutex held
    | Unlock                // about to release the mutex
    | InWait                // parked, or settling with a waker after a timeout or cancel
    | PopNext(k: Cont)      // notify_one: about to pop
    | WakeUp(k: Cont)       // notify_one: handing the signal over
    | Relock(ok: bool)      // about to call `lock` again
    | Relocking(ok: bool)   // in that `lock`, with the cancel disabled
    | Returned(ok: bool)

  /** `notified` counts user calls of `notify_one`, `returned` the waits that returned `Ok`. */
  datatype State = State(
    wl: Table, m: M.State, holder: int, pcs: seq<Pc>, notified: nat, returned: nat, dropped: nat)

  datatype Action =
    | TryLock(i: nat) | Lock(i: nat) | Release(i: nat) | CallWait(i: nat) | CallNotify(i: nat) | Resume(i: nat)
    | Push(i: nat) | UnlockMutex(i: nat) | WaiterMove(i: nat, m: Move) | LockAgain(i: nat)
    | PopOne(i: nat) | PopEmpty(i: nat) | WakerMove(i: nat, m: Move) | MutexMove(i: nat, b: M.Action)

  function Start(threads: nat): State {
    State(Empty(threads), M.Start(threads), -1, seq(threads, _ => Idle), 0, 0, 0)
  }

  predicate InMutex(p: Pc) { p.Locking? || p.Unlocking? || p.Relocking? }

  predicate Enabled(s: State, a: Action) {
    a.i < |s.pcs| && |s.m.pcs| == |s.pcs| &&
    var p := s.pcs[a.i];
    match a
    case TryLock(i) => p.Idle? && M.Enabled(s.m, M.CallTryLock(i))
    case Lock(i) => p.Idle? && M.Enabled(s.m, M.CallLock(i))
    case Release(i) => p.Idle? && s.holder == i && M.Enabled(s.m, M.CallUnlock(i))
    case CallWait(i) => p.Idle? && s.holder == i
    case CallNotify(_) => p.Idle?
    case Resume(_) => p.Returned?
    case Push(i) => p.Enqueue? && CanJoin(s.wl, i)
    case UnlockMutex(i) => p.Unlock? && M.Enabled(s.m, M.CallUnlock(i))
    case WaiterMove(i, m) => p.InWait? && CanWaiter(s.wl, i, m) && !m.SkipPark? && !m.CheckIgnoring?
    case LockAgain(i) => p.Relock? && M.Enabled(s.m, M.CallLock(i))
    case PopOne(i) => p.PopNext? && CanPop(s.wl, i)
    case PopEmpty(_) => p.PopNext? && s.wl.queue == []
    case WakerMove(i, m) => p.WakeUp? && CanWaker(s.wl, i, m)
    // with the cancel disabled every check in `lock` ignores it
    case MutexMove(i, b) =>
      && InMutex(p) && b.i == i && M.Internal(b) && M.Enabled(s.m, b)
      && (p.Relocking? ==> !(b.WaiterMove? && b.m.Check?))
  }

  function Continue(k: Cont): Pc { if k.Finish? then Idle else Relock(false) }

  function AfterWaiter(s: State, i: nat, m: Move): Pc
    requires CanWaiter(s.wl, i, m)
  {
    if WaiterClaims(s.wl, i, m) then (if m.ParkOk? then Relock(true) else PopNext(ThenRelock))
    else if Stage(Waiter(s.wl, i, m), i).Gone? then Relock(false)
    else InWait
  }

  /** Where a thread goes when its mutex call is over. */
  function AfterMutex(p: Pc): Pc {
    match p
    case Unlocking(wait) => if wait then InWait else Idle
    case Relocking(ok) => Returned(ok)
    case _ => Idle
  }

  /** A mutex step of thread `i`, and who holds the guard after it. */
  function MutexNext(s: State, i: nat, b: M.Action, p: Pc): State
    requires M.Enabled(s.m, b) && i < |s.pcs|
  {
    var m := M.Next(s.m, b);
    s.(m := m, pcs := s.pcs[i := p],
       holder := if m.guards > s.m.guards then i else if m.guards < s.m.guards then -1 else s.holder)
  }

  function Next(s: State, a: Action): State
    requires Enabled(s, a)
  {
    var i := a.i;
    var p := s.pcs[i];
    match a
    case TryLock(_) => MutexNext(s, i, M.CallTryLock(i), Idle)
    case Lock(_) => MutexNext(s, i, M.CallLock(i), Locking)
    case Release(_) => MutexNext(s, i, M.CallUnlock(i), Unlocking(false))
    case CallWait(_) => s.(pcs := s.pcs[i := Enqueue])
    case CallNotify(_) => s.(notified := s.notified + 1, pcs := s.pcs[i := PopNext(Finish)])
    case Resume(_) => s.(pcs := s.pcs[i := Idle], returned := if p.ok then s.returned + 1 else s.returned)
    case Push(_) => s.(wl := Join(s.wl, i), pcs := s.pcs[i := Unlock])
    case UnlockMutex(_) => MutexNext(s, i, M.CallUnlock(i), Unlocking(true))
    case WaiterMove(_, m) => s.(wl := Waiter(s.wl, i, m), pcs := s.pcs[i := AfterWaiter(s, i, m)])
    case LockAgain(_) => MutexNext(s, i, M.CallLock(i), Relocking(p.ok))
    case PopOne(_) => s.(wl := PopBy(s.wl, i), pcs := s.pcs[i := WakeUp(p.k)])
    case PopEmpty(_) => s.(dropped := s.dropped + 1, pcs := s.pcs[i := Continue(p.k)])
    case WakerMove(_, m) =>
      s.(wl := Waker(s.wl, i, m),
         pcs := s.pcs[i := if !m.Swap? then p
                           else if WakerClaims(s.wl, i, m) then PopNext(p.k) else Continue(p.k)])
    case MutexMove(_, b) =>
      var over := i < |M.Next(s.m, b).pcs| && M.Next(s.m, b).pcs[i].Idle?;
      MutexNext(s, i, b, if over then AfterMutex(p) else p)
  }

  // ---------------------------------------------------------------- the invariant

  predicate HasBlocker(p: Pc) { p.Unlock? || (p.Unlocking? && p.wait) || p.InWait? }

  predicate NeedsMutex(p: Pc) { p.Enqueue? || p.Unlock? || p.Returned? }

  /** In a wait, after its `unlock` and before its re-lock has the guard. */
  predicate WithoutMutex(p: Pc) {
    || p.Unlocking? || p.InWait? || p.Relock? || p.Relocking?
    || ((p.PopNext? || p.WakeUp?) && p.k.ThenRelock?)
  }

  /** A thread that has a signal in hand: it is looking for a waiter, or is about to return it. */
  function Carried(p: Pc): nat {
    if p.PopNext? || ((p.Relock? || p.Relocking? || p.Returned?) && p.ok) then 1 else 0
  }

  ghost predicate PcOk(wl: Table, i: nat, p: Pc) {
    && (HasBlocker(p) <==> !Stage(wl, i).Gone?)
    && (HasBlocker(p) && !p.InWait? ==> Stage(wl, i).Waiting?)
    && (p.WakeUp? <==> Waking(wl, i))
  }

  /** Where a thread is in the mutex, and what it has to do with the guard. */
  predicate LockOk(m: M.State, holder: int, i: nat, p: Pc) {
    && i < |m.pcs|
    && (NeedsMutex(p) ==> holder == i) && (WithoutMutex(p) ==> holder != i)
    && match p
       case Locking => M.InLock(m.pcs[i]) || M.InUnlock(m.pcs[i])
       case Unlocking(_) => M.InUnlock(m.pcs[i])
       case Relocking(_) => M.Ignoring(m, i)
       case _ => m.pcs[i].Idle?
  }

  ghost predicate Signals(s: State) {
    && Ok(s.wl) && |s.wl.cur| == |s.pcs|
    && (forall i :: 0 <= i < |s.pcs| ==> PcOk(s.wl, i, s.pcs[i]))
    && s.notified == s.returned + s.dropped + Total(Carried, s.pcs) + InFlight(s.wl)
  }

  /** The guard exists exactly while somebody holds it, and calls are where the mutex says they are. */
  ghost predicate Locks(s: State) {
    && M.Inv(s.m) && |s.m.pcs| == |s.pcs| && s.holder >= -1
    && s.m.guards == (if s.holder == -1 then 0 else 1)
    && (forall i :: 0 <= i < |s.pcs| ==> LockOk(s.m, s.holder, i, s.pcs[i]))
  }

  ghost predicate Inv(s: State) { Signals(s) && Locks(s) }

  lemma StartInv(threads: nat)
    ensures Inv(Start(threads))
  {
    EmptyOk(threads);
    TotalZero(Carried, Start(threads).pcs);
    M.StartInv(threads);
  }

  // ---------------------------------------------------------------- the signals

  ghost predicate GoodStep(s: State, t: State, i: nat)
    requires i < |s.pcs| == |t.pcs|
  {
    && t.pcs == s.pcs[i := t.pcs[i]]
    && Ok(t.wl) && OthersKept(s.wl, t.wl, i) && PcOk(t.wl, i, t.pcs[i])
    && t.notified - t.returned - t.dropped - Carried(t.pcs[i]) - InFlight(t.wl)
       == s.notified - s.returned - s.dropped - Carried(s.pcs[i]) - InFlight(s.wl)
  }

  predicate OnTable(a: Action) { a.Push? || a.WaiterMove? || a.PopOne? || a.WakerMove? }

  lemma LocalStep(s: State, a: Action)
    requires Ok(s.wl) && Enabled(s, a) && PcOk(s.wl, a.i, s.pcs[a.i]) && !OnTable(a)
    ensures GoodStep(s, Next(s, a), a.i)
  {
    assert Next(s, a).wl == s.wl;
  }

  lemma WaiterStep(s: State, a: Action)
    requires Ok(s.wl) && Enabled(s, a) && PcOk(s.wl, a.i, s.pcs[a.i]) && (a.Push? || a.WaiterMove?)
    ensures GoodStep(s, Next(s, a), a.i)
  {
    match a
    case Push(i) => JoinOk(s.wl, i);
    case WaiterMove(i, m) => WaiterOk(s.wl, i, m);
  }

  lemma WakerStep(s: State, a: Action)
    requires Ok(s.wl) && Enabled(s, a) && PcOk(s.wl, a.i, s.pcs[a.i]) && (a.PopOne? || a.WakerMove?)
    ensures GoodStep(s, Next(s, a), a.i)
  {
    match a
    case PopOne(i) => PopOk(s.wl, i);
    case WakerMove(i, m) => WakerOk(s.wl, i, m);
  }

  lemma SignalStep(s: State, a: Action)
    requires Signals(s) && Enabled(s, a)
    ensures Signals(Next(s, a))
  {
    assert PcOk(s.wl, a.i, s.pcs[a.i]);
    if a.Push? || a.WaiterMove? { WaiterStep(s, a); }
    else if a.PopOne? || a.WakerMove? { WakerStep(s, a); }
    else { LocalStep(s, a); }
    GoodStepKeeps(s, Next(s, a), a.i);
  }

  lemma GoodStepKeeps(s: State, t: State, i: nat)
    requires Signals(s) && i < |s.pcs| == |t.pcs| && GoodStep(s, t, i)
    ensures Signals(t)
  {
    forall j | 0 <= j < |t.pcs| ensures PcOk(t.wl, j, t.pcs[j]) {
      assert j != i ==> PcOk(s.wl, j, s.pcs[j]) && t.pcs[j] == s.pcs[j];
    }
    TotalUpdate(Carried, s.pcs, i, t.pcs[i]);
  }

  // ---------------------------------------------------------------- a call, seen by its caller

  /** Where a call of the condition variable is, for its caller; a wait knows its answer when it re-locks. */
  datatype View =
    | NoCall | InLockCall
    | Entering                // wait: with the mutex
    | Waiting                 // wait: the mutex is released
    | Answered(ok: bool)      // wait: about to have the mutex again
    | Over(ok: bool)          // wait: returns with the mutex
    | Notifying

  function Seen(p: Pc): View {
    match p
    case Idle => NoCall
    case Locking => InLockCall
    case Unlocking(wait) => if wait then View.Waiting else InLockCall
    case Enqueue => Entering
    case Unlock => Entering
    case InWait => View.Waiting
    case PopNext(k) => if k.Finish? then Notifying else Answered(false)
    case WakeUp(k) => if k.Finish? then Notifying else Answered(false)
    case Relock(ok) => Answered(ok)
    case Relocking(ok) => Answered(ok)
    case Returned(ok) => Over(ok)
  }

  /** What a call may do in one step of thread `i`, and how it may end. */
  predicate PlainMove(s: State, t: State, v: View, w: View, a: Action) {
    var i := a.i;
    match v
    case NoCall =>
      w == (if a.CallWait? then Entering else if a.CallNotify? then Notifying else if a.TryLock? then NoCall else InLockCall)
    case InLockCall => w == InLockCall || w == NoCall
    case Entering => (w == Entering && t.holder == i) || (w == View.Waiting && a.UnlockMutex? && t.holder == -1)
    // a wake-up answers the wait with Ok; anything else that ends it answers with an error
    case Waiting => t.holder != i && (w == View.Waiting || w == Answered(a.WaiterMove? && a.m.ParkOk?))
    case Answered(ok) => (w == Answered(ok) && t.holder != i) || (w == Over(ok) && t.holder == i && t.m.guards == 1)
    case Over(_) => w == NoCall && t.holder == s.holder
    case Notifying => (w == Notifying || w == NoCall) && t.holder == s.holder && t.m == s.m
  }

  // ---------------------------------------------------------------- the mutex

  predicate OnMutex(a: Action) { a.TryLock? || a.Lock? || a.Release? || a.UnlockMutex? || a.LockAgain? || a.MutexMove? }

  /** What a step does to the mutex, as far as the other threads and the holder are concerned. */
  ghost predicate GoodLock(s: State, t: State, i: nat)
    requires i < |s.pcs| == |t.pcs|
  {
    && t.pcs == s.pcs[i := t.pcs[i]] && M.Inv(t.m) && M.Alone(s.m, t.m, i)
    && (t.holder == s.holder || (s.holder == -1 && t.holder == i) || (s.holder == i && t.holder == -1))
    && t.m.guards == (if t.holder == -1 then 0 else 1)
    && LockOk(t.m, t.holder, i, t.pcs[i])
  }

  lemma GoodLockKeeps(s: State, t: State, i: nat)
    requires Locks(s) && i < |s.pcs| == |t.pcs| && GoodLock(s, t, i)
    ensures Locks(t)
  {
    forall j | 0 <= j < |t.pcs| ensures LockOk(t.m, t.holder, j, t.pcs[j]) {
      assert j != i ==> LockOk(s.m, s.holder, j, s.pcs[j]) && t.pcs[j] == s.pcs[j] && t.m.pcs[j] == s.m.pcs[j];
    }
  }

  /** The step that the mutex takes. */
  function Inner(a: Action): M.Action
    requires OnMutex(a)
  {
    match a
    case TryLock(i) => M.CallTryLock(i)
    case Lock(i) => M.CallLock(i)
    case LockAgain(i) => M.CallLock(i)
    case MutexMove(_, b) => b
    case _ => M.CallUnlock(a.i)
  }

  /** What that step does to thread `i`'s call, as `Mutex` promises it. */
  predicate Promise(m: M.State, n: M.State, b: M.Action, ignoring: bool) {
    && b.i < |m.pcs| == |n.pcs| && n.guards <= 1
    && (if M.Internal(b) then M.CallGoesOn(m, n, b.i) && (ignoring ==> M.EndsWithGuard(m, n, b.i)) else M.CallBegins(m, n, b))
  }

  /** Thread `i` is where its call says, and the guard is with the holder. */
  predicate InPlace(s: State, i: nat) {
    && i < |s.pcs| == |s.m.pcs| && s.holder >= -1 && s.m.guards == (if s.holder == -1 then 0 else 1)
    && LockOk(s.m, s.holder, i, s.pcs[i])
  }

  lemma Promised(s: State, a: Action)
    requires Locks(s) && Enabled(s, a) && OnMutex(a)
    ensures Next(s, a).m == M.Next(s.m, Inner(a)) && M.Inv(Next(s, a).m) && M.Alone(s.m, Next(s, a).m, a.i)
    ensures InPlace(s, a.i) && Promise(s.m, Next(s, a).m, Inner(a), s.pcs[a.i].Relocking?)
  {
    var b := Inner(a);
    assert LockOk(s.m, s.holder, a.i, s.pcs[a.i]);
    if M.Internal(b) {
      M.InternalStep(s.m, b);
      if s.pcs[a.i].Relocking? { M.IgnoringLockAcquires(s.m, b); }
    } else {
      M.CallStep(s.m, b);
    }
    M.AtMostOneGuard(M.Next(s.m, b));
  }

  lemma CallAccount(s: State, a: Action)
    requires Enabled(s, a) && OnMutex(a) && !a.MutexMove? && InPlace(s, a.i)
    requires Promise(s.m, Next(s, a).m, Inner(a), false)
    ensures Accounted(s, Next(s, a), a)
  {
  }

  lemma MoveAccount(s: State, a: Action)
    requires Enabled(s, a) && a.MutexMove? && InPlace(s, a.i)
    requires Promise(s.m, Next(s, a).m, a.b, s.pcs[a.i].Relocking?)
    ensures Accounted(s, Next(s, a), a)
  {
  }

  predicate Accounted(s: State, t: State, a: Action)
    requires a.i < |s.pcs|
  {
    && a.i < |t.pcs| && t.pcs == s.pcs[a.i := t.pcs[a.i]]
    && (t.holder == s.holder || (s.holder == -1 && t.holder == a.i) || (s.holder == a.i && t.holder == -1))
    && InPlace(t, a.i)
    && PlainMove(s, t, Seen(s.pcs[a.i]), Seen(t.pcs[a.i]), a)
  }

  lemma MutexStep(s: State, a: Action)
    requires Locks(s) && Enabled(s, a) && OnMutex(a)
    ensures Accounted(s, Next(s, a), a) && GoodLock(s, Next(s, a), a.i)
  {
    Promised(s, a);
    if a.MutexMove? { MoveAccount(s, a); } else { CallAccount(s, a); }
  }

  lemma LockStep(s: State, a: Action)
    requires Locks(s) && Enabled(s, a)
    ensures Locks(Next(s, a))
  {
    var t := Next(s, a);
    assert LockOk(s.m, s.holder, a.i, s.pcs[a.i]);
    if OnMutex(a) { MutexStep(s, a); }
    else { assert t.m == s.m && t.holder == s.holder; }
    GoodLockKeeps(s, t, a.i);
  }

  lemma InvStep(s: State, a: Action)
    requires Inv(s) && Enabled(s, a)
    ensures Inv(Next(s, a))
  {
    SignalStep(s, a);
    LockStep(s, a);
  }

  // ---------------------------------------------------------------- every run

  ghost predicate Initial(s: State) { exists threads: nat :: s == Start(threads) }

  ghost predicate Step(s: State, t: State) { exists a: Action :: Enabled(s, a) && t == Next(s, a) }

  ghost predicate Reachable(s: State) { Reached(Initial, Step, s) }

  lemma ReachableInv(s: State)
    requires Reachable(s)
    ensures Inv(s)
  {
    forall s0 | Initial(s0) ensures Inv(s0) {
      var threads: nat :| s0 == Start(threads);
      StartInv(threads);
    }
    forall s1, s2 | Inv(s1) && Step(s1, s2) ensures Inv(s2) {
      var a: Action :| Enabled(s1, a) && s2 == Next(s1, a);
      InvStep(s1, a);
    }
    InvariantHolds(Initial, Step, Inv, s);
  }

  /**
   * Every notification is returned by a waiter that was not leaving, dropped on an empty queue,
   * or still on its way: a timed-out or canceled waiter never absorbs one.
   */
  lemma SignalConservation(s: State)
    requires Reachable(s)
    ensures s.notified == s.returned + s.dropped + Total(Carried, s.pcs) + InFlight(s.wl)
  {
    ReachableInv(s);
  }

  /**
   * `wait_impl` returns with the mutex's one guard, whether it was notified, timed out or canceled; until
   * then it is in the `lock` that ignores cancels, and nobody else returns or waits with the guard.
   */
  lemma ReturnsWithMutex(s: State, i: nat, j: nat)
    requires Reachable(s) && i < |s.pcs| && s.pcs[i].Returned?
    ensures s.holder == i && s.m.guards == 1 && i < |s.m.pcs| && s.m.pcs[i].Idle?
    ensures j < |s.pcs| && j != i ==> !NeedsMutex(s.pcs[j])
  {
    ReachableInv(s);
    assert LockOk(s.m, s.holder, i, s.pcs[i]);
    if j < |s.pcs| { assert LockOk(s.m, s.holder, j, s.pcs[j]); }
  }

  /** The re-lock never gives up: whatever step ends it, the thread has the guard. */
  lemma RelockEndsWithGuard(s: State, a: Action)
    requires Reachable(s) && Enabled(s, a) && s.pcs[a.i].Relocking?
    ensures var t := Next(s, a);
            && |t.pcs| == |s.pcs|
            && (t.pcs[a.i] == s.pcs[a.i] || (t.pcs[a.i] == Returned(s.pcs[a.i].ok) && t.holder == a.i && t.m.guards == 1))
  {
    ReachableInv(s);
    MutexStep(s, a);
  }

  // ---------------------------------------------------------------- the calls, seen by a client

  /** Signals are sent by `notify_one`, returned by waits that end with Ok, and dropped on an empty queue. */
  predicate PlainCounts(s: State, t: State, v: View, w: View) {
    && t.notified - s.notified == (if v == NoCall && w == Notifying then 1 else 0)
    && t.returned - s.returned == (if v == Over(true) then 1 else 0)
    && (t.dropped != s.dropped ==> t.dropped == s.dropped + 1 && s.wl.queue == [])
  }

  /**
   * Seen by its callers the machine is a plain condition variable: a wait begins with the mutex, gives it
   * up, gets its answer once, by a wake-up or without one, and ends with that answer and the mutex; a
   * `notify_one` ends without touching the mutex.
   */
  lemma RefinesPlainCondvar(s: State, a: Action)
    requires Reachable(s) && Enabled(s, a)
    ensures var t := Next(s, a);
            && t.pcs == s.pcs[a.i := t.pcs[a.i]]
            && PlainMove(s, t, Seen(s.pcs[a.i]), Seen(t.pcs[a.i]), a)
            && PlainCounts(s, t, Seen(s.pcs[a.i]), Seen(t.pcs[a.i]))
  {
    ReachableInv(s);
    assert PcOk(s.wl, a.i, s.pcs[a.i]) && LockOk(s.m, s.holder, a.i, s.pcs[a.i]);
    if OnMutex(a) { PlainLocking(s, a); } else { PlainSignal(s, a); }
  }

  lemma PlainLocking(s: State, a: Action)
    requires Locks(s) && Enabled(s, a) && OnMutex(a)
    ensures var t := Next(s, a);
            && t.pcs == s.pcs[a.i := t.pcs[a.i]]
            && PlainMove(s, t, Seen(s.pcs[a.i]), Seen(t.pcs[a.i]), a)
            && PlainCounts(s, t, Seen(s.pcs[a.i]), Seen(t.pcs[a.i]))
  {
    MutexStep(s, a);
  }

  lemma PlainSignal(s: State, a: Action)
    requires Enabled(s, a) && !OnMutex(a) && PcOk(s.wl, a.i, s.pcs[a.i]) && LockOk(s.m, s.holder, a.i, s.pcs[a.i])
    ensures var t := Next(s, a);
            && t.pcs == s.pcs[a.i := t.pcs[a.i]]
            && PlainMove(s, t, Seen(s.pcs[a.i]), Seen(t.pcs[a.i]), a)
            && PlainCounts(s, t, Seen(s.pcs[a.i]), Seen(t.pcs[a.i]))
  {
  }

  /**
   * A signal is dropped only when every waiter has its own: popped and on its way to it, or, if the
   * waiter is leaving, taken back by the waker.
   */
  lemma DroppedOnlyWhenNobodyWaits(s: State, a: Action, i: nat)
    requires Reachable(s) && Enabled(s, a) && Next(s, a).dropped != s.dropped && i < |s.pcs| && HasBlocker(s.pcs[i])
    ensures i < |s.wl.cur| && 0 <= s.wl.cur[i] < |s.wl.blockers|
    ensures var b := s.wl.blockers[s.wl.cur[i]];
            InTransit(b) || (b.outcome.WakerHas? && s.pcs[i].InWait? && (b.waiter.Rechecking? || b.waiter.Taking?))
  {
    ReachableInv(s);
    assert PcOk(s.wl, i, s.pcs[i]) && ThreadOk(s.wl, i) && BlockerOk(s.wl, s.wl.cur[i]);
  }

  // ---------------------------------------------------------------- rest and progress

  /** Parked in the wait, or inside the mutex. */
  predicate Asleep(s: State, i: nat) {
    i < |s.pcs| && i < |s.m.pcs| &&
    ((s.pcs[i].InWait? && Parked(s.wl, i)) || (InMutex(s.pcs[i]) && s.m.pcs[i].InWait? && Parked(s.m.wl, i)))
  }

  /**
   * Once everybody is idle or asleep, every signal was returned, dropped, or is with a notified waiter
   * that sleeps on the mutex; each waiter asleep in the wait is queued; and somebody asleep on the mutex
   * means that somebody else holds it.
   */
  lemma SettledAtRest(s: State)
    requires Reachable(s) && forall i :: 0 <= i < |s.pcs| ==> s.pcs[i].Idle? || Asleep(s, i)
    ensures s.notified == s.returned + s.dropped + Total(Carried, s.pcs) && InFlight(s.wl) == 0
    ensures forall i :: 0 <= i < |s.pcs| && s.pcs[i].InWait? ==> i < |s.wl.cur| && s.wl.cur[i] in s.wl.queue
    ensures (exists i :: 0 <= i < |s.pcs| && InMutex(s.pcs[i])) ==> s.holder != -1
  {
    ReachableInv(s);
    forall i | 0 <= i < |s.wl.cur| ensures s.wl.out[i] == -1 && (s.wl.cur[i] == -1 || Parked(s.wl, i)) {
      assert PcOk(s.wl, i, s.pcs[i]) && ThreadOk(s.wl, i);
      assert LockOk(s.m, s.holder, i, s.pcs[i]);
    }
    QuietTable(s.wl);
    MutexAtRest(s);
  }

  lemma MutexAtRest(s: State)
    requires Locks(s) && forall i :: 0 <= i < |s.pcs| ==> s.pcs[i].Idle? || Asleep(s, i)
    ensures (exists i :: 0 <= i < |s.pcs| && InMutex(s.pcs[i])) ==> s.holder != -1
  {
    forall i | 0 <= i < |s.pcs|
      ensures s.m.pcs[i].Idle? || (s.m.pcs[i].InWait? && Parked(s.m.wl, i))
      ensures InMutex(s.pcs[i]) ==> !s.m.pcs[i].Idle?
    {
      assert LockOk(s.m, s.holder, i, s.pcs[i]);
    }
    M.Restful(s.m);
  }

  lemma NotifierCanMove(s: State, i: nat)
    requires Signals(s) && Locks(s) && i < |s.pcs| && (s.pcs[i].PopNext? || s.pcs[i].WakeUp?)
    ensures exists a: Action :: a.i == i && Enabled(s, a)
  {
    assert PcOk(s.wl, i, s.pcs[i]) && ThreadOk(s.wl, i);
    if s.pcs[i].PopNext? {
      assert Enabled(s, if s.wl.queue == [] then PopEmpty(i) else PopOne(i));
    } else {
      WaitersReady(s.wl, i, false);
      assert Enabled(s, WakerMove(i, NextWake(s.wl, i)));
    }
  }

  lemma MutexCanMove(s: State, i: nat)
    requires Locks(s) && i < |s.pcs| && (InMutex(s.pcs[i]) || s.pcs[i].Unlock? || s.pcs[i].Relock?) && !Asleep(s, i)
    ensures exists a: Action :: a.i == i && Enabled(s, a)
  {
    assert LockOk(s.m, s.holder, i, s.pcs[i]);
    if s.pcs[i].Unlock? { assert Enabled(s, UnlockMutex(i)); }
    else if s.pcs[i].Relock? { assert Enabled(s, LockAgain(i)); }
    else {
      M.CanMove(s.m, i, s.pcs[i].Relocking?);
      var b: M.Action :| b.i == i && M.Enabled(s.m, b) && M.Internal(b)
                         && (s.pcs[i].Relocking? ==> b.WaiterMove? ==> !b.m.Check?);
      assert Enabled(s, MutexMove(i, b));
    }
  }

  /** A thread inside a call can always take a step, unless it is asleep in the wait or on the mutex. */
  lemma NeverBlocked(s: State, i: nat)
    requires Reachable(s) && i < |s.pcs| && !s.pcs[i].Idle? && !Asleep(s, i)
    ensures exists a: Action :: a.i == i && Enabled(s, a)
  {
    ReachableInv(s);
    assert PcOk(s.wl, i, s.pcs[i]);
    match s.pcs[i]
    case Enqueue => assert ThreadOk(s.wl, i); assert Enabled(s, Push(i));
    case InWait =>
      assert ThreadOk(s.wl, i);
      WaitersReady(s.wl, i, false);
      assert Enabled(s, WaiterMove(i, NextMove(s.wl, i, false)));
    case PopNext(_) => NotifierCanMove(s, i);
    case WakeUp(_) => NotifierCanMove(s, i);
    case Returned(_) => assert Enabled(s, Resume(i));
    case _ => MutexCanMove(s, i);
  }
}
