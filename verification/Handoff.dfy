/**
 * The `SyncBlocker` hand-off of src/sync/blocking.rs.
 *
 * One blocker serves one wait. Its waiter may leave (timeout or cancel) while a waker is
 * handing it a resource, and the two sides settle who keeps the resource through the flags
 * `unparked` and `release`. Each `Move` is one atomic operation of one side.
 */
module Handoff {

  /** How far the waiter got. */
  datatype WaiterPc =
    | Waiting     // registered: about to park, or parked
    | Checking    // park gave up: about to load `unparked`
    | Releasing   // `unparked` was false: about to store `release`
    | Rechecking  // `release` stored: about to load `unparked` again
    | Taking      // `unparked` was true: about to swap `release`
    | Gone        // left the wait

  /** How far the waker got. */
  datatype WakerPc =
    | Queued      // still in the waiter queue
    | Popped      // about to store `unparked`
    | Marked      // `unparked` stored: about to set the park token
    | Woken       // token set: about to swap `release`
    | Finished

  /** Which side ended up responsible for the resource. */
  datatype Outcome = Open | WaiterHas | WakerHas

  datatype Blocker = Blocker(
    unparked: bool, token: bool, release: bool,
    waiter: WaiterPc, waker: WakerPc, outcome: Outcome)

  const FRESH := Blocker(false, false, false, Waiting, Queued, Open)

  datatype Move =
    // waiter
    | ParkOk | ParkErr | SkipPark | Check | CheckIgnoring | SetRelease | Recheck | Take
    // waker
    | Pop | StoreUnparked | Wake | Swap

  predicate ByWaiter(m: Move) {
    m.ParkOk? || m.ParkErr? || m.SkipPark? || m.Check? || m.CheckIgnoring? ||
    m.SetRelease? || m.Recheck? || m.Take?
  }

  predicate Can(b: Blocker, m: Move) {
    match m
    case ParkOk => b.waiter.Waiting? && b.token
    case ParkErr => b.waiter.Waiting?
    case SkipPark => b.waiter.Waiting?
    case Check => b.waiter.Checking?
    case CheckIgnoring => b.waiter.Checking?
    case SetRelease => b.waiter.Releasing?
    case Recheck => b.waiter.Rechecking?
    case Take => b.waiter.Taking?
    case Pop => b.waker.Queued?
    case StoreUnparked => b.waker.Popped?
    case Wake => b.waker.Marked?
    case Swap => b.waker.Woken?
  }

  /** The move by which a side learns that the resource is its own to consume or to forward. */
  predicate Claims(b: Blocker, m: Move) {
    match m
    case ParkOk => true
    case Check => b.unparked
    case CheckIgnoring => b.unparked
    case Take => b.release
    case Swap => b.release
    case _ => false
  }

  function Do(b: Blocker, m: Move): Blocker
    requires Can(b, m)
  {
    match m
    case ParkOk => b.(waiter := Gone, token := false, outcome := WaiterHas)
    case ParkErr => b.(waiter := Checking, token := false)
    case SkipPark => b.(waiter := Checking)
    case Check => if b.unparked then b.(waiter := Gone, outcome := WaiterHas) else b.(waiter := Releasing)
    case CheckIgnoring => if b.unparked then b.(waiter := Gone, outcome := WaiterHas) else b.(waiter := Waiting)
    case SetRelease => b.(waiter := Rechecking, release := true)
    case Recheck => b.(waiter := if b.unparked then Taking else Gone)
    case Take => if b.release then b.(waiter := Gone, release := false, outcome := WaiterHas) else b.(waiter := Gone)
    case Pop => b.(waker := Popped)
    case StoreUnparked => b.(waker := Marked, unparked := true)
    case Wake => b.(waker := Woken, token := true)
    case Swap => if b.release then b.(waker := Finished, release := false, outcome := WakerHas) else b.(waker := Finished)
  }

  predicate InWakerHands(b: Blocker) { b.waker.Popped? || b.waker.Marked? || b.waker.Woken? }

  /** The blocker was popped and nobody has claimed the resource yet. */
  predicate InTransit(b: Blocker) { !b.waker.Queued? && b.outcome.Open? }

  /** What every interleaving of the two sides keeps. */
  predicate Consistent(b: Blocker) {
    && (b.unparked <==> b.waker.Marked? || b.waker.Woken? || b.waker.Finished?)
    && (b.token ==> b.waker.Woken? || b.waker.Finished?)
    && (b.waiter.Waiting? && (b.waker.Woken? || b.waker.Finished?) ==> b.token)
    && (b.waiter.Waiting? || b.waiter.Checking? || b.waiter.Releasing? ==> !b.release && b.outcome.Open?)
    && (b.waiter.Rechecking? || b.waiter.Taking? ==> (b.release <==> b.outcome.Open?) && !b.outcome.WaiterHas?)
    && (b.waiter.Taking? ==> b.unparked)
    && (b.waiter.Gone? && b.outcome.Open? ==> b.release && !b.waker.Finished?)
    && (b.waiter.Gone? && !b.outcome.Open? ==> !b.release)
    && (b.outcome.WaiterHas? ==> b.unparked && b.waiter.Gone?)
    && (b.outcome.WakerHas? ==> b.waker.Finished?)
  }

  lemma MoveKeeps(b: Blocker, m: Move)
    requires Consistent(b) && Can(b, m)
    ensures Consistent(Do(b, m))
    ensures Claims(b, m) ==> InTransit(b) && !Do(b, m).outcome.Open?
    ensures !Claims(b, m) ==> Do(b, m).outcome == b.outcome
  {
  }

  // ---------------------------------------------------------------- whole runs

  predicate Playable(b: Blocker, ms: seq<Move>)
    decreases ms
  {
    ms == [] || (Can(b, ms[0]) && Playable(Do(b, ms[0]), ms[1..]))
  }

  function Play(b: Blocker, ms: seq<Move>): Blocker
    requires Playable(b, ms)
    decreases ms
  {
    if ms == [] then b else Play(Do(b, ms[0]), ms[1..])
  }

  function ClaimCount(b: Blocker, ms: seq<Move>): nat
    requires Playable(b, ms)
    decreases ms
  {
    if ms == [] then 0
    else (if Claims(b, ms[0]) then 1 else 0) + ClaimCount(Do(b, ms[0]), ms[1..])
  }

  lemma {:induction false} PlayKeeps(b: Blocker, ms: seq<Move>)
    requires Consistent(b) && Playable(b, ms)
    ensures Consistent(Play(b, ms))
    ensures ClaimCount(b, ms) + (if b.outcome.Open? then 0 else 1) == if Play(b, ms).outcome.Open? then 0 else 1
    decreases ms
  {
    if ms != [] {
      MoveKeeps(b, ms[0]);
      PlayKeeps(Do(b, ms[0]), ms[1..]);
    }
  }

  /**
   * In every interleaving at most one side claims the resource; once both sides are through,
   * exactly one has; and a waiter that is still parked when its waker is through has its wake token.
   */
  lemma ExactlyOneSideClaims(ms: seq<Move>)
    requires Playable(FRESH, ms)
    ensures ClaimCount(FRESH, ms) <= 1
    ensures var b := Play(FRESH, ms); b.waiter.Gone? && b.waker.Finished? ==> ClaimCount(FRESH, ms) == 1
    ensures var b := Play(FRESH, ms); b.waiter.Waiting? && b.waker.Finished? ==> b.token
  {
    PlayKeeps(FRESH, ms);
  }
}
