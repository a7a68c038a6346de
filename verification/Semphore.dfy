/**
 * `Semphore` of src/sync/semphore.rs as a step machine: any number of threads or coroutines
 * run `post`, `try_wait`, `wait`, `wait_timeout` and the stoppable wait of the mpmc channel,
 * interleaved one atomic operation at a time.
 */
module Semphore {
  import opened Counting
  import opened Traces
  import opened Handoff
  import opened WaitList

  /** The largest permit count; `post` panics instead of passing it. */
  const MAX: int := 0x7fff_ffff_ffff_ffff

  /** How a call ended. `Left` is a timeout or a cancel; `Overflow` is the panic of `post`. */
  datatype Status = Acquired | Stopped | Left | Refused | Posted | Overflow

  /** What follows `wakeup_one`: the call is over, or a registered waiter goes on to wait. */
  datatype Cont = Finish(st: Status) | ThenWait

  datatype Pc =
    | Idle
    | Returned(st: Status)
    // try_wait: load, then compare-exchange; `inWait` when it is the first step of a wait
    | TryLoad(inWait: bool)
    | TryCas(c: int, inWait: bool)
    // wait_timeout_until: push a blocker, decrement the counter, ask `stop`, then park or leave
    | Register
    | Sub
    | StopCheck
    | InWait(stopping: bool)
    // post: load, then compare-exchange; `st` is what the enclosing call will report
    | PostLoad(st: Status)
    | PostCas(c: int, st: Status)
    // wakeup_one: pop, hand off, and count a released waiter out
    | PopNext(k: Cont)
    | WakeUp(k: Cont)
    | AddBack(k: Cont)
    // a leaver whose give-back post hit the overflow panic
    | Stuck

  /** `posts` counts the successful user posts, `acquired` the permits that callers got. */
  datatype State = State(cnt: int, wl: Table, pcs: seq<Pc>, initial: nat, posts: nat, acquired: nat)

  datatype Action =
    | CallPost(i: nat) | CallTry(i: nat) | CallWait(i: nat) | Resume(i: nat)
    | TryRead(i: nat) | TrySwap(i: nat)
    | Push(i: nat) | Decrement(i: nat) | AskStop(i: nat, stop: bool) | WaiterMove(i: nat, m: Move)
    | PostRead(i: nat) | PostSwap(i: nat, spurious: bool)
    | PopOne(i: nat) | WakerMove(i: nat, m: Move) | CountBack(i: nat)

  function Start(threads: nat, initial: nat): State {
    State(initial, Empty(threads), seq(threads, _ => Idle), initial, 0, 0)
  }

  predicate Enabled(s: State, a: Action) {
    a.i < |s.pcs| &&
    var p := s.pcs[a.i];
    match a
    case CallPost(_) => p.Idle?
    case CallTry(_) => p.Idle?
    case CallWait(_) => p.Idle?
    case Resume(_) => p.Returned?
    case TryRead(_) => p.TryLoad?
    case TrySwap(_) => p.TryCas?
    case Push(i) => p.Register? && CanJoin(s.wl, i)
    case Decrement(_) => p.Sub?
    case AskStop(i, stop) => p.StopCheck? && (stop ==> CanWaiter(s.wl, i, SkipPark))
    case WaiterMove(i, m) => p.InWait? && CanWaiter(s.wl, i, m) && !m.SkipPark? && !m.CheckIgnoring?
    case PostRead(_) => p.PostLoad?
    case PostSwap(_, _) => p.PostCas?
    case PopOne(i) => p.PopNext? && CanPop(s.wl, i)
    case WakerMove(i, m) => p.WakeUp? && CanWaker(s.wl, i, m)
    case CountBack(_) => p.AddBack?
  }

  function AfterTry(c: int, inWait: bool): Pc {
    if c > 0 then TryCas(c, inWait) else if inWait then Register else Returned(Refused)
  }

  function Continue(k: Cont): Pc {
    match k
    case Finish(st) => Returned(st)
    case ThenWait => StopCheck
  }

  /**
   * A waiter's move. `Ok` from park, or a claim while stopping, keeps the permit; a claim after
   * `Err` gives it back through `post`; leaving without a claim just returns.
   */
  function AfterWaiter(s: State, i: nat, m: Move): Pc
    requires i < |s.pcs| && s.pcs[i].InWait? && CanWaiter(s.wl, i, m)
  {
    var p := s.pcs[i];
    if WaiterClaims(s.wl, i, m) then
      (if m.ParkOk? || p.stopping then Returned(Acquired) else PostLoad(Left))
    else if Stage(Waiter(s.wl, i, m), i).Gone? then Returned(if p.stopping then Stopped else Left)
    else p
  }

  function Next(s: State, a: Action): State
    requires Enabled(s, a)
  {
    var i := a.i;
    var p := s.pcs[i];
    match a
    case CallPost(_) => s.(pcs := s.pcs[i := PostLoad(Posted)])
    case CallTry(_) => s.(pcs := s.pcs[i := TryLoad(false)])
    case CallWait(_) => s.(pcs := s.pcs[i := TryLoad(true)])
    case Resume(_) => s.(pcs := s.pcs[i := Idle])
    case TryRead(_) => s.(pcs := s.pcs[i := AfterTry(s.cnt, p.inWait)])
    case TrySwap(_) =>
      if s.cnt == p.c then
        s.(cnt := s.cnt - 1, pcs := s.pcs[i := Returned(Acquired)], acquired := s.acquired + 1)
      else s.(pcs := s.pcs[i := AfterTry(s.cnt, p.inWait)])
    case Push(_) => s.(wl := Join(s.wl, i), pcs := s.pcs[i := Sub])
    case Decrement(_) =>
      s.(cnt := s.cnt - 1, pcs := s.pcs[i := if s.cnt > 0 then PopNext(ThenWait) else StopCheck])
    case AskStop(_, stop) =>
      s.(pcs := s.pcs[i := InWait(stop)], wl := if stop then Waiter(s.wl, i, SkipPark) else s.wl)
    case WaiterMove(_, m) =>
      var q := AfterWaiter(s, i, m);
      s.(wl := Waiter(s.wl, i, m), pcs := s.pcs[i := q],
         acquired := if q == Returned(Acquired) then s.acquired + 1 else s.acquired)
    case PostRead(_) =>
      if s.cnt >= MAX then s.(pcs := s.pcs[i := if p.st.Left? then Stuck else Returned(Overflow)])
      else s.(pcs := s.pcs[i := PostCas(s.cnt, p.st)])
    case PostSwap(_, spurious) =>
      if s.cnt == p.c && !spurious then
        s.(cnt := s.cnt + 1,
           pcs := s.pcs[i := if s.cnt < 0 then PopNext(Finish(p.st)) else Returned(p.st)],
           posts := if p.st.Left? then s.posts else s.posts + 1)
      else s.(pcs := s.pcs[i := PostLoad(p.st)])
    case PopOne(_) => s.(wl := PopBy(s.wl, i), pcs := s.pcs[i := WakeUp(p.k)])
    case WakerMove(_, m) =>
      s.(wl := Waker(s.wl, i, m),
         pcs := s.pcs[i := if !m.Swap? then p
                           else if WakerClaims(s.wl, i, m) then AddBack(p.k) else Continue(p.k)])
    case CountBack(_) =>
      s.(cnt := s.cnt + 1, pcs := s.pcs[i := if s.cnt >= 0 then Continue(p.k) else PopNext(p.k)])
  }

  // ---------------------------------------------------------------- the invariant

  predicate HasBlocker(p: Pc) {
    p.Sub? || p.StopCheck? || p.InWait? || ((p.PopNext? || p.WakeUp? || p.AddBack?) && p.k.ThenWait?)
  }

  /** A thread that pushed a blocker and has not counted it, or that owes the queue a pop. */
  function QueueShare(p: Pc): nat { if p.Sub? || p.PopNext? then 1 else 0 }

  /** A thread that carries a permit: it owes a pop, or has one to give back. */
  function Carried(p: Pc): nat {
    if p.PopNext? || p.AddBack? || p.Stuck? || ((p.PostLoad? || p.PostCas?) && p.st.Left?) then 1 else 0
  }

  /** Permits that no caller holds and that the counter does not show as free. */
  function Transit(s: State): nat { Total(Carried, s.pcs) + InFlight(s.wl) }

  ghost predicate PcOk(wl: Table, i: nat, p: Pc) {
    && (HasBlocker(p) <==> !Stage(wl, i).Gone?)
    && (HasBlocker(p) && !p.InWait? ==> Stage(wl, i).Waiting?)
    && (p.InWait? && p.stopping ==> !Stage(wl, i).Waiting?)
    && (p.WakeUp? <==> Waking(wl, i))
    && (p.TryCas? ==> p.c > 0) && (p.PostCas? ==> p.c < MAX)
    && ((p.PostLoad? || p.PostCas?) ==> p.st.Left? || p.st.Posted?)
    && ((p.PopNext? || p.WakeUp? || p.AddBack?) && p.k.Finish? ==> p.k.st.Left? || p.k.st.Posted?)
  }

  ghost predicate Linked(s: State) {
    && Ok(s.wl) && |s.wl.cur| == |s.pcs|
    && forall i :: 0 <= i < |s.pcs| ==> PcOk(s.wl, i, s.pcs[i])
  }

  /** Counter/queue identity. */
  ghost predicate QueueCounted(s: State) { |s.wl.queue| == Total(QueueShare, s.pcs) + Max0(-s.cnt) }

  /** Permit conservation. */
  ghost predicate Conserved(s: State) { s.initial + s.posts == s.acquired + Max0(s.cnt) + Transit(s) }

  ghost predicate Inv(s: State) { Linked(s) && QueueCounted(s) && Conserved(s) }

  lemma StartInv(threads: nat, initial: nat)
    ensures Inv(Start(threads, initial))
  {
    var s := Start(threads, initial);
    EmptyOk(threads);
    TotalZero(QueueShare, s.pcs);
    TotalZero(Carried, s.pcs);
  }

  /**
   * What one step guarantees about its own thread: the waiter list stays well formed, the other
   * threads' view of it does not change, and the thread's permits balance the counters.
   */
  ghost predicate GoodStep(s: State, t: State, i: nat)
    requires i < |s.pcs| == |t.pcs|
  {
    && t.pcs == s.pcs[i := t.pcs[i]] && t.initial == s.initial
    && Ok(t.wl) && OthersKept(s.wl, t.wl, i) && PcOk(t.wl, i, t.pcs[i])
    && Carried(t.pcs[i]) + InFlight(t.wl) + Max0(t.cnt) + t.acquired - t.posts
       == Carried(s.pcs[i]) + InFlight(s.wl) + Max0(s.cnt) + s.acquired - s.posts
  }

  lemma CounterStep(s: State, a: Action)
    requires Ok(s.wl) && Enabled(s, a) && PcOk(s.wl, a.i, s.pcs[a.i])
    requires a.TryRead? || a.TrySwap? || a.Decrement? || a.PostRead? || a.PostSwap? || a.CountBack?
    ensures GoodStep(s, Next(s, a), a.i)
  {
    var t := Next(s, a);
    assert t.wl == s.wl;
    assert HasBlocker(t.pcs[a.i]) == HasBlocker(s.pcs[a.i]);
  }

  lemma CallStep(s: State, a: Action)
    requires Ok(s.wl) && Enabled(s, a) && PcOk(s.wl, a.i, s.pcs[a.i])
    requires a.CallPost? || a.CallTry? || a.CallWait? || a.Resume?
    ensures GoodStep(s, Next(s, a), a.i)
  {
    assert Next(s, a).wl == s.wl;
  }

  lemma WaiterStep(s: State, a: Action)
    requires Ok(s.wl) && Enabled(s, a) && PcOk(s.wl, a.i, s.pcs[a.i])
    requires a.Push? || a.AskStop?
    ensures GoodStep(s, Next(s, a), a.i)
  {
    match a
    case Push(i) => JoinOk(s.wl, i);
    case AskStop(i, stop) => if stop { WaiterOk(s.wl, i, SkipPark); }
  }

  lemma LeaverStep(s: State, i: nat, m: Move)
    requires Ok(s.wl) && Enabled(s, WaiterMove(i, m)) && PcOk(s.wl, i, s.pcs[i])
    ensures GoodStep(s, Next(s, WaiterMove(i, m)), i)
  {
    WaiterOk(s.wl, i, m);
  }

  lemma WakerStep(s: State, a: Action)
    requires Ok(s.wl) && Enabled(s, a) && PcOk(s.wl, a.i, s.pcs[a.i])
    requires a.PopOne? || a.WakerMove?
    ensures GoodStep(s, Next(s, a), a.i)
  {
    match a
    case PopOne(i) => PopOk(s.wl, i);
    case WakerMove(i, m) => WakerOk(s.wl, i, m);
  }

  lemma GoodStepKeeps(s: State, t: State, i: nat)
    requires Linked(s) && Conserved(s) && i < |s.pcs| == |t.pcs| && GoodStep(s, t, i)
    ensures Linked(t) && Conserved(t)
  {
    forall j | 0 <= j < |t.pcs| ensures PcOk(t.wl, j, t.pcs[j]) {
      assert j != i ==> PcOk(s.wl, j, s.pcs[j]) && t.pcs[j] == s.pcs[j];
    }
    TotalUpdate(Carried, s.pcs, i, t.pcs[i]);
  }

  lemma QueueStep(s: State, a: Action)
    requires QueueCounted(s) && Enabled(s, a) && PcOk(s.wl, a.i, s.pcs[a.i])
    ensures QueueCounted(Next(s, a))
  {
    var t := Next(s, a);
    TotalUpdate(QueueShare, s.pcs, a.i, t.pcs[a.i]);
    assert t.pcs == s.pcs[a.i := t.pcs[a.i]];
  }

  lemma OwnStep(s: State, a: Action)
    requires Linked(s) && Enabled(s, a)
    ensures |Next(s, a).pcs| == |s.pcs| && GoodStep(s, Next(s, a), a.i)
  {
    assert PcOk(s.wl, a.i, s.pcs[a.i]);
    if a.Push? || a.AskStop? { WaiterStep(s, a); }
    else if a.WaiterMove? { LeaverStep(s, a.i, a.m); }
    else if a.PopOne? || a.WakerMove? { WakerStep(s, a); }
    else if a.CallPost? || a.CallTry? || a.CallWait? || a.Resume? { CallStep(s, a); }
    else { CounterStep(s, a); }
  }

  lemma InvStep(s: State, a: Action)
    requires Inv(s) && Enabled(s, a)
    ensures Inv(Next(s, a))
  {
    OwnStep(s, a);
    GoodStepKeeps(s, Next(s, a), a.i);
    QueueStep(s, a);
  }

  // ---------------------------------------------------------------- every run

  ghost predicate Initial(s: State) { exists threads: nat, initial: nat :: s == Start(threads, initial) }

  ghost predicate Step(s: State, t: State) { exists a: Action :: Enabled(s, a) && t == Next(s, a) }

  ghost predicate Reachable(s: State) { Reached(Initial, Step, s) }

  lemma ReachableInv(s: State)
    requires Reachable(s)
    ensures Inv(s)
  {
    forall s0 | Initial(s0) ensures Inv(s0) {
      var threads: nat, initial: nat :| s0 == Start(threads, initial);
      StartInv(threads, initial);
    }
    forall s1, s2 | Inv(s1) && Step(s1, s2) ensures Inv(s2) {
      var a: Action :| Enabled(s1, a) && s2 == Next(s1, a);
      InvStep(s1, a);
    }
    InvariantHolds(Initial, Step, Inv, s);
  }

  /**
   * No permit is lost or duplicated: the initial value plus the posts always equals what callers
   * acquired, what the counter shows free, and what is in transit; and each handed-over permit
   * has a thread that still has to move it.
   */
  lemma PermitConservation(s: State)
    requires Reachable(s)
    ensures s.initial + s.posts == s.acquired + Max0(s.cnt) + Transit(s)
    ensures forall b :: 0 <= b < |s.wl.blockers| && InTransit(s.wl.blockers[b]) ==>
              exists i :: 0 <= i < |s.pcs| && i < |s.wl.cur| && i < |s.wl.out| &&
                          (s.wl.cur[i] == b || s.wl.out[i] == b) && !s.pcs[i].Idle? && !s.pcs[i].Returned?
  {
    ReachableInv(s);
    forall b | 0 <= b < |s.wl.blockers| && InTransit(s.wl.blockers[b])
      ensures exists i :: 0 <= i < |s.pcs| && i < |s.wl.cur| && i < |s.wl.out| &&
                          (s.wl.cur[i] == b || s.wl.out[i] == b) && !s.pcs[i].Idle? && !s.pcs[i].Returned?
    {
      InFlightHasCarrier(s.wl, b);
      var i :| 0 <= i < |s.wl.cur| && (s.wl.cur[i] == b || s.wl.out[i] == b);
      assert ThreadOk(s.wl, i) && PcOk(s.wl, i, s.pcs[i]);
    }
  }

  lemma PopAlways(s: State, i: nat)
    requires Inv(s) && i < |s.pcs| && s.pcs[i].PopNext?
    ensures s.wl.queue != [] && Enabled(s, PopOne(i))
  {
    TotalAtLeast(QueueShare, s.pcs, i);
    assert PcOk(s.wl, i, s.pcs[i]);
  }

  /**
   * Counter/queue identity; so the queue never runs dry under `wakeup_one`, whose
   * `expect("got null blocker!")` cannot fail.
   */
  lemma PopAlwaysFinds(s: State, i: nat)
    requires Reachable(s)
    ensures |s.wl.queue| == Total(QueueShare, s.pcs) + Max0(-s.cnt)
    ensures i < |s.pcs| && s.pcs[i].PopNext? ==> s.wl.queue != [] && Enabled(s, PopOne(i))
  {
    ReachableInv(s);
    if i < |s.pcs| && s.pcs[i].PopNext? { PopAlways(s, i); }
  }

  /** Nobody can take another step without a new call, a timeout or a cancel. */
  ghost predicate AtRest(s: State) {
    forall i :: 0 <= i < |s.pcs| ==> s.pcs[i].Idle? || (s.pcs[i].InWait? && Parked(s.wl, i))
  }

  lemma RestfulTable(s: State)
    requires Inv(s) && AtRest(s)
    ensures InFlight(s.wl) == 0
    ensures Total(Carried, s.pcs) == Total(QueueShare, s.pcs) == 0
    ensures forall i :: 0 <= i < |s.pcs| && !s.pcs[i].Idle? ==> s.wl.cur[i] in s.wl.queue
  {
    forall i | 0 <= i < |s.wl.cur| ensures s.wl.out[i] == -1 && (s.wl.cur[i] == -1 || Parked(s.wl, i)) {
      assert PcOk(s.wl, i, s.pcs[i]) && ThreadOk(s.wl, i);
    }
    QuietTable(s.wl);
    TotalZero(Carried, s.pcs);
    TotalZero(QueueShare, s.pcs);
  }

  /** At rest every permit is held or free, and nobody is parked while a permit is free. */
  lemma NoLostWakeupAtRest(s: State)
    requires Reachable(s) && AtRest(s)
    ensures s.initial + s.posts == s.acquired + Max0(s.cnt)
    ensures (exists i :: 0 <= i < |s.pcs| && !s.pcs[i].Idle?) ==> s.cnt < 0
  {
    ReachableInv(s);
    RestfulTable(s);
  }

  /** The steps the semaphore takes by itself, between a call and its return. */
  predicate Internal(a: Action) { !a.CallPost? && !a.CallTry? && !a.CallWait? && !a.Resume? }

  /** What a thread inside a call does next, if it is told to stop, or not. */
  function NextAction(s: State, i: nat, stop: bool): Action
    requires i < |s.pcs|
  {
    match s.pcs[i]
    case Idle => Resume(i)
    case Stuck => Resume(i)
    case Returned(_) => Resume(i)
    case TryLoad(_) => TryRead(i)
    case TryCas(_, _) => TrySwap(i)
    case Register => Push(i)
    case Sub => Decrement(i)
    case StopCheck => AskStop(i, stop)
    case InWait(_) => WaiterMove(i, NextMove(s.wl, i, false))
    case PostLoad(_) => PostRead(i)
    case PostCas(_, _) => PostSwap(i, false)
    case PopNext(_) => PopOne(i)
    case WakeUp(_) => WakerMove(i, NextWake(s.wl, i))
    case AddBack(_) => CountBack(i)
  }

  lemma CanMove(s: State, i: nat, stop: bool)
    requires Inv(s) && i < |s.pcs|
    requires !s.pcs[i].Idle? && !s.pcs[i].Stuck? && !(s.pcs[i].InWait? && Parked(s.wl, i))
    ensures Enabled(s, NextAction(s, i, stop)) && (Internal(NextAction(s, i, stop)) <==> !s.pcs[i].Returned?)
  {
    assert PcOk(s.wl, i, s.pcs[i]) && ThreadOk(s.wl, i);
    WaitersReady(s.wl, i, false);
    if s.pcs[i].PopNext? { PopAlways(s, i); }
  }

  /** A thread inside a call can always take a step, unless it is parked or panicked. */
  lemma NeverBlocked(s: State, i: nat)
    requires Reachable(s) && i < |s.pcs|
    requires !s.pcs[i].Idle? && !s.pcs[i].Stuck? && !(s.pcs[i].InWait? && Parked(s.wl, i))
    ensures exists a: Action :: a.i == i && Enabled(s, a)
  {
    ReachableInv(s);
    CanMove(s, i, false);
  }

  // ---------------------------------------------------------------- the calls, seen by a client

  /** Where a call is, for its caller: before the moment it takes effect, after it, or over. */
  datatype View =
    | NoCall
    | Trying           // try_wait
    | Blocking         // a wait that has neither a permit nor begun to leave
    | ToldToStop       // told to stop, without a permit so far
    | GivingBack       // leaving, with a permit that came too late
    | Posting          // post, before its permit is in
    | HasPosted        // after: waking a waiter
    | Over(st: Status)
    | Dead

  function Seen(p: Pc): View {
    match p
    case Idle => NoCall
    case Returned(st) => Over(st)
    case TryLoad(inWait) => if inWait then Blocking else Trying
    case TryCas(_, inWait) => if inWait then Blocking else Trying
    case Register => Blocking
    case Sub => Blocking
    case StopCheck => Blocking
    case InWait(stopping) => if stopping then ToldToStop else Blocking
    case PostLoad(st) => if st.Left? then GivingBack else Posting
    case PostCas(_, st) => if st.Left? then GivingBack else Posting
    case PopNext(k) => SeenWaking(k)
    case WakeUp(k) => SeenWaking(k)
    case AddBack(k) => SeenWaking(k)
    case Stuck => Dead
  }

  function SeenWaking(k: Cont): View { if k.ThenWait? then Blocking else if k.st.Left? then GivingBack else HasPosted }

  /** The posts made and the permits acquired by a step. */
  function PostsMade(s: State, t: State): int { t.posts - s.posts }

  function PermitsTaken(s: State, t: State): int { t.acquired - s.acquired }

  /** What a call may do in one step, and how it may end, by what it is. */
  predicate PlainMove(s: State, t: State, v: View, w: View, a: Action) {
    match v
    case NoCall =>
      w == (if a.CallTry? then Trying else if a.CallWait? then Blocking else Posting)
    // a permit is taken, or there is none
    case Trying => w == Trying || (w == Over(Acquired) && s.cnt > 0) || (w == Over(Refused) && s.cnt <= 0)
    // only a timeout or a cancel makes a wait leave, and only `stop` makes it stop; a wake-up is never turned down
    case Blocking =>
      && (w == Blocking || w == Over(Acquired) || w == GivingBack || w == Over(Left) || w == ToldToStop)
      && (w == ToldToStop <==> a.AskStop? && a.stop)
      && (w == GivingBack || w == Over(Left) ==> a.WaiterMove? && !a.m.ParkOk?)
    case ToldToStop => w == ToldToStop || w == Over(Acquired) || w == Over(Stopped)
    case GivingBack => w == GivingBack || w == Over(Left) || (w == Dead && s.cnt >= MAX)
    case Posting =>
      || w == Posting || (w == Over(Overflow) && s.cnt >= MAX)
      || ((w == HasPosted || w == Over(Posted)) && s.cnt < MAX && t.cnt == s.cnt + 1)
    case HasPosted => w == HasPosted || w == Over(Posted)
    case Over(_) => w == NoCall
    case Dead => false
  }

  /** Permits are posted and taken just when a call passes the point where it does so. */
  predicate PlainCounts(s: State, t: State, v: View, w: View) {
    && PostsMade(s, t) == (if v == Posting && (w == HasPosted || w == Over(Posted)) then 1 else 0)
    && PermitsTaken(s, t) == (if w == Over(Acquired) then 1 else 0)
  }

  /**
   * Seen by its callers the machine is a plain semaphore: a `try_wait` is refused only when no permit is free;
   * a wait ends with a permit unless it times out, is canceled or told to stop; a `post` adds its one
   * permit or panics on a full counter; and each call ends with an answer of its own kind.
   */
  lemma RefinesPlainSemaphore(s: State, a: Action)
    requires Reachable(s) && Enabled(s, a)
    ensures var t := Next(s, a);
            && t.pcs == s.pcs[a.i := t.pcs[a.i]]
            && PlainMove(s, t, Seen(s.pcs[a.i]), Seen(t.pcs[a.i]), a)
            && PlainCounts(s, t, Seen(s.pcs[a.i]), Seen(t.pcs[a.i]))
  {
    ReachableInv(s);
    assert PcOk(s.wl, a.i, s.pcs[a.i]);
    PlainAction(s, a);
  }

  lemma PlainAction(s: State, a: Action)
    requires Enabled(s, a) && PcOk(s.wl, a.i, s.pcs[a.i])
    ensures var t := Next(s, a);
            && t.pcs == s.pcs[a.i := t.pcs[a.i]]
            && PlainMove(s, t, Seen(s.pcs[a.i]), Seen(t.pcs[a.i]), a)
            && PlainCounts(s, t, Seen(s.pcs[a.i]), Seen(t.pcs[a.i]))
  {
    if a.WaiterMove? || a.AskStop? { PlainWaiter(s, a); } else { PlainStep(s, a); }
  }

  lemma PlainWaiter(s: State, a: Action)
    requires Enabled(s, a) && PcOk(s.wl, a.i, s.pcs[a.i]) && (a.WaiterMove? || a.AskStop?)
    ensures var t := Next(s, a);
            && t.pcs == s.pcs[a.i := t.pcs[a.i]]
            && PlainMove(s, t, Seen(s.pcs[a.i]), Seen(t.pcs[a.i]), a)
            && PlainCounts(s, t, Seen(s.pcs[a.i]), Seen(t.pcs[a.i]))
  {
  }

  lemma PlainStep(s: State, a: Action)
    requires Enabled(s, a) && PcOk(s.wl, a.i, s.pcs[a.i]) && !a.WaiterMove? && !a.AskStop?
    ensures var t := Next(s, a);
            && t.pcs == s.pcs[a.i := t.pcs[a.i]]
            && PlainMove(s, t, Seen(s.pcs[a.i]), Seen(t.pcs[a.i]), a)
            && PlainCounts(s, t, Seen(s.pcs[a.i]), Seen(t.pcs[a.i]))
  {
  }

  /** The overflow panic of `post` fires only when the permits really do not fit. */
  lemma OverflowIsReal(s: State, i: nat)
    requires Reachable(s) && i < |s.pcs| && s.pcs[i].PostLoad? && s.cnt >= MAX
    ensures s.initial + s.posts - s.acquired >= MAX + (if s.pcs[i].st.Left? then 1 else 0)
  {
    ReachableInv(s);
    TotalAtLeast(Carried, s.pcs, i);
  }
}
