/**
 * A reachable state of the channel whose last `drop_tx` leaves a receiver parked, although
 * src/sync/mpmc.rs:126-129 promises that every receiver is woken or sees the disconnect.
 * Thread 0 is the last sender; receiver 1 is overtaken by receiver 2 between pushing its
 * blocker and being counted.
 */
module MpmcStranded {
  import opened Traces
  import opened Handoff
  import opened WaitList
  import opened Mpmc
  import opened SemphoreRest
  import opened MpmcRest
  import S = Semphore

  lemma Go(s: State, a: Action, t: State)
    requires Reachable(s) && Enabled(s, a) && Next(s, a) == t
    ensures Reachable(t)
  {
    OneMore(Initial, Step, s, t);
  }

  /** Thread `i` moved to `q` in the semaphore and to `p` in the channel. */
  function Place(s: State, i: nat, q: S.Pc, p: Pc): State
    requires i < |s.pcs| == |s.sem.pcs|
  {
    s.(sem := s.sem.(pcs := s.sem.pcs[i := q]), pcs := s.pcs[i := p])
  }

  /** A thread outside the channel, on an empty channel that is still connected. */
  ghost predicate CanCall(s: State, i: nat) {
    && Reachable(s) && i < |s.pcs| == |s.sem.pcs| && s.pcs[i].Out? && s.sem.pcs[i].Idle?
    && s.sem.cnt <= 0 && s.rx > 0 && s.tx > 0
  }

  lemma Calls(s: State, i: nat)
    requires CanCall(s, i)
    ensures Reachable(Place(s, i, S.Returned(S.Refused), Trying(true)))
  {
    var s1 := Place(s, i, S.TryLoad(false), Trying(true));
    Go(s, CallRecv(i, true), s1);
    Go(s1, Inner(i, S.TryRead(i)), Place(s, i, S.Returned(S.Refused), Trying(true)));
  }

  lemma Blocks(s: State, i: nat)
    requires CanCall(s, i)
    ensures Reachable(Place(s, i, S.TryLoad(true), Receiving))
  {
    Calls(s, i);
    var s2 := Place(s, i, S.Idle, LoadTx(true));
    Go(Place(s, i, S.Returned(S.Refused), Trying(true)), Leave(i), s2);
    Go(s2, ReadTx(i), Place(s, i, S.TryLoad(true), Receiving));
  }

  lemma Pushes(s: State, i: nat)
    requires CanCall(s, i) && CanJoin(s.sem.wl, i)
    ensures Reachable(Place(s.(sem := s.sem.(wl := Join(s.sem.wl, i))), i, S.Sub, Receiving))
  {
    Blocks(s, i);
    var s1 := Place(s, i, S.Register, Receiving);
    Go(Place(s, i, S.TryLoad(true), Receiving), Inner(i, S.TryRead(i)), s1);
    Go(s1, Inner(i, S.Push(i)), Place(s.(sem := s.sem.(wl := Join(s.sem.wl, i))), i, S.Sub, Receiving));
  }

  lemma Parks(s: State, i: nat)
    requires Reachable(s) && i < |s.pcs| == |s.sem.pcs| && s.pcs[i].Receiving? && s.sem.pcs[i].Sub?
    requires s.sem.cnt <= 0 && s.tx > 0
    ensures Reachable(Place(s.(sem := s.sem.(cnt := s.sem.cnt - 1)), i, S.InWait(false), Receiving))
  {
    var s1 := Place(s.(sem := s.sem.(cnt := s.sem.cnt - 1)), i, S.StopCheck, Receiving);
    Go(s, Inner(i, S.Decrement(i)), s1);
    Go(s1, Inner(i, S.AskStop(i, false)), Place(s.(sem := s.sem.(cnt := s.sem.cnt - 1)), i, S.InWait(false), Receiving));
  }

  /** Receiver 1 has pushed its blocker; receiver 2 queued behind it, was counted and is parked. */
  function Overtaken(): State {
    State(S.State(-1, Table([0, 1], [FRESH, FRESH], [1, 2], [0, 0], [-1, 0, 1], [-1, -1, -1]),
                  [S.Idle, S.Sub, S.InWait(false)], 0, 0, 0),
          [], 1, 1, [Out, Receiving, Receiving], 0, 0, -1, 0, 0, false)
  }

  function Pushed(): State {
    State(S.State(0, Table([0], [FRESH], [1], [0], [-1, 0, -1], [-1, -1, -1]), [S.Idle, S.Sub, S.Idle], 0, 0, 0),
          [], 1, 1, [Out, Receiving, Out], 0, 0, -1, 0, 0, false)
  }

  lemma PushedIsReachable()
    ensures Reachable(Pushed())
  {
    var s := Start(3);
    StartIsReached(Initial, Step, s);
    Pushes(s, 1);
    assert Place(s.(sem := s.sem.(wl := Join(s.sem.wl, 1))), 1, S.Sub, Receiving) == Pushed();
  }

  lemma OvertakenIsReachable()
    ensures Reachable(Overtaken())
  {
    PushedIsReachable();
    var s := Pushed();
    Pushes(s, 2);
    var t := Place(s.(sem := s.sem.(wl := Join(s.sem.wl, 2))), 2, S.Sub, Receiving);
    Parks(t, 2);
    assert Place(t.(sem := t.sem.(cnt := t.sem.cnt - 1)), 2, S.InWait(false), Receiving) == Overtaken();
  }

  // ---------------------------------------------------------------- the drop, the wake loop, and rest

  /** Receiver 2's blocker is never touched; receiver 1's is `b`, waited on by `cur` and woken by thread 0 through `out`. */
  function Waiters(queue: seq<nat>, b: Blocker, cur: int, out: int): Table {
    Table(queue, [b, FRESH], [1, 2], [0, 0], [-1, cur, 1], [out, -1, -1])
  }

  /** The dropper's part: `rounds` of the wake loop begun, `posts` made; the loop runs on until `closed`. */
  datatype Loop = Loop(rounds: nat, posts: nat, closed: bool)

  /** After the drop: thread 0 is at `q0` and `p0`, receiver 1 at `q1` and `p1`, receiver 2 parked. */
  function After(cnt: int, wl: Table, q0: S.Pc, p0: Pc, q1: S.Pc, p1: Pc, loop: Loop): State {
    State(S.State(cnt, wl, [q0, q1, S.InWait(false)], 0, loop.posts, 0), [], 0, 1, [p0, p1, Receiving],
          loop.posts, 0, 0, loop.rounds, Measure(Overtaken()), loop.closed)
  }

  /** The dropper at work, with receiver 1 still uncounted. */
  function Dropper(cnt: int, wl: Table, q0: S.Pc, p0: Pc, loop: Loop): State {
    After(cnt, wl, q0, p0, S.Sub, Receiving, loop)
  }

  const POSTED := S.Finish(S.Posted)
  const MARKED := FRESH.(waker := Marked, unparked := true)
  const WOKEN := FRESH.(waker := Finished, unparked := true, token := true)
  const LEFT := Blocker(true, true, false, Gone, Finished, WaiterHas)

  const QUEUED := Waiters([0, 1], FRESH, 0, -1)
  const AWAKE := Waiters([1], WOKEN, 0, -1)
  const PASSED := Waiters([1], LEFT, -1, -1)

  function Dropped(): State { Dropper(-1, QUEUED, S.Idle, Asking, Loop(0, 0, false)) }

  /** Thread 0 saw a counted waiter and posts. */
  function Posting(): State { Dropper(-1, QUEUED, S.PostLoad(S.Posted), Waking, Loop(1, 0, false)) }

  function Swapping(): State { Dropper(-1, QUEUED, S.PostCas(-1, S.Posted), Waking, Loop(1, 0, false)) }

  /** It owes the queue one pop, and the first blocker there is receiver 1's. */
  function Popping(): State { Dropper(0, QUEUED, S.PopNext(POSTED), Woke, Loop(1, 1, false)) }

  /** Thread 0 is waking receiver 1, whose blocker is `b`. */
  function WakingUp(b: Blocker): State { Dropper(0, Waiters([1], b, 0, 0), S.WakeUp(POSTED), Woke, Loop(1, 1, false)) }

  /** Receiver 1 has the wake-up. */
  function Posted(): State { Dropper(0, AWAKE, S.Returned(S.Posted), Woke, Loop(1, 1, false)) }

  function AskingAgain(): State { Dropper(0, AWAKE, S.Idle, Asking, Loop(1, 1, false)) }

  /** The counter shows no waiter: the wake loop is over. */
  function LoopOver(): State { Dropper(0, AWAKE, S.Idle, Out, Loop(1, 1, true)) }

  /** The dropper is through; receiver 1 goes on. */
  function Receiver(wl: Table, q1: S.Pc, p1: Pc): State { After(-1, wl, S.Idle, Out, q1, p1, Loop(1, 1, true)) }

  /** Receiver 1 is counted at last, and told to stop. */
  function Counted(): State { Receiver(AWAKE, S.StopCheck, Receiving) }

  function Told(): State { Receiver(Waiters([1], WOKEN.(waiter := Checking), 0, -1), S.InWait(true), Receiving) }

  function WithPermit(q1: S.Pc, p1: Pc): State {
    var s := Receiver(PASSED, q1, p1);
    s.(sem := s.sem.(acquired := 1))
  }

  /** It keeps the wake-up it was given. */
  function Kept(): State { WithPermit(S.Returned(S.Acquired), Granted) }

  function Looking(): State { WithPermit(S.Idle, Pc.Taking) }

  /** There is no item for it. */
  function Empty1(): State { WithPermit(S.Idle, FoundNone).(nones := 1) }

  /** Everybody is out of the channel but receiver 2, which is parked. */
  function AtRest(): State { WithPermit(S.Idle, Out).(nones := 1) }

  lemma Go3(s0: State, a0: Action, s1: State, a1: Action, s2: State, a2: Action, s3: State)
    requires Reachable(s0) && Enabled(s0, a0) && Next(s0, a0) == s1
    requires Enabled(s1, a1) && Next(s1, a1) == s2 && Enabled(s2, a2) && Next(s2, a2) == s3
    ensures Reachable(s3)
  {
    Go(s0, a0, s1);
    Go(s1, a1, s2);
    Go(s2, a2, s3);
  }

  lemma DropStep()
    ensures Enabled(Overtaken(), DropTx(0)) && Next(Overtaken(), DropTx(0)) == Dropped()
  {
  }

  lemma AskStep()
    ensures Enabled(Dropped(), AskWaiters(0)) && Next(Dropped(), AskWaiters(0)) == Posting()
  {
  }

  lemma ReadStep()
    ensures var a := Inner(0, S.PostRead(0)); Enabled(Posting(), a) && Next(Posting(), a) == Swapping()
  {
  }

  lemma SwapStep()
    ensures var a := Inner(0, S.PostSwap(0, false)); Enabled(Swapping(), a) && Next(Swapping(), a) == Popping()
  {
  }

  lemma PoppingIsReachable()
    ensures Reachable(Popping())
  {
    OvertakenIsReachable();
    DropStep();
    Go(Overtaken(), DropTx(0), Dropped());
    AskStep();
    ReadStep();
    SwapStep();
    Go3(Dropped(), AskWaiters(0), Posting(), Inner(0, S.PostRead(0)), Swapping(), Inner(0, S.PostSwap(0, false)), Popping());
  }

  lemma PopStep()
    ensures var a := Inner(0, S.PopOne(0)); Enabled(Popping(), a) && Next(Popping(), a) == WakingUp(FRESH.(waker := Popped))
  {
  }

  lemma MarkStep()
    ensures var s, a := WakingUp(FRESH.(waker := Popped)), Inner(0, S.WakerMove(0, StoreUnparked));
            Enabled(s, a) && Next(s, a) == WakingUp(MARKED)
  {
  }

  lemma UnparkStep()
    ensures var s, a := WakingUp(MARKED), Inner(0, S.WakerMove(0, Wake));
            Enabled(s, a) && Next(s, a) == WakingUp(WOKEN.(waker := Woken))
  {
  }

  lemma WokenIsReachable()
    ensures Reachable(WakingUp(WOKEN.(waker := Woken)))
  {
    PoppingIsReachable();
    PopStep();
    MarkStep();
    UnparkStep();
    Go3(Popping(), Inner(0, S.PopOne(0)),
        WakingUp(FRESH.(waker := Popped)), Inner(0, S.WakerMove(0, StoreUnparked)),
        WakingUp(MARKED), Inner(0, S.WakerMove(0, Wake)), WakingUp(WOKEN.(waker := Woken)));
  }

  lemma ReleaseStep()
    ensures var s, a := WakingUp(WOKEN.(waker := Woken)), Inner(0, S.WakerMove(0, Swap));
            Enabled(s, a) && Next(s, a) == Posted()
  {
  }

  lemma BackStep()
    ensures Enabled(Posted(), Leave(0)) && Next(Posted(), Leave(0)) == AskingAgain()
  {
  }

  lemma EndStep()
    ensures Enabled(AskingAgain(), AskWaiters(0)) && Next(AskingAgain(), AskWaiters(0)) == LoopOver()
  {
  }

  lemma LoopOverIsReachable()
    ensures Reachable(LoopOver())
  {
    WokenIsReachable();
    ReleaseStep();
    BackStep();
    EndStep();
    Go3(WakingUp(WOKEN.(waker := Woken)), Inner(0, S.WakerMove(0, Swap)), Posted(), Leave(0),
        AskingAgain(), AskWaiters(0), LoopOver());
  }

  lemma CountStep()
    ensures var a := Inner(1, S.Decrement(1)); Enabled(LoopOver(), a) && Next(LoopOver(), a) == Counted()
  {
  }

  lemma TellStep()
    ensures var a := Inner(1, S.AskStop(1, true)); Enabled(Counted(), a) && Next(Counted(), a) == Told()
  {
  }

  lemma KeepStep()
    ensures var a := Inner(1, S.WaiterMove(1, Check)); Enabled(Told(), a) && Next(Told(), a) == Kept()
  {
  }

  lemma KeptIsReachable()
    ensures Reachable(Kept())
  {
    LoopOverIsReachable();
    CountStep();
    TellStep();
    KeepStep();
    Go3(LoopOver(), Inner(1, S.Decrement(1)), Counted(), Inner(1, S.AskStop(1, true)),
        Told(), Inner(1, S.WaiterMove(1, Check)), Kept());
  }

  lemma LeaveStep()
    ensures Enabled(Kept(), Leave(1)) && Next(Kept(), Leave(1)) == Looking()
  {
  }

  lemma LookStep()
    ensures Enabled(Looking(), TakeItem(1)) && Next(Looking(), TakeItem(1)) == Empty1()
  {
  }

  lemma ReportStep()
    ensures Enabled(Empty1(), ReportNone(1)) && Next(Empty1(), ReportNone(1)) == AtRest()
  {
  }

  lemma AtRestIsReachable()
    ensures Reachable(AtRest())
  {
    KeptIsReachable();
    LeaveStep();
    LookStep();
    ReportStep();
    Go3(Kept(), Leave(1), Looking(), TakeItem(1), Empty1(), ReportNone(1), AtRest());
  }

  lemma RestIsRest()
    ensures S.AtRest(AtRest().sem) && Resting(AtRest().sem) && AtRest().pcs == [Out, Out, Receiving]
    ensures AtRest().sem.pcs == [S.Idle, S.Idle, S.InWait(false)] && Parked(AtRest().sem.wl, 2)
  {
  }

  /**
   * From the overtaken state the last sender drops, its wake loop ends, every other call returns, and
   * receiver 2 is parked for good: nobody else is in the channel, and no sender is left.
   */
  lemma ReceiverLeftParked()
    ensures Reachable(Overtaken()) && Enabled(Overtaken(), DropTx(0)) && Next(Overtaken(), DropTx(0)) == Dropped()
    ensures Reachable(AtRest()) && AtRest().tx == 0 && AtRest().closed && S.AtRest(AtRest().sem)
    ensures AtRest().pcs == [Out, Out, Receiving] && |AtRest().sem.pcs| == 3
    ensures AtRest().sem.pcs[2] == S.InWait(false) && Parked(AtRest().sem.wl, 2) && Stranded(AtRest())
  {
    OvertakenIsReachable();
    DropStep();
    AtRestIsReachable();
    RestIsRest();
  }
}
