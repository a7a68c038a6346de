/**
 * The mpmc channel of src/sync/mpmc.rs: an item queue, the semaphore machine of `Semphore` and
 * the port counters, with every sender, receiver and dropper interleaved step by step.
 */
module Mpmc {
  import opened Counting
  import opened Traces
  import opened WaitList
  import S = Semphore

  /** Where a thread is in the channel code; its place inside the semaphore is in `sem.pcs`. */
  datatype Pc =
    | Out
    | Pushing(v: int)         // send: receivers exist, about to push the item
    | Sending                 // send: item pushed, permit not posted yet
    | Sent                    // send: permit posted, still inside `post`
    | Trying(blocking: bool)  // inside `sem.try_wait` of try_recv
    | LoadTx(blocking: bool)  // no permit, about to load `tx_ports`
    | Receiving               // inside `sem.wait_timeout_until`
    | Granted                 // got a permit, still to leave the semaphore
    | Taking                  // about to pop the item of its permit
    | FoundNone               // popped nothing, about to load `tx_ports`
    | Asking                  // drop_tx: last sender gone, about to call `has_waiters`
    | Waking                  // drop_tx: inside `post`, permit not posted yet
    | Woke                    // drop_tx: inside `post`, permit posted
    | Draining                // drop_rx: last receiver gone, popping the leftovers
    | Panicked(sending: bool) // the overflow panic of `post` unwound the call

  /**
   * History: `wakePosts` counts the posts of drop_tx, `nones` the permits that found no item,
   * `rounds` the iterations of drop_tx's loop, `bound` the measure when the last sender went,
   * `closed` whether that loop has ended.
   */
  datatype State = State(
    sem: S.State, items: seq<int>, tx: nat, rx: nat, pcs: seq<Pc>,
    wakePosts: nat, nones: nat, dropper: int, rounds: nat, bound: nat, closed: bool)

  datatype Action =
    | CallSend(i: nat, v: int) | CallRecv(i: nat, blocking: bool)
    | CloneTx(i: nat) | DropTx(i: nat) | CloneRx(i: nat) | DropRx(i: nat)
    | PushItem(i: nat) | Inner(i: nat, a: S.Action) | Leave(i: nat) | ReadTx(i: nat)
    | TakeItem(i: nat) | ReportNone(i: nat) | AskWaiters(i: nat) | Drain(i: nat)

  function Start(threads: nat): State {
    State(S.Start(threads, 0), [], 1, 1, seq(threads, _ => Out), 0, 0, -1, 0, 0, false)
  }

  predicate InSend(p: Pc) { p.Pushing? || p.Sending? || p.Sent? }

  predicate InRecv(p: Pc) {
    p.Trying? || p.LoadTx? || p.Receiving? || p.Granted? || p.Taking? || p.FoundNone?
  }

  predicate InSem(p: Pc) { p.Sending? || p.Sent? || p.Trying? || p.Receiving? || p.Waking? || p.Woke? }

  predicate Enabled(s: State, a: Action) {
    a.i < |s.pcs| && a.i < |s.sem.pcs| &&
    var p := s.pcs[a.i];
    match a
    case CallSend(_, _) => p.Out? && s.tx > 0
    case CallRecv(i, _) => p.Out? && s.rx > 0 && S.Enabled(s.sem, S.CallTry(i))
    case CloneTx(_) => p.Out? && s.tx > 0
    // the last handle is dropped only when no call borrows it
    case DropTx(_) => p.Out? && s.tx > 0 && (s.tx == 1 ==> forall j :: 0 <= j < |s.pcs| ==> !InSend(s.pcs[j]))
    case CloneRx(_) => p.Out? && s.rx > 0
    case DropRx(_) => p.Out? && s.rx > 0 && (s.rx == 1 ==> forall j :: 0 <= j < |s.pcs| ==> !InRecv(s.pcs[j]))
    case PushItem(i) => p.Pushing? && S.Enabled(s.sem, S.CallPost(i))
    case Inner(i, b) =>
      && InSem(p) && b.i == i && S.Internal(b) && S.Enabled(s.sem, b)
      && (b.AskStop? ==> b.stop == (s.tx == 0))
    case Leave(i) => (InSem(p) || p.Granted?) && s.sem.pcs[i].Returned?
    case ReadTx(i) => p.LoadTx? && S.Enabled(s.sem, S.CallWait(i))
    case TakeItem(_) => p.Taking?
    case ReportNone(_) => p.FoundNone?
    case AskWaiters(i) => p.Asking? && S.Enabled(s.sem, S.CallPost(i))
    case Drain(_) => p.Draining?
  }

  /** A thread's new place after a semaphore step, read off what the step did to the counts. */
  function AfterInner(p: Pc, before: S.State, after: S.State): Pc {
    if after.posts > before.posts then (if p.Waking? then Woke else Sent)
    else if after.acquired > before.acquired then Granted
    else p
  }

  function AfterLeave(p: Pc, st: S.Status): Pc {
    if st.Overflow? then Panicked(p.Sending?)
    else match p
      case Trying(blocking) => LoadTx(blocking)
      case Granted => Pc.Taking
      case Woke => Asking
      case _ => Out
  }

  function Late(p: S.Pc): nat {
    if ((p.TryLoad? || p.TryCas?) && p.inWait) || p.Register? || p.Sub? then 1 else 0
  }

  /** Receivers on their way to being counted as waiting, plus those counted. */
  function Measure(s: State): nat { Total(Late, s.sem.pcs) + Max0(-s.sem.cnt) }

  function Next(s: State, a: Action): State
    requires Enabled(s, a)
  {
    var i := a.i;
    var p := s.pcs[i];
    match a
    case CallSend(_, v) => if s.rx == 0 then s else s.(pcs := s.pcs[i := Pushing(v)])
    case CallRecv(_, blocking) => s.(sem := S.Next(s.sem, S.CallTry(i)), pcs := s.pcs[i := Trying(blocking)])
    case CloneTx(_) => s.(tx := s.tx + 1)
    case DropTx(_) =>
      if s.tx == 1 then s.(tx := 0, pcs := s.pcs[i := Asking], dropper := i, bound := Measure(s))
      else s.(tx := s.tx - 1)
    case CloneRx(_) => s.(rx := s.rx + 1)
    case DropRx(_) => if s.rx == 1 then s.(rx := 0, pcs := s.pcs[i := Draining]) else s.(rx := s.rx - 1)
    case PushItem(_) =>
      s.(items := s.items + [p.v], sem := S.Next(s.sem, S.CallPost(i)), pcs := s.pcs[i := Sending])
    case Inner(_, b) =>
      var sem := S.Next(s.sem, b);
      s.(sem := sem, pcs := s.pcs[i := AfterInner(p, s.sem, sem)],
         wakePosts := if p.Waking? && sem.posts > s.sem.posts then s.wakePosts + 1 else s.wakePosts)
    case Leave(_) =>
      s.(sem := S.Next(s.sem, S.Resume(i)), pcs := s.pcs[i := AfterLeave(p, s.sem.pcs[i].st)])
    case ReadTx(_) =>
      if s.tx == 0 || !p.blocking then s.(pcs := s.pcs[i := Out])
      else s.(sem := S.Next(s.sem, S.CallWait(i)), pcs := s.pcs[i := Receiving])
    case TakeItem(_) =>
      if s.items != [] then s.(items := s.items[1..], pcs := s.pcs[i := Out])
      else s.(nones := s.nones + 1, pcs := s.pcs[i := FoundNone])
    case ReportNone(_) => s.(pcs := s.pcs[i := Out])
    case AskWaiters(_) =>
      if s.sem.cnt < 0 then
        s.(sem := S.Next(s.sem, S.CallPost(i)), pcs := s.pcs[i := Waking], rounds := s.rounds + 1)
      else s.(pcs := s.pcs[i := Out], closed := true)
    case Drain(_) =>
      if s.items != [] then s.(items := s.items[1..]) else s.(pcs := s.pcs[i := Out])
  }

  // ---------------------------------------------------------------- the invariant

  /** An item whose permit has not been posted; one whose permit is in a receiver's hand. */
  function Unposted(p: Pc): nat { if p.Sending? || (p.Panicked? && p.sending) then 1 else 0 }
  function Holding(p: Pc): nat { if p.Granted? || p.Taking? then 1 else 0 }

  /** How a thread's place in the channel and its place in the semaphore fit together. */
  predicate Fits(p: Pc, q: S.Pc) {
    match p
    case Sending => ((q.PostLoad? || q.PostCas?) && q.st.Posted?) || q == S.Returned(S.Overflow)
    case Waking => ((q.PostLoad? || q.PostCas?) && q.st.Posted?) || q == S.Returned(S.Overflow)
    case Sent => Finishing(q)
    case Woke => Finishing(q)
    case Trying(_) => ((q.TryLoad? || q.TryCas?) && !q.inWait) || q == S.Returned(S.Refused)
    case Receiving => Waits(q)
    case Granted => q == S.Returned(S.Acquired)
    case _ => q.Idle?
  }

  predicate Finishing(q: S.Pc) {
    ((q.PopNext? || q.WakeUp? || q.AddBack?) && q.k == S.Finish(S.Posted)) || q == S.Returned(S.Posted)
  }

  predicate Waits(q: S.Pc) {
    match q
    case Idle => false
    case Returned(st) => st.Stopped? || st.Left?
    case TryLoad(w) => w
    case TryCas(_, w) => w
    case PostLoad(st) => st.Left?
    case PostCas(_, st) => st.Left?
    case PopNext(k) => k.ThenWait? || k.st.Left?
    case WakeUp(k) => k.ThenWait? || k.st.Left?
    case AddBack(k) => k.ThenWait? || k.st.Left?
    case _ => true
  }

  predicate Wakes(p: Pc) { p.Asking? || p.Waking? || p.Woke? }

  ghost predicate PcOk(s: State, i: nat)
    requires i < |s.pcs| == |s.sem.pcs|
  {
    var p := s.pcs[i];
    && Fits(p, s.sem.pcs[i])
    && (InSend(p) ==> s.tx > 0)
    && (InRecv(p) ==> s.rx > 0)
    && (Wakes(p) ==> s.tx == 0 && s.dropper == i && !s.closed)
    && (p.FoundNone? ==> s.tx == 0)
    && (p.Draining? ==> s.rx == 0)
  }

  /** Items and permits balance, up to the wake-ups of drop_tx and the permits that found none. */
  ghost predicate ItemsCounted(s: State) {
    s.rx > 0 ==>
      |s.items| == Total(Unposted, s.pcs) + s.sem.posts - s.wakePosts
                   - (s.sem.acquired - Total(Holding, s.pcs) - s.nones)
  }

  /** The dropper saw a waiter and has not posted for it. */
  predicate Owing(p: Pc) { p.Waking? || p.Panicked? }

  /** The wake loop's budget. */
  ghost predicate RoundsBounded(s: State) {
    if s.tx > 0 then s.rounds == 0 && s.dropper == -1 && !s.closed
    else
      && 0 <= s.dropper < |s.pcs|
      && s.rounds + Measure(s) <= s.bound + (if Owing(s.pcs[s.dropper]) && s.sem.cnt < 0 then 1 else 0)
  }

  ghost predicate Inv(s: State) {
    && S.Inv(s.sem) && s.sem.initial == 0 && |s.pcs| == |s.sem.pcs|
    && (forall i :: 0 <= i < |s.pcs| ==> PcOk(s, i))
    && (s.wakePosts > 0 ==> s.tx == 0)
    && ItemsCounted(s) && RoundsBounded(s)
  }

  lemma StartInv(threads: nat)
    ensures Inv(Start(threads))
  {
    var s := Start(threads);
    S.StartInv(threads, 0);
    TotalZero(Unposted, s.pcs);
    TotalZero(Holding, s.pcs);
  }

  /** A semaphore step never raises the measure, unless it is a new wait, and pays for a counter that turns non-negative. */
  lemma MeasureStep(sem: S.State, b: S.Action)
    requires S.Enabled(sem, b) && !b.CallWait? && (sem.pcs[b.i].TryCas? ==> sem.pcs[b.i].c > 0)
    ensures var t := S.Next(sem, b);
            Total(Late, t.pcs) + Max0(-t.cnt) + (if sem.cnt < 0 <= t.cnt then 1 else 0)
            <= Total(Late, sem.pcs) + Max0(-sem.cnt)
    ensures b.PostSwap? && S.Next(sem, b).posts > sem.posts && sem.cnt < 0 ==>
              var t := S.Next(sem, b);
              Total(Late, t.pcs) + Max0(-t.cnt) + 1 <= Total(Late, sem.pcs) + Max0(-sem.cnt)
  {
    var t := S.Next(sem, b);
    assert t.pcs == sem.pcs[b.i := t.pcs[b.i]];
    TotalUpdate(Late, sem.pcs, b.i, t.pcs[b.i]);
  }

  /** What a semaphore step inside a channel call can do. */
  lemma InnerFacts(sem: S.State, b: S.Action, p: Pc)
    requires S.Enabled(sem, b) && S.Internal(b) && InSem(p) && Fits(p, sem.pcs[b.i])
    ensures var t := S.Next(sem, b);
            && t.pcs == sem.pcs[b.i := t.pcs[b.i]] && t.initial == sem.initial
            && Fits(AfterInner(p, sem, t), t.pcs[b.i])
            && (t.posts == sem.posts || (t.posts == sem.posts + 1 && b.PostSwap? && (p.Sending? || p.Waking?)))
            && (t.acquired == sem.acquired ||
                (t.acquired == sem.acquired + 1 && t.posts == sem.posts && (p.Trying? || p.Receiving?)))
  {
  }

  /** What one step guarantees about its own thread, so that the others do not notice it. */
  ghost predicate GoodStep(s: State, t: State, i: nat)
    requires i < |s.pcs|
  {
    && t.sem.initial == 0 && |s.pcs| == |s.sem.pcs| == |t.pcs| == |t.sem.pcs|
    && t.pcs == s.pcs[i := t.pcs[i]] && t.sem.pcs == s.sem.pcs[i := t.sem.pcs[i]]
    && PcOk(t, i)
    && (t.tx > 0 || s.tx == 0 || forall j :: 0 <= j < |s.pcs| ==> !InSend(s.pcs[j]))
    && (t.rx > 0 || s.rx == 0 || forall j :: 0 <= j < |s.pcs| ==> !InRecv(s.pcs[j]))
    && (s.tx == 0 ==> t.tx == 0 && t.dropper == s.dropper)
    && (s.rx == 0 ==> t.rx == 0)
    && (t.closed == s.closed || s.dropper == i)
    && (t.wakePosts > 0 ==> t.tx == 0)
    && (t.rx > 0 ==>
          |t.items| + t.sem.acquired + t.wakePosts - t.sem.posts - t.nones - Unposted(t.pcs[i]) - Holding(t.pcs[i])
          == |s.items| + s.sem.acquired + s.wakePosts - s.sem.posts - s.nones - Unposted(s.pcs[i]) - Holding(s.pcs[i]))
  }

  lemma GoodStepKeeps(s: State, t: State, i: nat)
    requires Inv(s) && i < |s.pcs| && GoodStep(s, t, i) && RoundsBounded(t) && S.Inv(t.sem)
    ensures Inv(t)
  {
    forall j | 0 <= j < |t.pcs| ensures PcOk(t, j) {
      assert PcOk(s, j);
    }
    TotalUpdate(Unposted, s.pcs, i, t.pcs[i]);
    TotalUpdate(Holding, s.pcs, i, t.pcs[i]);
  }

  /** The part of the invariant that one step looks at. */
  ghost predicate Local(s: State, i: nat) {
    && i < |s.pcs| == |s.sem.pcs| && s.sem.initial == 0
    && (s.sem.pcs[i].TryCas? ==> s.sem.pcs[i].c > 0)
    && PcOk(s, i) && (s.wakePosts > 0 ==> s.tx == 0) && RoundsBounded(s)
  }

  lemma InnerGood(s: State, a: Action)
    requires Local(s, a.i) && Enabled(s, a) && a.Inner?
    ensures GoodStep(s, Next(s, a), a.i)
  {
    InnerFacts(s.sem, a.a, s.pcs[a.i]);
  }

  lemma InnerRounds(s: State, a: Action)
    requires Local(s, a.i) && Enabled(s, a) && a.Inner?
    ensures RoundsBounded(Next(s, a))
  {
    InnerFacts(s.sem, a.a, s.pcs[a.i]);
    MeasureStep(s.sem, a.a);
  }

  lemma InnerStep(s: State, a: Action)
    requires Local(s, a.i) && Enabled(s, a) && a.Inner?
    ensures GoodStep(s, Next(s, a), a.i) && RoundsBounded(Next(s, a))
  {
    InnerGood(s, a);
    InnerRounds(s, a);
  }

  /** The semaphore half of a call or of a return. */
  lemma BoundaryFacts(sem: S.State, b: S.Action)
    requires S.Enabled(sem, b) && !S.Internal(b)
    ensures var t := S.Next(sem, b);
            && t == sem.(pcs := sem.pcs[b.i := t.pcs[b.i]])
            && (!b.CallWait? ==> Total(Late, t.pcs) == Total(Late, sem.pcs))
  {
    TotalUpdate(Late, sem.pcs, b.i, S.Next(sem, b).pcs[b.i]);
  }

  lemma EnterStep(s: State, a: Action)
    requires Local(s, a.i) && Enabled(s, a) && (a.CallRecv? || a.ReadTx?)
    ensures GoodStep(s, Next(s, a), a.i) && RoundsBounded(Next(s, a))
  {
    match a
    case CallRecv(i, _) => BoundaryFacts(s.sem, S.CallTry(i));
    case ReadTx(i) => BoundaryFacts(s.sem, S.CallWait(i));
  }

  lemma PushStep(s: State, a: Action)
    requires Local(s, a.i) && Enabled(s, a) && a.PushItem?
    ensures GoodStep(s, Next(s, a), a.i) && RoundsBounded(Next(s, a))
  {
    BoundaryFacts(s.sem, S.CallPost(a.i));
  }

  lemma LeaveStep(s: State, a: Action)
    requires Local(s, a.i) && Enabled(s, a) && a.Leave?
    ensures GoodStep(s, Next(s, a), a.i) && RoundsBounded(Next(s, a))
  {
    BoundaryFacts(s.sem, S.Resume(a.i));
  }

  /** A permit finds its item unless drop_tx has posted wake-ups. */
  lemma TakingFindsItem(s: State, i: nat)
    requires Inv(s) && i < |s.pcs| && s.pcs[i].Taking?
    ensures s.rx > 0 && (s.items == [] ==> s.tx == 0)
  {
    assert PcOk(s, i);
    TotalAtLeast(Holding, s.pcs, i);
  }

  lemma PortStep(s: State, a: Action)
    requires Local(s, a.i) && Enabled(s, a)
    requires a.CallSend? || a.CloneTx? || a.DropTx? || a.CloneRx? || a.DropRx?
    ensures GoodStep(s, Next(s, a), a.i) && RoundsBounded(Next(s, a))
  {
  }

  lemma ItemStep(s: State, a: Action)
    requires Local(s, a.i) && Enabled(s, a)
    requires a.TakeItem? || a.ReportNone? || a.AskWaiters? || a.Drain?
    requires a.TakeItem? && s.items == [] ==> s.tx == 0
    ensures GoodStep(s, Next(s, a), a.i) && RoundsBounded(Next(s, a))
  {
    if a.AskWaiters? && s.sem.cnt < 0 { BoundaryFacts(s.sem, S.CallPost(a.i)); }
  }

  lemma SemStep(s: State, a: Action)
    requires S.Inv(s.sem) && Enabled(s, a)
    ensures S.Inv(Next(s, a).sem)
  {
    match a
    case CallRecv(i, _) => S.InvStep(s.sem, S.CallTry(i));
    case PushItem(i) => S.InvStep(s.sem, S.CallPost(i));
    case Leave(i) => S.InvStep(s.sem, S.Resume(i));
    case ReadTx(i) => S.InvStep(s.sem, S.CallWait(i));
    case AskWaiters(i) => S.InvStep(s.sem, S.CallPost(i));
    case Inner(_, b) => S.InvStep(s.sem, b);
    case _ =>
  }

  lemma InvStep(s: State, a: Action)
    requires Inv(s) && Enabled(s, a)
    ensures Inv(Next(s, a))
  {
    assert PcOk(s, a.i) && S.PcOk(s.sem.wl, a.i, s.sem.pcs[a.i]);
    SemStep(s, a);
    if a.Inner? {
      InnerStep(s, a);
    } else if a.Leave? {
      LeaveStep(s, a);
    } else if a.PushItem? {
      PushStep(s, a);
    } else if a.CallRecv? || a.ReadTx? {
      EnterStep(s, a);
    } else {
      if a.TakeItem? { TakingFindsItem(s, a.i); }
      if a.TakeItem? || a.ReportNone? || a.AskWaiters? || a.Drain? { ItemStep(s, a); } else { PortStep(s, a); }
    }
    GoodStepKeeps(s, Next(s, a), a.i);
  }

  // ---------------------------------------------------------------- every run

  ghost predicate Initial(s: State) { exists threads: nat :: s == Start(threads) }

  ghost predicate Step(s: State, t: State) { exists a: Action :: Enabled(s, a) && t == Next(s, a) }

  ghost predicate Reachable(s: State) { Reached(Initial, Step, s) }

  lemma ReachableInv(s: State)
    requires Reachable(s)
    ensures Inv(s)
  {
    forall s0 | Initial(s0) ensures Inv(s0) {
      var threads: nat :| s0 == Start(threads);
      StartInv(threads);
    }
    forall s1, s2 | Inv(s1) && Step(s1, s2) ensures Inv(s2) {
      var a: Action :| Enabled(s1, a) && s2 == Next(s1, a);
      InvStep(s1, a);
    }
    InvariantHolds(Initial, Step, Inv, s);
  }

  /**
   * While a sender is alive, a receiver that got a permit finds an item; so the branch "a
   * semaphore permit had no queued item" is reached only after the channel is disconnected.
   */
  lemma PermitMeansItem(s: State, i: nat)
    requires Reachable(s) && i < |s.pcs|
    ensures s.tx > 0 && s.pcs[i].Taking? ==> s.items != []
    ensures s.pcs[i].FoundNone? ==> s.tx == 0
  {
    ReachableInv(s);
    assert PcOk(s, i);
    if s.pcs[i].Taking? { TakingFindsItem(s, i); }
  }

  /** Inside the semaphore a thread goes on as the semaphore does, and is told to stop when the senders are gone. */
  lemma InsideCanMove(s: State, i: nat)
    requires Inv(s) && i < |s.pcs| && (InSem(s.pcs[i]) || s.pcs[i].Granted?) && !s.sem.pcs[i].Stuck?
    requires !(s.sem.pcs[i].InWait? && Parked(s.sem.wl, i))
    ensures exists a: Action :: a.i == i && Enabled(s, a)
  {
    assert PcOk(s, i);
    S.CanMove(s.sem, i, s.tx == 0);
    var b := S.NextAction(s.sem, i, s.tx == 0);
    assert Enabled(s, if b.Resume? then Leave(i) else Inner(i, b));
  }

  lemma OutsideCanMove(s: State, i: nat)
    requires Inv(s) && i < |s.pcs| && !InSem(s.pcs[i]) && !s.pcs[i].Granted? && !s.pcs[i].Out? && !s.pcs[i].Panicked?
    ensures exists a: Action :: a.i == i && Enabled(s, a)
  {
    assert PcOk(s, i);
    match s.pcs[i]
    case Pushing(_) => assert Enabled(s, PushItem(i));
    case LoadTx(_) => assert Enabled(s, ReadTx(i));
    case Taking => assert Enabled(s, TakeItem(i));
    case FoundNone => assert Enabled(s, ReportNone(i));
    case Asking => assert Enabled(s, AskWaiters(i));
    case Draining => assert Enabled(s, Drain(i));
  }

  /** A thread in a channel call can always take a step, unless it is parked in the semaphore or panicked. */
  lemma NeverBlocked(s: State, i: nat)
    requires Reachable(s) && i < |s.pcs| && i < |s.sem.pcs| && !s.pcs[i].Out?
    requires !s.pcs[i].Panicked? && !s.sem.pcs[i].Stuck? && !(s.sem.pcs[i].InWait? && Parked(s.sem.wl, i))
    ensures exists a: Action :: a.i == i && Enabled(s, a)
  {
    ReachableInv(s);
    if InSem(s.pcs[i]) || s.pcs[i].Granted? { InsideCanMove(s, i); } else { OutsideCanMove(s, i); }
  }
}
