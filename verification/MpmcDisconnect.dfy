/**
 * What `drop_tx` of src/sync/mpmc.rs does for parked receivers once the last sender is gone.
 *
 * A receiver pushes its blocker before it is counted. If it is overtaken in between, a wake-up
 * meant for a later, parked receiver is popped by it, and the wake loop may end with that
 * receiver still parked. `DisconnectExact` says exactly when.
 */
module MpmcDisconnect {
  import opened Counting
  import opened Traces
  import opened Handoff
  import opened WaitList
  import opened Mpmc
  import opened SemphoreRest
  import opened MpmcRest
  import S = Semphore

  /** Every parked receiver has at least as many waiters behind it as receivers are uncounted. */
  ghost predicate Guarded(sem: S.State) {
    forall k: nat :: LiveAt(sem, k) ==> |sem.wl.queue| - 1 - k >= Total(Uncounted, sem.pcs)
  }

  /** The pops that are owed, plus those the counter still promises, reach every parked receiver. */
  ghost predicate Promised(s: State) {
    forall k: nat :: LiveAt(s.sem, k) ==>
      k < PopsOwed(s.sem) + (if s.closed then 0 else Max0(-s.sem.cnt))
  }

  /** After the wake loop, the pops that are still owed reach every receiver that is still parked. */
  ghost predicate AllCovered(s: State) {
    s.closed ==> forall k: nat :: LiveAt(s.sem, k) ==> k < PopsOwed(s.sem)
  }

  lemma {:induction false} ShareSplits(ps: seq<S.Pc>)
    ensures Total(S.QueueShare, ps) == Total(Owed, ps) + Total(Uncounted, ps)
  {
    if ps != [] { ShareSplits(ps[1..]); }
  }

  /** The guard is the counter/queue identity read from the other end. */
  lemma GuardIsPromise(sem: S.State, k: nat)
    requires S.Inv(sem) && LiveAt(sem, k)
    ensures |sem.wl.queue| - 1 - k >= Total(Uncounted, sem.pcs) <==> k < PopsOwed(sem) + Max0(-sem.cnt)
  {
    ShareSplits(sem.pcs);
  }

  // ---------------------------------------------------------------- the guard suffices

  lemma PromiseArithmetic(sem: S.State, b: S.Action)
    requires S.Enabled(sem, b) && (sem.pcs[b.i].TryCas? ==> sem.pcs[b.i].c > 0)
    ensures var t := S.Next(sem, b);
            if b.PopOne? then PopsOwed(t) + 1 == PopsOwed(sem) && t.cnt == sem.cnt
            else PopsOwed(t) >= PopsOwed(sem)
                 && PopsOwed(t) + Max0(-t.cnt) >= PopsOwed(sem) + Max0(-sem.cnt)
  {
    var t := S.Next(sem, b);
    assert t.pcs == sem.pcs[b.i := t.pcs[b.i]];
    TotalUpdate(Owed, sem.pcs, b.i, t.pcs[b.i]);
  }

  /** With the senders gone nobody starts to park, and waiters only move forward. */
  lemma NobodyNewParks(sem: S.State, b: S.Action, k: nat)
    requires Ok(sem.wl) && S.Enabled(sem, b) && (b.AskStop? ==> b.stop)
    requires LiveAt(S.Next(sem, b), k)
    ensures LiveAt(sem, if b.PopOne? then k + 1 else k)
  {
    var t := S.Next(sem, b);
    var j := if b.PopOne? then k + 1 else k;
    if b.Push? {
      assert k < |sem.wl.queue|;
    }
    assert t.wl.queue[k] == sem.wl.queue[j];
  }

  lemma PromiseStep(s: State, a: Action)
    requires Inv(s) && s.tx == 0 && Promised(s) && Enabled(s, a)
    ensures Promised(Next(s, a)) && Next(s, a).tx == 0 && Next(s, a).bound == s.bound
  {
    var t := Next(s, a);
    assert S.PcOk(s.sem.wl, a.i, s.sem.pcs[a.i]) && PcOk(s, a.i);
    if t.sem != s.sem {
      var b := match a { case CallRecv(i, _) => S.CallTry(i) case PushItem(i) => S.CallPost(i)
                         case Leave(i) => S.Resume(i) case ReadTx(i) => S.CallWait(i)
                         case AskWaiters(i) => S.CallPost(i) case Inner(_, c) => c
                         case _ => S.Resume(a.i) };
      assert S.Enabled(s.sem, b) && t.sem == S.Next(s.sem, b);
      PromiseArithmetic(s.sem, b);
      forall k: nat | LiveAt(t.sem, k)
        ensures k < PopsOwed(t.sem) + (if t.closed then 0 else Max0(-t.sem.cnt))
      {
        NobodyNewParks(s.sem, b, k);
      }
    }
  }

  ghost predicate Promising(s: State) { Inv(s) && s.tx == 0 && Promised(s) }

  lemma PromiseKept(s: State, t: State)
    requires Promising(s) && Leads(Step, s, t)
    ensures Promising(t)
  {
    forall s1, s2 | Promising(s1) && Step(s1, s2) ensures Promising(s2) {
      var a: Action :| Enabled(s1, a) && s2 == Next(s1, a);
      InvStep(s1, a);
      PromiseStep(s1, a);
    }
    KeptAlong(Step, Promising, s, t);
  }

  // ---------------------------------------------------------------- the guard is needed

  /** A parked receiver with fewer waiters behind it than receivers are uncounted. */
  predicate Exposed(sem: S.State, k: nat) {
    LiveAt(sem, k) && |sem.wl.queue| - 1 - k < Total(Uncounted, sem.pcs)
  }

  predicate WakerAction(b: S.Action) {
    b.CallPost? || b.Resume? || b.PostRead? || b.PostSwap? || b.PopOne? || b.WakerMove? || b.CountBack?
  }

  /** Nothing the dropper does on its own helps an exposed receiver. */
  lemma StaysExposed(sem: S.State, b: S.Action, k: nat)
    requires Ok(sem.wl) && S.Enabled(sem, b) && WakerAction(b) && Exposed(sem, k) && (b.PopOne? ==> k > 0)
    ensures Exposed(S.Next(sem, b), if b.PopOne? then k - 1 else k)
  {
    var t := S.Next(sem, b);
    var j := if b.PopOne? then k - 1 else k;
    assert t.pcs == sem.pcs[b.i := t.pcs[b.i]];
    TotalUpdate(Uncounted, sem.pcs, b.i, t.pcs[b.i]);
    assert t.wl.queue[j] == sem.wl.queue[k];
  }

  predicate OnlyMoved(s: S.State, t: S.State, d: nat) { d < |s.pcs| == |t.pcs| && t.pcs == s.pcs[d := t.pcs[d]] }

  ghost predicate Ready(s: State, d: nat, k: nat) { Inv(s) && s.tx == 0 && d < |s.pcs| && Exposed(s.sem, k) }

  /** One semaphore step of the dropper. */
  lemma Hop(s: State, d: nat, b: S.Action, k: nat)
    requires Ready(s, d, k) && InSem(s.pcs[d])
    requires b.i == d && S.Enabled(s.sem, b) && S.Internal(b) && WakerAction(b) && (b.PopOne? ==> k > 0)
    ensures Enabled(s, Inner(d, b))
    ensures var t := Next(s, Inner(d, b));
            && Ready(t, d, if b.PopOne? then k - 1 else k) && t.sem == S.Next(s.sem, b) && OnlyMoved(s.sem, t.sem, d)
            && t.pcs[d] == AfterInner(s.pcs[d], s.sem, t.sem)
  {
    InvStep(s, Inner(d, b));
    StaysExposed(s.sem, b, k);
    assert S.Next(s.sem, b).pcs == s.sem.pcs[d := S.Next(s.sem, b).pcs[d]];
  }

  /** The loop ends with no promise left for the exposed receiver, and then everybody comes to rest around it. */
  lemma AskingEnds(s: State, d: nat, k: nat)
    requires Ready(s, d, k) && s.pcs[d].Asking? && s.sem.cnt >= 0
    ensures CanStrand(s)
  {
    assert PcOk(s, d);
    GuardIsPromise(s.sem, k);
    var ask := AskWaiters(d);
    InvStep(s, ask);
    FirstPhase(Next(s, ask), d, k);
    Prepend(s, ask);
  }

  lemma AskingPosts(s: State, d: nat, k: nat)
    requires Ready(s, d, k) && s.pcs[d].Asking? && s.sem.cnt < 0
    ensures Enabled(s, AskWaiters(d))
    ensures var t := Next(s, AskWaiters(d));
            && Ready(t, d, k) && t.pcs[d].Waking? && OnlyMoved(s.sem, t.sem, d) && t.sem.wl == s.sem.wl
            && t.sem.pcs[d] == S.PostLoad(S.Posted) && t.sem.cnt < 0
  {
    assert PcOk(s, d);
    InvStep(s, AskWaiters(d));
    StaysExposed(s.sem, S.CallPost(d), k);
  }

  lemma FromAsking(s: State, d: nat, k: nat)
    requires Ready(s, d, k) && s.pcs[d].Asking?
    ensures CanStrand(s)
    decreases |s.sem.wl.queue|, 4
  {
    if s.sem.cnt >= 0 {
      AskingEnds(s, d, k);
    } else {
      AskingPosts(s, d, k);
      FromPosting(Next(s, AskWaiters(d)), d, k);
      Prepend(s, AskWaiters(d));
    }
  }

  lemma FromPosting(s: State, d: nat, k: nat)
    requires Ready(s, d, k) && s.pcs[d].Waking? && s.sem.pcs[d] == S.PostLoad(S.Posted) && s.sem.cnt < 0
    ensures CanStrand(s)
    decreases |s.sem.wl.queue|, 3
  {
    var read := S.PostRead(d);
    Hop(s, d, read, k);
    FromCas(Next(s, Inner(d, read)), d, k);
    Prepend(s, Inner(d, read));
  }

  lemma FromCas(s: State, d: nat, k: nat)
    requires Ready(s, d, k) && s.pcs[d].Waking? && s.sem.pcs[d] == S.PostCas(s.sem.cnt, S.Posted) && s.sem.cnt < 0
    ensures CanStrand(s)
    decreases |s.sem.wl.queue|, 2
  {
    var swap := S.PostSwap(d, false);
    Hop(s, d, swap, k);
    FromPop(Next(s, Inner(d, swap)), d, k);
    Prepend(s, Inner(d, swap));
  }

  /** The dropper's pop takes a waiter in front of the exposed one. */
  lemma PopsInFront(s: State, d: nat, k: nat)
    requires Ready(s, d, k) && s.sem.pcs[d] == S.PopNext(S.Finish(S.Posted))
    ensures S.Enabled(s.sem, S.PopOne(d)) && k > 0
    ensures var t := S.Next(s.sem, S.PopOne(d));
            && t.pcs[d] == S.WakeUp(S.Finish(S.Posted)) && |t.wl.queue| == |s.sem.wl.queue| - 1
            && d < |t.wl.out| && 0 <= t.wl.out[d] < |t.wl.blockers|
  {
    GuardIsPromise(s.sem, k);
    TotalAtLeast(Owed, s.sem.pcs, d);
    S.PopAlways(s.sem, d);
    PopOk(s.sem.wl, d);
  }

  /** From the pop of `wakeup_one` to its next pop, or back to the wake loop. */
  lemma FromPop(s: State, d: nat, k: nat)
    requires Ready(s, d, k) && s.pcs[d].Woke? && s.sem.pcs[d] == S.PopNext(S.Finish(S.Posted))
    ensures CanStrand(s)
    decreases |s.sem.wl.queue|, 1
  {
    PopHop(s, d, k);
    FromWaking(Next(s, Inner(d, S.PopOne(d))), d, k - 1);
    Prepend(s, Inner(d, S.PopOne(d)));
  }

  lemma PopHop(s: State, d: nat, k: nat)
    requires Ready(s, d, k) && s.pcs[d].Woke? && s.sem.pcs[d] == S.PopNext(S.Finish(S.Posted))
    ensures Enabled(s, Inner(d, S.PopOne(d))) && k > 0
    ensures var t := Next(s, Inner(d, S.PopOne(d)));
            && Ready(t, d, k - 1) && OnlyMoved(s.sem, t.sem, d) && t.pcs[d].Woke?
            && t.sem.pcs[d] == S.WakeUp(S.Finish(S.Posted)) && |t.sem.wl.queue| < |s.sem.wl.queue|
            && d < |t.sem.wl.out| && 0 <= t.sem.wl.out[d] < |t.sem.wl.blockers|
  {
    PopsInFront(s, d, k);
    Hop(s, d, S.PopOne(d), k);
  }

  /** The next move of a waking thread, and where it leads. */
  lemma DropperMove(sem: S.State, d: nat) returns (m: Move)
    requires S.Inv(sem) && d < |sem.pcs| && sem.pcs[d] == S.WakeUp(S.Finish(S.Posted))
    ensures S.Enabled(sem, S.WakerMove(d, m))
    ensures d < |sem.wl.out| && 0 <= sem.wl.out[d] < |sem.wl.blockers|
    ensures var t := S.Next(sem, S.WakerMove(d, m));
            && |t.wl.queue| == |sem.wl.queue| && t.posts == sem.posts && t.acquired == sem.acquired
            && (if m.Swap? then t.pcs[d] == S.AddBack(S.Finish(S.Posted)) || t.pcs[d] == S.Returned(S.Posted)
                else && t.pcs[d] == sem.pcs[d] && t.wl.out == sem.wl.out && |t.wl.blockers| == |sem.wl.blockers|
                     && WakeRank(t.wl.blockers[t.wl.out[d]].waker) < WakeRank(sem.wl.blockers[sem.wl.out[d]].waker))
  {
    assert S.PcOk(sem.wl, d, sem.pcs[d]) && ThreadOk(sem.wl, d);
    m := NextWake(sem.wl, d);
  }

  lemma FromWaking(s: State, d: nat, k: nat)
    requires Ready(s, d, k) && s.pcs[d].Woke? && s.sem.pcs[d] == S.WakeUp(S.Finish(S.Posted))
    requires d < |s.sem.wl.out| && 0 <= s.sem.wl.out[d] < |s.sem.wl.blockers|
    ensures CanStrand(s)
    decreases |s.sem.wl.queue|, 7, WakeRank(s.sem.wl.blockers[s.sem.wl.out[d]].waker)
  {
    var m := DropperMove(s.sem, d);
    var b := S.WakerMove(d, m);
    Hop(s, d, b, k);
    var t := Next(s, Inner(d, b));
    if m.Swap? { FromSwap(t, d, k); } else { FromWaking(t, d, k); }
    Prepend(s, Inner(d, b));
  }

  lemma FromSwap(s: State, d: nat, k: nat)
    requires Ready(s, d, k) && s.pcs[d].Woke?
    requires s.sem.pcs[d] == S.AddBack(S.Finish(S.Posted)) || s.sem.pcs[d] == S.Returned(S.Posted)
    ensures CanStrand(s)
    decreases |s.sem.wl.queue|, 6
  {
    if s.sem.pcs[d].Returned? {
      FromReturn(s, d, k);
      return;
    }
    var back := S.CountBack(d);
    Hop(s, d, back, k);
    var t := Next(s, Inner(d, back));
    if s.sem.cnt >= 0 { FromReturn(t, d, k); } else { FromPop(t, d, k); }
    Prepend(s, Inner(d, back));
  }

  lemma Returns(s: State, d: nat, k: nat)
    requires Ready(s, d, k) && s.pcs[d].Woke? && s.sem.pcs[d] == S.Returned(S.Posted)
    ensures Enabled(s, Leave(d))
    ensures var t := Next(s, Leave(d)); Ready(t, d, k) && t.pcs[d].Asking? && OnlyMoved(s.sem, t.sem, d) && t.sem.wl == s.sem.wl
  {
    LeaveFacts(s, d);
    InvStep(s, Leave(d));
    StaysExposed(s.sem, S.Resume(d), k);
  }

  lemma LeaveFacts(s: State, d: nat)
    requires d < |s.pcs| == |s.sem.pcs| && s.pcs[d].Woke? && s.sem.pcs[d] == S.Returned(S.Posted)
    ensures Enabled(s, Leave(d)) && S.Enabled(s.sem, S.Resume(d))
    ensures var t := Next(s, Leave(d)); t.sem == S.Next(s.sem, S.Resume(d)) && t.tx == s.tx && t.pcs == s.pcs[d := Asking]
    ensures var u := S.Next(s.sem, S.Resume(d)); u.wl == s.sem.wl && OnlyMoved(s.sem, u, d)
  {
  }

  lemma FromReturn(s: State, d: nat, k: nat)
    requires Ready(s, d, k) && s.pcs[d].Woke? && s.sem.pcs[d] == S.Returned(S.Posted)
    ensures CanStrand(s)
    decreases |s.sem.wl.queue|, 5
  {
    Returns(s, d, k);
    FromAsking(Next(s, Leave(d)), d, k);
    Prepend(s, Leave(d));
  }

  // ---------------------------------------------------------------- the theorem

  /** Covered means woken: once everything has come to rest, no receiver is parked. */
  lemma CoveredAtRest(s: State)
    requires Inv(s) && s.closed && AllCovered(s)
    ensures !Stranded(s)
  {
    if Resting(s.sem) {
      forall i | 0 <= i < |s.sem.pcs| ensures Owed(s.sem.pcs[i]) == 0 {
        assert Settled(s.sem, i);
      }
      TotalZero(Owed, s.sem.pcs);
      forall i | 0 <= i < |s.sem.pcs| ensures !s.sem.pcs[i].InWait? {
        if s.sem.pcs[i].InWait? { ParkedIsLive(s.sem, i); }
      }
    }
  }

  lemma ParkedIsLive(sem: S.State, i: nat)
    requires S.Inv(sem) && Resting(sem) && i < |sem.pcs| && sem.pcs[i].InWait?
    ensures exists k: nat :: LiveAt(sem, k)
  {
    assert Settled(sem, i) && S.PcOk(sem.wl, i, sem.pcs[i]) && ThreadOk(sem.wl, i);
    forall j | 0 <= j < |sem.wl.cur| ensures sem.wl.out[j] == -1 && (sem.wl.cur[j] == -1 || Parked(sem.wl, j)) {
      assert Settled(sem, j) && S.PcOk(sem.wl, j, sem.pcs[j]) && ThreadOk(sem.wl, j);
    }
    QuietTable(sem.wl);
    var k :| 0 <= k < |sem.wl.queue| && sem.wl.queue[k] == sem.wl.cur[i];
    assert LiveAt(sem, k);
  }

  /** Whatever the threads do from here on, nobody is left parked once the loop is over and all is at rest. */
  ghost predicate NeverStrands(s: State) { forall t :: Leads(Step, s, t) ==> !Stranded(t) }

  lemma DropPromised(s: State, i: nat)
    requires Inv(s) && s.tx == 1 && Enabled(s, DropTx(i)) && Guarded(s.sem)
    ensures Promised(Next(s, DropTx(i)))
  {
    var t := Next(s, DropTx(i));
    forall k: nat | LiveAt(t.sem, k) ensures k < PopsOwed(t.sem) + Max0(-t.sem.cnt) {
      GuardIsPromise(s.sem, k);
    }
  }

  /** With the guard the pops of the wake loop reach every parked receiver, so none is left behind. */
  lemma GuardSuffices(s: State, i: nat)
    requires Inv(s) && s.tx == 1 && Enabled(s, DropTx(i)) && Guarded(s.sem)
    ensures NeverStrands(Next(s, DropTx(i)))
  {
    InvStep(s, DropTx(i));
    DropPromised(s, i);
    var t := Next(s, DropTx(i));
    forall u | Leads(Step, t, u) ensures !Stranded(u) {
      PromiseKept(t, u);
      if u.closed { CoveredAtRest(u); }
    }
  }

  /** Without it the dropper and the others can all come to rest and leave a receiver parked. */
  lemma GuardNeeded(s: State, i: nat)
    requires Inv(s) && s.tx == 1 && Enabled(s, DropTx(i)) && !Guarded(s.sem)
    ensures CanStrand(Next(s, DropTx(i)))
  {
    InvStep(s, DropTx(i));
    var k: nat :| LiveAt(s.sem, k) && |s.sem.wl.queue| - 1 - k < Total(Uncounted, s.sem.pcs);
    FromAsking(Next(s, DropTx(i)), i, k);
  }

  /**
   * When the last sender goes, no receiver is ever left parked - whatever the other threads do - if and
   * only if each parked receiver has at least as many waiters queued behind it as there are receivers that
   * pushed a blocker and are not counted yet.
   */
  lemma DisconnectExact(s: State, i: nat)
    requires Reachable(s) && s.tx == 1 && Enabled(s, DropTx(i))
    ensures Guarded(s.sem) <==> NeverStrands(Next(s, DropTx(i)))
  {
    ReachableInv(s);
    if Guarded(s.sem) {
      GuardSuffices(s, i);
    } else {
      GuardNeeded(s, i);
    }
  }

  /**
   * drop_tx's wake loop ends: it goes round at most as often as receivers were counted as
   * waiting, or past their `try_recv` check and not yet counted, when the last sender went.
   */
  lemma WakeLoopEnds(s: State, i: nat, t: State)
    requires Reachable(s) && s.tx == 1 && Enabled(s, DropTx(i)) && Leads(Step, Next(s, DropTx(i)), t)
    ensures t.rounds <= Measure(s)
  {
    ReachableInv(s);
    InvStep(s, DropTx(i));
    var bounded := (u: State) => Inv(u) && u.tx == 0 && u.bound == Measure(s);
    forall s1, s2 | bounded(s1) && Step(s1, s2) ensures bounded(s2) {
      var a: Action :| Enabled(s1, a) && s2 == Next(s1, a);
      InvStep(s1, a);
    }
    KeptAlong(Step, bounded, Next(s, DropTx(i)), t);
  }
}
