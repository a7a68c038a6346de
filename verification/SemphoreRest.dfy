/**
 * How the threads of a `Semphore` come to rest. A thread that is not settled has a step that brings it
 * nearer to its end, and the parked waiters it does not pop are not touched by it.
 */
module SemphoreRest {
  import opened Counting
  import opened Handoff
  import opened WaitList
  import S = Semphore

  /** The k-th waiter in the queue belongs to a thread that is parked and has not been told to stop. */
  predicate LiveAt(sem: S.State, k: nat) {
    && k < |sem.wl.queue| && sem.wl.queue[k] < |sem.wl.owner| && sem.wl.queue[k] < |sem.wl.blockers|
    && var b := sem.wl.queue[k];
       var i := sem.wl.owner[b];
    && i < |sem.pcs| && i < |sem.wl.cur|
    && sem.pcs[i] == S.InWait(false) && sem.wl.cur[i] == b && sem.wl.blockers[b].waiter.Waiting?
  }

  /** A thread that owes the queue a pop; a waiter that is queued (or was) but not counted. */
  function Owed(p: S.Pc): nat { if p.PopNext? then 1 else 0 }
  function Uncounted(p: S.Pc): nat { if p.Sub? then 1 else 0 }

  function PopsOwed(sem: S.State): nat { Total(Owed, sem.pcs) }

  /** Out of every call, dead after a panic, or parked. */
  predicate Settled(sem: S.State, i: nat)
    requires i < |sem.pcs|
  {
    sem.pcs[i].Idle? || sem.pcs[i].Stuck? || (sem.pcs[i].InWait? && Parked(sem.wl, i))
  }

  /** Nobody can take another step without a new call, a timeout or a cancel. */
  ghost predicate Resting(sem: S.State) { forall i :: 0 <= i < |sem.pcs| ==> Settled(sem, i) }

  /** Leaving because it was told to stop, or just leaving. */
  predicate Stopping(p: S.Pc) { p.StopCheck? || (p.InWait? && p.stopping) || p.Returned? }

  // ---------------------------------------------------------------- how far from its end a thread is

  function StageRank(w: WaiterPc): nat {
    match w
    case Waiting => 10
    case Checking => 9
    case Releasing => 8
    case Rechecking => 7
    case Taking => 6
    case Gone => 5
  }

  function WakeRank(w: WakerPc): nat { if w.Popped? then 3 else if w.Marked? then 2 else if w.Woken? then 1 else 0 }

  function Rank(wl: Table, i: nat, p: S.Pc): nat {
    match p
    case Idle => 0
    case Stuck => 0
    case Returned(_) => 1
    case PostLoad(_) => 4
    case PostCas(_, _) => 4
    case InWait(_) => StageRank(Stage(wl, i))
    case StopCheck => 12
    case Sub => 13
    case Register => 14
    case TryCas(_, _) => 15
    case TryLoad(_) => 16
    case AddBack(_) => 20
    case WakeUp(_) => 22 + WakeRank(WakeStage(wl, i))
    case PopNext(_) => 30
  }

  /** How many steps a compare-exchange needs before it can win, if nobody else moves the counter. */
  function Stale(cnt: int): S.Pc -> nat {
    (p: S.Pc) =>
      if p.TryCas? then (if p.c == cnt then 0 else 1)
      else if p.PostLoad? then 1
      else if p.PostCas? then (if p.c == cnt then 0 else 2)
      else 0
  }

  function RankSum(sem: S.State, n: nat): nat
    requires n <= |sem.pcs|
  {
    if n == 0 then 0 else RankSum(sem, n - 1) + Rank(sem.wl, n - 1, sem.pcs[n - 1])
  }

  lemma {:induction false} RankSumMoves(sem: S.State, t: S.State, j: nat, n: nat)
    requires n <= |sem.pcs| == |t.pcs|
    requires forall i :: 0 <= i < n && i != j ==> Rank(t.wl, i, t.pcs[i]) == Rank(sem.wl, i, sem.pcs[i])
    ensures RankSum(t, n) == RankSum(sem, n) + (if j < n then Rank(t.wl, j, t.pcs[j]) - Rank(sem.wl, j, sem.pcs[j]) else 0)
  {
    if n > 0 { RankSumMoves(sem, t, j, n - 1); }
  }

  /** Thread `j` is nearer to its end in `t`. */
  predicate Nearer(sem: S.State, t: S.State, j: nat)
    requires j < |sem.pcs| == |t.pcs|
  {
    || Rank(t.wl, j, t.pcs[j]) < Rank(sem.wl, j, sem.pcs[j])
    || (&& Rank(t.wl, j, t.pcs[j]) == Rank(sem.wl, j, sem.pcs[j]) && t.cnt == sem.cnt
        && Stale(t.cnt)(t.pcs[j]) < Stale(sem.cnt)(sem.pcs[j]))
  }

  /** The measure that a step of thread `j` lowers. */
  lemma MeasureDrops(sem: S.State, t: S.State, j: nat)
    requires j < |sem.pcs| == |t.pcs| && t.pcs == sem.pcs[j := t.pcs[j]] && Nearer(sem, t, j) && OthersKept(sem.wl, t.wl, j)
    ensures || RankSum(t, |t.pcs|) < RankSum(sem, |sem.pcs|)
            || (RankSum(t, |t.pcs|) == RankSum(sem, |sem.pcs|) && Total(Stale(t.cnt), t.pcs) < Total(Stale(sem.cnt), sem.pcs))
  {
    RankSumMoves(sem, t, j, |sem.pcs|);
    TotalUpdate(Stale(sem.cnt), sem.pcs, j, t.pcs[j]);
  }

  // ---------------------------------------------------------------- the next step of a thread

  /** Steps that drive a thread to its end: no new call, no count of a new waiter, and every stop is heeded. */
  predicate Drives(b: S.Action) {
    !b.CallPost? && !b.CallTry? && !b.CallWait? && !b.Decrement? && (b.AskStop? ==> b.stop)
  }

  /** Steps in which a thread only ends its own wait. */
  predicate LeavesOnly(b: S.Action) { b.AskStop? || b.WaiterMove? || b.Resume? }

  ghost predicate GoodMove(sem: S.State, b: S.Action, j: nat) {
    S.Enabled(sem, b) && b.i == j && Drives(b) &&
    var t := S.Next(sem, b);
    && j < |sem.pcs| == |t.pcs| && Nearer(sem, t, j) && !t.pcs[j].PopNext?
    && (sem.cnt >= 0 ==> t.cnt >= 0)
    && (Stopping(sem.pcs[j]) ==> LeavesOnly(b) && t.cnt == sem.cnt && (Stopping(t.pcs[j]) || t.pcs[j].Idle?))
  }

  lemma TryMove(sem: S.State, j: nat) returns (b: S.Action)
    requires S.Linked(sem) && j < |sem.pcs| && (sem.pcs[j].TryLoad? || sem.pcs[j].TryCas? || sem.pcs[j].Register?) && sem.cnt >= 0
    ensures GoodMove(sem, b, j)
  {
    assert S.PcOk(sem.wl, j, sem.pcs[j]) && ThreadOk(sem.wl, j);
    b := if sem.pcs[j].TryLoad? then S.TryRead(j) else if sem.pcs[j].TryCas? then S.TrySwap(j) else S.Push(j);
  }

  lemma PostMove(sem: S.State, j: nat) returns (b: S.Action)
    requires j < |sem.pcs| && (sem.pcs[j].PostLoad? || sem.pcs[j].PostCas? || sem.pcs[j].Returned?)
    requires (sem.cnt >= 0 || sem.pcs[j].Returned?)
    ensures GoodMove(sem, b, j)
  {
    b := if sem.pcs[j].PostLoad? then S.PostRead(j) else if sem.pcs[j].PostCas? then S.PostSwap(j, false) else S.Resume(j);
  }

  lemma StopMove(sem: S.State, j: nat) returns (b: S.Action)
    requires S.Linked(sem) && j < |sem.pcs| && sem.pcs[j].StopCheck?
    ensures GoodMove(sem, b, j)
  {
    assert S.PcOk(sem.wl, j, sem.pcs[j]) && ThreadOk(sem.wl, j);
    b := S.AskStop(j, true);
    WaiterOk(sem.wl, j, SkipPark);
  }

  lemma WaiterNearer(t: Table, j: nat)
    requires Ok(t) && j < |t.cur| && !Stage(t, j).Gone? && !Parked(t, j)
    ensures var m := NextMove(t, j, false);
            && CanWaiter(t, j, m) && StageRank(Stage(Waiter(t, j, m), j)) < StageRank(Stage(t, j))
            && (WaiterClaims(t, j, m) ==> Stage(Waiter(t, j, m), j).Gone?)
  {
    WaitersReady(t, j, false);
    assert ThreadOk(t, j);
    WaiterOk(t, j, NextMove(t, j, false));
  }

  lemma WaitMove(sem: S.State, j: nat) returns (b: S.Action)
    requires S.Linked(sem) && j < |sem.pcs| && sem.pcs[j].InWait? && !Parked(sem.wl, j)
    ensures GoodMove(sem, b, j)
  {
    assert S.PcOk(sem.wl, j, sem.pcs[j]);
    WaiterNearer(sem.wl, j);
    b := S.WaiterMove(j, NextMove(sem.wl, j, false));
  }

  lemma WakerNearer(t: Table, j: nat)
    requires Ok(t) && j < |t.cur| && t.out[j] != -1
    ensures var m := NextWake(t, j);
            CanWaker(t, j, m) && (!m.Swap? ==> WakeRank(WakeStage(Waker(t, j, m), j)) < WakeRank(WakeStage(t, j)))
  {
    WaitersReady(t, j, false);
    assert ThreadOk(t, j);
  }

  lemma WakeMove(sem: S.State, j: nat) returns (b: S.Action)
    requires S.Linked(sem) && j < |sem.pcs| && sem.pcs[j].WakeUp?
    ensures GoodMove(sem, b, j)
  {
    assert S.PcOk(sem.wl, j, sem.pcs[j]);
    WakerNearer(sem.wl, j);
    b := S.WakerMove(j, NextWake(sem.wl, j));
  }

  lemma PopMove(sem: S.State, j: nat) returns (b: S.Action)
    requires S.Inv(sem) && j < |sem.pcs| && (sem.pcs[j].PopNext? || (sem.pcs[j].AddBack? && sem.cnt >= 0))
    ensures GoodMove(sem, b, j)
  {
    assert S.PcOk(sem.wl, j, sem.pcs[j]) && ThreadOk(sem.wl, j);
    if sem.pcs[j].PopNext? {
      S.PopAlways(sem, j);
      b := S.PopOne(j);
      PopOk(sem.wl, j);
    } else {
      b := S.CountBack(j);
    }
  }

  /** A thread that is neither settled nor about to be counted has a step that brings it nearer to its end. */
  lemma DriveMove(sem: S.State, j: nat) returns (b: S.Action)
    requires S.Inv(sem) && j < |sem.pcs| && !Settled(sem, j) && !sem.pcs[j].Sub? && (sem.cnt >= 0 || Stopping(sem.pcs[j]))
    ensures GoodMove(sem, b, j)
  {
    match sem.pcs[j]
    case StopCheck => b := StopMove(sem, j);
    case InWait(_) => b := WaitMove(sem, j);
    case WakeUp(_) => b := WakeMove(sem, j);
    case PopNext(_) => b := PopMove(sem, j);
    case AddBack(_) => b := PopMove(sem, j);
    case TryLoad(_) => b := TryMove(sem, j);
    case TryCas(_, _) => b := TryMove(sem, j);
    case Register => b := TryMove(sem, j);
    case _ => b := PostMove(sem, j);
  }

  // ---------------------------------------------------------------- what it leaves alone

  /** A live waiter is parked, so a thread that moves is another one. */
  lemma LiveIsParked(sem: S.State, k: nat)
    requires S.Linked(sem) && LiveAt(sem, k)
    ensures Parked(sem.wl, sem.wl.owner[sem.wl.queue[k]]) && sem.wl.blockers[sem.wl.queue[k]].waker.Queued?
  {
    assert BlockerOk(sem.wl, sem.wl.queue[k]);
  }

  /** A live waiter stays live under the steps of others; a pop moves it up. */
  lemma LiveKept(sem: S.State, b: S.Action, k: nat)
    requires S.Linked(sem) && S.Enabled(sem, b) && LiveAt(sem, k) && b.i != sem.wl.owner[sem.wl.queue[k]] && (b.PopOne? ==> k > 0)
    ensures LiveAt(S.Next(sem, b), if b.PopOne? then k - 1 else k)
  {
    var t, j := S.Next(sem, b), if b.PopOne? then k - 1 else k;
    LiveIsParked(sem, k);
    assert ThreadOk(sem.wl, b.i) && ThreadOk(sem.wl, sem.wl.owner[sem.wl.queue[k]]);
    assert t.wl.queue[j] == sem.wl.queue[k];
  }

  /** Parked threads stay parked while others leave their own waits. */
  lemma SettledKept(sem: S.State, b: S.Action, i: nat)
    requires S.Linked(sem) && S.Enabled(sem, b) && i < |sem.pcs| && b.i != i && Settled(sem, i)
    requires LeavesOnly(b) || b.Decrement?
    ensures i < |S.Next(sem, b).pcs| && Settled(S.Next(sem, b), i)
  {
    assert ThreadOk(sem.wl, b.i) && ThreadOk(sem.wl, i);
  }
}
