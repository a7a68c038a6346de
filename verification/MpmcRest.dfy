/**
 * How a disconnected channel of `Mpmc` comes to rest around a receiver that no owed pop reaches: the
 * other threads can all end their calls, one after the other, without waking it.
 */
module MpmcRest {
  import opened Counting
  import opened Traces
  import opened WaitList
  import opened Mpmc
  import opened SemphoreRest
  import S = Semphore

  /** Out of the channel, dead after a panic, or asleep in the semaphore. */
  predicate OutOrAsleep(s: State, i: nat)
    requires i < |s.pcs| == |s.sem.pcs|
  {
    s.pcs[i].Out? || s.pcs[i].Panicked? || s.sem.pcs[i].Stuck? || (s.sem.pcs[i].InWait? && Parked(s.sem.wl, i))
  }

  /** The wake loop is over, every call has come to its end but those that are asleep, and somebody is. */
  ghost predicate Stranded(s: State) {
    && s.tx == 0 && s.closed && Resting(s.sem) && |s.pcs| == |s.sem.pcs|
    && (forall i :: 0 <= i < |s.pcs| ==> OutOrAsleep(s, i))
    && exists i :: 0 <= i < |s.sem.pcs| && s.sem.pcs[i].InWait?
  }

  ghost predicate CanStrand(s: State) { exists t :: Leads(Step, s, t) && Stranded(t) }

  lemma Prepend(s: State, a: Action)
    requires Enabled(s, a) && CanStrand(Next(s, a))
    ensures CanStrand(s)
  {
    var t :| Leads(Step, Next(s, a), t) && Stranded(t);
    LeadsFirst(Step, s, Next(s, a), t);
  }

  // ---------------------------------------------------------------- semaphore steps in the channel

  /** After the wake loop. */
  ghost predicate Closed(s: State) { Inv(s) && s.tx == 0 && s.closed }

  function Act(b: S.Action): Action { if b.Resume? then Leave(b.i) else Inner(b.i, b) }

  predicate Lifts(b: S.Action) { Drives(b) || b.Decrement? }

  lemma CanLift(s: State, b: S.Action)
    requires Closed(s) && S.Enabled(s.sem, b) && Lifts(b)
    ensures Enabled(s, Act(b))
  {
    assert PcOk(s, b.i);
  }

  lemma LiftFacts(s: State, b: S.Action)
    requires s.tx == 0 && Enabled(s, Act(b)) && S.Enabled(s.sem, b) && Lifts(b)
    ensures var t := Next(s, Act(b));
            && t.sem == S.Next(s.sem, b) && t.tx == 0 && t.closed == s.closed && t.rx == s.rx
            && |t.pcs| == |s.pcs| && forall j :: 0 <= j < |s.pcs| && j != b.i ==> t.pcs[j] == s.pcs[j]
  {
  }

  lemma Lift(s: State, b: S.Action)
    requires Closed(s) && S.Enabled(s.sem, b) && Lifts(b)
    ensures Enabled(s, Act(b))
    ensures var t := Next(s, Act(b));
            && Closed(t) && t.sem == S.Next(s.sem, b) && t.rx == s.rx
            && |t.pcs| == |s.pcs| && forall j :: 0 <= j < |s.pcs| && j != b.i ==> t.pcs[j] == s.pcs[j]
  {
    CanLift(s, b);
    LiftFacts(s, b);
    InvStep(s, Act(b));
  }

  // ---------------------------------------------------------------- at the very end: out of the channel too

  /** How many steps a thread outside the semaphore is from the end of its call, items to drain aside. */
  function CallRank(p: Pc): nat {
    if p.Taking? then 2 else if p.FoundNone? || p.LoadTx? || p.Draining? then 1 else 0
  }

  /** The step with which a call that is through with the semaphore goes on. */
  lemma CallMove(s: State, i: nat) returns (a: Action)
    requires Closed(s) && Resting(s.sem) && i < |s.pcs| && !OutOrAsleep(s, i)
    ensures Enabled(s, a)
    ensures var t := Next(s, a);
            && Closed(t) && t.sem == s.sem
            && Total(CallRank, t.pcs) + |t.items| < Total(CallRank, s.pcs) + |s.items|
  {
    assert PcOk(s, i) && Settled(s.sem, i);
    a := match s.pcs[i] { case Taking => TakeItem(i) case FoundNone => ReportNone(i) case LoadTx(_) => ReadTx(i)
                          case _ => Drain(i) };
    assert Enabled(s, a);
    InvStep(s, a);
    TotalUpdate(CallRank, s.pcs, i, Next(s, a).pcs[i]);
  }

  /** With the semaphore at rest the calls that are through with it end. */
  lemma CallsEnd(s: State, p: nat)
    requires Closed(s) && Resting(s.sem) && p < |s.sem.pcs| && s.sem.pcs[p].InWait?
    ensures CanStrand(s)
    decreases Total(CallRank, s.pcs) + |s.items|
  {
    if i :| 0 <= i < |s.pcs| && !OutOrAsleep(s, i) {
      var a := CallMove(s, i);
      CallsEnd(Next(s, a), p);
      Prepend(s, a);
    } else {
      StartIsReached(Just(s), Step, s);
      assert Leads(Step, s, s) && Stranded(s);
    }
  }

  // ---------------------------------------------------------------- the last phase: told to stop, all leave

  ghost predicate AllLeaving(sem: S.State) {
    forall i :: 0 <= i < |sem.pcs| ==> Settled(sem, i) || sem.pcs[i].Sub? || Stopping(sem.pcs[i])
  }

  lemma LeavingKept(sem: S.State, b: S.Action)
    requires S.Inv(sem) && S.Enabled(sem, b) && AllLeaving(sem) && (LeavesOnly(b) || b.Decrement?)
    requires var t := S.Next(sem, b); b.i < |t.pcs| && (Settled(t, b.i) || Stopping(t.pcs[b.i]))
    ensures AllLeaving(S.Next(sem, b))
  {
    var t := S.Next(sem, b);
    S.OwnStep(sem, b);
    forall i | 0 <= i < |t.pcs| ensures Settled(t, i) || t.pcs[i].Sub? || Stopping(t.pcs[i]) {
      if i != b.i && Settled(sem, i) { SettledKept(sem, b, i); }
    }
  }

  /** A receiver that is not counted yet is counted, and told to stop. */
  lemma CountMove(sem: S.State, j: nat)
    requires S.Inv(sem) && j < |sem.pcs| && sem.pcs[j].Sub? && sem.cnt <= 0
    ensures var b := S.Decrement(j);
            && S.Enabled(sem, b)
            && var t := S.Next(sem, b); |t.pcs| == |sem.pcs| && t.cnt <= 0 && t.pcs[j].StopCheck? && Nearer(sem, t, j)
  {
  }

  lemma LastPhase(s: State, k: nat)
    requires Closed(s) && s.sem.cnt <= 0 && LiveAt(s.sem, k) && AllLeaving(s.sem)
    ensures CanStrand(s)
    decreases RankSum(s.sem, |s.sem.pcs|), Total(Stale(s.sem.cnt), s.sem.pcs)
  {
    LiveIsParked(s.sem, k);
    if j :| 0 <= j < |s.sem.pcs| && !Settled(s.sem, j) {
      var b;
      if s.sem.pcs[j].Sub? {
        b := S.Decrement(j);
        CountMove(s.sem, j);
      } else {
        b := DriveMove(s.sem, j);
      }
      LastStep(s, b, k);
      LastPhase(Next(s, Act(b)), k);
      Prepend(s, Act(b));
    } else {
      CallsEnd(s, s.sem.wl.owner[s.sem.wl.queue[k]]);
    }
  }

  lemma LastStep(s: State, b: S.Action, k: nat)
    requires Closed(s) && s.sem.cnt <= 0 && LiveAt(s.sem, k) && AllLeaving(s.sem)
    requires S.Enabled(s.sem, b) && !Settled(s.sem, b.i) && (LeavesOnly(b) || b.Decrement?) && (b.AskStop? ==> b.stop)
    requires var t := S.Next(s.sem, b);
             && |t.pcs| == |s.sem.pcs| && t.cnt <= 0 && Nearer(s.sem, t, b.i) && (Stopping(t.pcs[b.i]) || t.pcs[b.i].Idle?)
    ensures Enabled(s, Act(b))
    ensures var t := Next(s, Act(b));
            && Closed(t) && t.sem.cnt <= 0 && LiveAt(t.sem, k) && AllLeaving(t.sem) && Lower(s.sem, t.sem)
  {
    LiveIsParked(s.sem, k);
    Lift(s, b);
    LiveKept(s.sem, b, k);
    LeavingKept(s.sem, b);
    S.OwnStep(s.sem, b);
    MeasureDrops(s.sem, S.Next(s.sem, b), b.i);
  }

  /** The measure of the whole semaphore is lower. */
  ghost predicate Lower(sem: S.State, t: S.State) {
    || RankSum(t, |t.pcs|) < RankSum(sem, |sem.pcs|)
    || (RankSum(t, |t.pcs|) == RankSum(sem, |sem.pcs|) && Total(Stale(t.cnt), t.pcs) < Total(Stale(sem.cnt), sem.pcs))
  }

  // ---------------------------------------------------------------- before it: the free permits go

  /** Thread `d` has received with a free permit, whether there was an item or not. */
  function Absorbed(s: State, d: nat): State
    requires d < |s.pcs|
  {
    s.(sem := s.sem.(cnt := s.sem.cnt - 1, acquired := s.sem.acquired + 1),
       items := if s.items != [] then s.items[1..] else [], nones := if s.items != [] then s.nones else s.nones + 1)
  }

  function In(s: State, d: nat, q: S.Pc, p: Pc): State
    requires d < |s.pcs| && d < |s.sem.pcs|
  {
    s.(sem := s.sem.(pcs := s.sem.pcs[d := q]), pcs := s.pcs[d := p])
  }

  lemma StepThen(s: State, a: Action, t: State)
    requires Inv(s) && Enabled(s, a) && Next(s, a) == t
    ensures Inv(t) && (CanStrand(t) ==> CanStrand(s))
  {
    InvStep(s, a);
    if CanStrand(t) { Prepend(s, a); }
  }

  /** Thread `d` calls `try_recv` and reads the counter. */
  lemma ReadsCounter(s: State, d: nat, t: State)
    requires Closed(s) && d < |s.pcs| && d < |s.sem.pcs| && s.pcs[d].Out? && s.rx > 0 && s.sem.cnt > 0
    requires t == In(s, d, S.TryCas(s.sem.cnt, false), Trying(false))
    ensures Inv(t) && (CanStrand(t) ==> CanStrand(s))
  {
    assert PcOk(s, d);
    var s1 := In(s, d, S.TryLoad(false), Trying(false));
    StepThen(s, CallRecv(d, false), s1);
    StepThen(s1, Inner(d, S.TryRead(d)), t);
  }

  /** It wins a free permit. */
  lemma WinsPermit(s: State, u: State, d: nat, t: State)
    requires Inv(t) && d < |s.pcs| && d < |s.sem.pcs| && s.sem.cnt > 0
    requires t == In(s, d, S.TryCas(s.sem.cnt, false), Trying(false))
    requires u == In(s.(sem := s.sem.(cnt := s.sem.cnt - 1, acquired := s.sem.acquired + 1)), d, S.Idle, Pc.Taking)
    ensures Inv(u) && (CanStrand(u) ==> CanStrand(t))
  {
    var s1 := In(s.(sem := s.sem.(cnt := s.sem.cnt - 1, acquired := s.sem.acquired + 1)), d, S.Returned(S.Acquired), Granted);
    StepThen(t, Inner(d, S.TrySwap(d)), s1);
    StepThen(s1, Leave(d), u);
  }

  /** It goes on to look for an item, and returns. */
  lemma TakesItem(s: State, t: State, d: nat)
    requires Inv(t) && d < |s.pcs| && d < |s.sem.pcs| && s.pcs[d].Out? && s.sem.pcs[d].Idle?
    requires t == In(s.(sem := s.sem.(cnt := s.sem.cnt - 1, acquired := s.sem.acquired + 1)), d, S.Idle, Pc.Taking)
    ensures Inv(Absorbed(s, d)) && (CanStrand(Absorbed(s, d)) ==> CanStrand(t))
  {
    assert t.sem == Absorbed(s, d).sem;
    if t.items != [] {
      StepThen(t, TakeItem(d), Absorbed(s, d));
    } else {
      var t1 := t.(nones := t.nones + 1, pcs := t.pcs[d := FoundNone]);
      StepThen(t, TakeItem(d), t1);
      StepThen(t1, ReportNone(d), Absorbed(s, d));
    }
  }

  lemma Absorbs(s: State, d: nat)
    requires Closed(s) && d < |s.pcs| && s.pcs[d].Out? && s.rx > 0 && s.sem.cnt > 0
    ensures Closed(Absorbed(s, d)) && (CanStrand(Absorbed(s, d)) ==> CanStrand(s))
  {
    assert PcOk(s, d);
    var t := In(s, d, S.TryCas(s.sem.cnt, false), Trying(false));
    var u := In(s.(sem := s.sem.(cnt := s.sem.cnt - 1, acquired := s.sem.acquired + 1)), d, S.Idle, Pc.Taking);
    ReadsCounter(s, d, t);
    WinsPermit(s, u, d, t);
    TakesItem(s, u, d);
  }

  ghost predicate AllCounted(sem: S.State) { forall i :: 0 <= i < |sem.pcs| ==> Settled(sem, i) || sem.pcs[i].Sub? }

  lemma MiddlePhase(s: State, d: nat, k: nat)
    requires Closed(s) && d < |s.pcs| && s.pcs[d].Out? && s.rx > 0
    requires s.sem.cnt >= 0 && LiveAt(s.sem, k) && AllCounted(s.sem)
    ensures CanStrand(s)
    decreases s.sem.cnt
  {
    if s.sem.cnt == 0 {
      LastPhase(s, k);
    } else {
      Absorbs(s, d);
      var u := Absorbed(s, d);
      assert u.sem.pcs == s.sem.pcs && u.sem.wl == s.sem.wl;
      AbsorbKeeps(s.sem, u.sem, k);
      MiddlePhase(u, d, k);
    }
  }

  lemma AbsorbKeeps(sem: S.State, t: S.State, k: nat)
    requires LiveAt(sem, k) && AllCounted(sem) && t.pcs == sem.pcs && t.wl == sem.wl
    ensures LiveAt(t, k) && AllCounted(t)
  {
    forall i | 0 <= i < |t.pcs| ensures Settled(t, i) || t.pcs[i].Sub? {
      assert Settled(sem, i) || sem.pcs[i].Sub?;
    }
  }

  // ---------------------------------------------------------------- the first phase: calls come to their end

  lemma FirstStep(s: State, d: nat, k: nat, b: S.Action)
    requires Closed(s) && d < |s.pcs| && s.pcs[d].Out? && s.sem.cnt >= 0 && LiveAt(s.sem, k) && k >= PopsOwed(s.sem)
    requires b.i < |s.sem.pcs| && !Settled(s.sem, b.i) && GoodMove(s.sem, b, b.i)
    ensures Enabled(s, Act(b)) && (b.PopOne? ==> k > 0)
    ensures var t := Next(s, Act(b)); var j := if b.PopOne? then k - 1 else k;
            && Closed(t) && d < |t.pcs| && t.pcs[d].Out? && t.sem.cnt >= 0 && LiveAt(t.sem, j) && j >= PopsOwed(t.sem)
            && Lower(s.sem, t.sem)
  {
    LiveIsParked(s.sem, k);
    assert PcOk(s, d);
    S.OwnStep(s.sem, b);
    OwedDrops(s.sem, b);
    Lift(s, b);
    LiveKept(s.sem, b, k);
    MeasureDrops(s.sem, S.Next(s.sem, b), b.i);
  }

  lemma OwedDrops(sem: S.State, b: S.Action)
    requires S.Enabled(sem, b) && S.Next(sem, b).pcs == sem.pcs[b.i := S.Next(sem, b).pcs[b.i]]
    requires !S.Next(sem, b).pcs[b.i].PopNext?
    ensures PopsOwed(S.Next(sem, b)) + (if b.PopOne? then 1 else 0) <= PopsOwed(sem)
  {
    TotalUpdate(Owed, sem.pcs, b.i, S.Next(sem, b).pcs[b.i]);
  }

  /**
   * With the counter not negative and a live waiter beyond the pops that are owed, everybody else can come
   * to an end and leave that waiter parked.
   */
  lemma FirstPhase(s: State, d: nat, k: nat)
    requires Closed(s) && d < |s.pcs| && s.pcs[d].Out? && s.sem.cnt >= 0 && LiveAt(s.sem, k) && k >= PopsOwed(s.sem)
    ensures CanStrand(s)
    decreases RankSum(s.sem, |s.sem.pcs|), Total(Stale(s.sem.cnt), s.sem.pcs)
  {
    if j :| 0 <= j < |s.sem.pcs| && !Settled(s.sem, j) && !s.sem.pcs[j].Sub? {
      var b := DriveMove(s.sem, j);
      FirstStep(s, d, k, b);
      FirstPhase(Next(s, Act(b)), d, if b.PopOne? then k - 1 else k);
      Prepend(s, Act(b));
    } else {
      assert PcOk(s, s.sem.wl.owner[s.sem.wl.queue[k]]);
      MiddlePhase(s, d, k);
    }
  }
}
