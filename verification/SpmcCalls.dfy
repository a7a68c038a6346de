/**
 * The calls of `SpmcQueue` as their callers see them. A run of the machine is watched from outside: what each
 * thread asked for is written down from its call, and what it took from the memory cells that it read.
 */
module SpmcCalls {
  import opened Traces
  import opened SpmcQueue

  /**
   * `arg` is the argument of the owner's last push, `sent` the arguments in the order of their commits, `pushes`
   * how many pushes began; `kinds` has each thread's last call of another kind, `took` what that call has read.
   */
  datatype Ledger = Ledger(arg: int, sent: seq<int>, pushes: nat, kinds: seq<Kind>, took: seq<seq<int>>)

  datatype Watched = Watched(s: State, h: Ledger)

  function Begin(threads: nat): Watched {
    Watched(Start(threads), Ledger(0, [], 0, seq(threads, _ => Pop), seq(threads, _ => [])))
  }

  /** What the step `a` of state `s` shows of its thread's call. */
  function Record(s: State, a: Action, h: Ledger): Ledger
    requires Enabled(s, a) && |h.kinds| == |h.took| == |s.pcs|
  {
    match a
    case CallPush(_, v) => h.(arg := v, pushes := h.pushes + 1)
    case Commit(_) => h.(sent := h.sent + [h.arg])
    case Call(i, kind) => h.(kinds := h.kinds[i := kind], took := h.took[i := []])
    case ReadSlot(i) => h.(took := h.took[i := h.took[i] + [s.q.mem[32 * s.pcs[i].b + s.pcs[i].id + |s.pcs[i].acc|].v]])
    case _ => h
  }

  ghost predicate First(w: Watched) { exists threads: nat :: w == Begin(threads) }

  ghost predicate Moves(w: Watched, x: Watched) {
    && |w.h.kinds| == |w.h.took| == |w.s.pcs|
    && exists a: Action :: Enabled(w.s, a) && x == Watched(Next(w.s, a), Record(w.s, a, w.h))
  }

  ghost predicate Seen(w: Watched) { Reached(First, Moves, w) }

  // ---------------------------------------------------------------- what is kept

  predicate Taking(p: Pc) { InTake(p) || HoldsLock(p) || HasClaim(p) || p.Freeing? }

  /** What a thread took is a stretch of the committed values whose indices it claimed. */
  ghost predicate TookRun(q: Queue, i: nat, took: seq<int>) {
    took != [] && exists lo: nat :: IsRunAt(q, i, took, lo)
  }

  predicate IsRunAt(q: Queue, i: nat, took: seq<int>, lo: nat) {
    && lo + |took| <= |q.log| && lo + |took| <= |q.winner| && took == q.log[lo..lo + |took|]
    && forall n :: lo <= n < lo + |took| ==> q.winner[n] == i
  }

  /** The call that a thread is in is the one it asked for, and it has taken what it has read of its claim. */
  ghost predicate CallOk(q: Queue, i: nat, p: Pc, kind: Kind, took: seq<int>) {
    && (p.LoadHead? || HasHead(p) || p.Locked? || p.Claimed? ==> p.kind == kind)
    && (InTake(p) || HoldsLock(p) ==> took == [])
    && (HasClaim(p) ==> 32 * p.b + p.id <= Unread(p) <= |q.log| && took == q.log[32 * p.b + p.id..Unread(p)])
    && (HasClaim(p) && !kind.Bulk? ==> p.to == p.id + 1)
    && ((p.ReadNext? || p.SetHead?) && !kind.Bulk? ==> p.id == 31 && (p.SetHead? ==> p.to == 32))
    && (p.Freeing? ==> TookRun(q, i, took) && (!kind.Bulk? ==> |took| == 1))
  }

  ghost predicate PushOk(q: Queue, p: Pc, h: Ledger) {
    && h.sent == q.log && h.pushes == |h.sent| + (if Pushing(p) then 1 else 0)
    && (Pushing(p) ==> p.v == h.arg)
  }

  ghost predicate Kept(w: Watched) {
    && Reachable(w.s) && |w.h.kinds| == |w.h.took| == |w.s.pcs|
    && (forall i :: 0 <= i < |w.s.pcs| ==> CallOk(w.s.q, i, w.s.pcs[i], w.h.kinds[i], w.h.took[i]))
    && PushOk(w.s.q, if |w.s.pcs| > 0 then w.s.pcs[0] else Idle, w.h)
  }

  lemma BeginKept(threads: nat)
    ensures Kept(Begin(threads))
  {
    StartIsReached(Initial, Step, Start(threads));
  }

  /** Committed values and claims stay. */
  lemma TookStays(q: Queue, r: Queue, i: nat, took: seq<int>)
    requires TookRun(q, i, took) && q.log <= r.log && q.winner <= r.winner
    ensures TookRun(r, i, took)
  {
    var lo: nat :| IsRunAt(q, i, took, lo);
    assert forall n :: 0 <= n < |q.winner| ==> r.winner[n] == q.winner[n];
    assert r.log[lo..lo + |took|] == q.log[lo..lo + |took|];
    assert IsRunAt(r, i, took, lo);
  }

  lemma OtherCall(q: Queue, r: Queue, i: nat, p: Pc, kind: Kind, took: seq<int>)
    requires CallOk(q, i, p, kind, took) && q.log <= r.log && q.winner <= r.winner
    ensures CallOk(r, i, p, kind, took)
  {
    if p.Freeing? { TookStays(q, r, i, took); }
    if HasClaim(p) { assert r.log[32 * p.b + p.id..Unread(p)] == q.log[32 * p.b + p.id..Unread(p)]; }
  }

  /** The steps before a claim is made. */
  lemma SeekStep(q: Queue, p: Pc, a: Action, kind: Kind, took: seq<int>)
    requires PcOk(q, a.i, p) && Can(q, p, a) && CallOk(q, a.i, p, kind, took) && |q.winner| <= |q.log| == q.push
    requires a.GetHead? || a.GetIndex? || a.GetBlock? || a.CheckLocked? || a.Restore? || a.GetNext?
             || (a.TryCas? && !CasWins(q, p, a))
    ensures CallOk(Effect(q, p, a), a.i, Goes(q, p, a), kind, took)
  {
  }

  lemma ClaimStep(q: Queue, p: Pc, a: Action, kind: Kind, took: seq<int>)
    requires PcOk(q, a.i, p) && Can(q, p, a) && CallOk(q, a.i, p, kind, took)
    requires |q.winner| <= |q.log| == q.push && |q.winner| == Index(q.head) && q.head.id < 32
    requires (a.TryCas? && CasWins(q, p, a)) || a.StoreHead? || a.CheckReady?
    requires ShapeOk(Effect(q, p, a)) && PcOk(Effect(q, p, a), a.i, Goes(q, p, a))
    ensures CallOk(Effect(q, p, a), a.i, Goes(q, p, a), kind, took)
  {
    if a.TryCas? { CasClaim(q, p, a, kind, took); }
  }

  lemma CasClaim(q: Queue, p: Pc, a: Action, kind: Kind, took: seq<int>)
    requires LoadingOk(q, a.i, p) && Can(q, p, a) && a.TryCas? && CasWins(q, p, a) && p.kind == kind && took == []
    requires PcOk(Effect(q, p, a), a.i, Goes(q, p, a)) && |Effect(q, p, a).log| == q.push
    ensures CallOk(Effect(q, p, a), a.i, Goes(q, p, a), kind, took)
  {
  }

  lemma ReadOne(q: Queue, p: Pc, a: Action, kind: Kind, took: seq<int>)
    requires PcOk(q, a.i, p) && Can(q, p, a) && CallOk(q, a.i, p, kind, took) && ShapeOk(q) && MemOk(q.mem, q.log) && a.ReadSlot?
    ensures CallOk(Effect(q, p, a), a.i, Goes(q, p, a), kind, took + [q.mem[32 * p.b + p.id + |p.acc|].v])
  {
    ReadIsCommitted(q, p, a);
  }

  lemma CountStep(q: Queue, p: Pc, a: Action, kind: Kind, took: seq<int>)
    requires PcOk(q, a.i, p) && Can(q, p, a) && CallOk(q, a.i, p, kind, took) && ShapeOk(q) && (a.MarkRead? || a.FreeBlock?)
    ensures CallOk(Effect(q, p, a), a.i, Goes(q, p, a), kind, took)
    ensures a.MarkRead? ==> TookRun(q, a.i, took) && (!kind.Bulk? ==> |took| == 1)
  {
    if a.MarkRead? {
      assert IsRunAt(q, a.i, took, 32 * p.b + p.id);
      TookStays(q, Effect(q, p, a), a.i, took);
    }
  }

  lemma CallStep(q: Queue, p: Pc, a: Action)
    requires Can(q, p, a) && a.Call?
    ensures CallOk(q, a.i, Goes(q, p, a), a.kind, [])
  {
  }

  lemma PushMove(q: Queue, p: Pc, a: Action, kind: Kind, took: seq<int>)
    requires Can(q, p, a) && (a.CallPush? || a.Write? || a.Alloc? || a.Link? || a.MoveTail? || a.Commit?)
    ensures CallOk(Effect(q, p, a), a.i, Goes(q, p, a), kind, took)
  {
  }

  /** What the thread that moves has taken after its step. */
  function TookAfter(q: Queue, p: Pc, a: Action, took: seq<int>): seq<int>
    requires Can(q, p, a)
  {
    if a.Call? then [] else if a.ReadSlot? then took + [q.mem[32 * p.b + p.id + |p.acc|].v] else took
  }

  predicate ByClaim(q: Queue, p: Pc, a: Action) { (a.TryCas? && CasWins(q, p, a)) || a.StoreHead? || a.CheckReady? }

  predicate ByOwner(a: Action) { a.CallPush? || a.Write? || a.Alloc? || a.Link? || a.MoveTail? || a.Commit? }

  /** The thread that moves stays within its call. */
  lemma OwnCall(q: Queue, p: Pc, a: Action, kind: Kind, took: seq<int>)
    requires ShapeOk(q) && MemOk(q.mem, q.log) && PcOk(q, a.i, p) && Can(q, p, a) && CallOk(q, a.i, p, kind, took)
    requires ShapeOk(Effect(q, p, a)) && PcOk(Effect(q, p, a), a.i, Goes(q, p, a))
    ensures CallOk(Effect(q, p, a), a.i, Goes(q, p, a), if a.Call? then a.kind else kind, TookAfter(q, p, a, took))
  {
    if a.Call? { CallStep(q, p, a); }
    else if a.ReadSlot? { ReadOne(q, p, a, kind, took); }
    else if a.MarkRead? || a.FreeBlock? { CountStep(q, p, a, kind, took); }
    else if ByClaim(q, p, a) { ClaimStep(q, p, a, kind, took); }
    else if ByOwner(a) { PushMove(q, p, a, kind, took); }
    else { SeekStep(q, p, a, kind, took); }
  }

  lemma CallKept(s: State, a: Action, h: Ledger, i: nat)
    requires Enabled(s, a) && |h.kinds| == |h.took| == |s.pcs| && i < |s.pcs|
    requires CallOk(s.q, i, s.pcs[i], h.kinds[i], h.took[i])
    requires s.q.log <= Next(s, a).q.log && s.q.winner <= Next(s, a).q.winner
    requires ShapeOk(s.q) && MemOk(s.q.mem, s.q.log) && PcOk(s.q, a.i, s.pcs[a.i])
    requires ShapeOk(Next(s, a).q) && PcOk(Next(s, a).q, a.i, Goes(s.q, s.pcs[a.i], a))
    ensures var t, g := Next(s, a), Record(s, a, h);
            |t.pcs| == |g.kinds| == |g.took| == |s.pcs| && CallOk(t.q, i, t.pcs[i], g.kinds[i], g.took[i])
  {
    RecordIs(s, a, h, i);
    if i == a.i {
      OwnCall(s.q, s.pcs[i], a, h.kinds[i], h.took[i]);
    } else {
      OtherCall(s.q, Next(s, a).q, i, s.pcs[i], h.kinds[i], h.took[i]);
    }
  }

  lemma RecordIs(s: State, a: Action, h: Ledger, i: nat)
    requires Enabled(s, a) && |h.kinds| == |h.took| == |s.pcs| && i < |s.pcs|
    ensures var t, g := Next(s, a), Record(s, a, h);
            && |t.pcs| == |g.kinds| == |g.took| == |s.pcs| && t.q == Effect(s.q, s.pcs[a.i], a)
            && t.pcs[i] == (if i == a.i then Goes(s.q, s.pcs[i], a) else s.pcs[i])
            && g.kinds[i] == (if i == a.i && a.Call? then a.kind else h.kinds[i])
            && g.took[i] == (if i == a.i then TookAfter(s.q, s.pcs[i], a, h.took[i]) else h.took[i])
  {
  }

  lemma PushKept(q: Queue, p: Pc, a: Action, s: State, h: Ledger)
    requires Enabled(s, a) && s.q == q && p == s.pcs[0] && |h.kinds| == |h.took| == |s.pcs| && PushOk(q, p, h)
    requires Pushing(s.pcs[a.i]) ==> a.i == 0
    ensures PushOk(Next(s, a).q, Next(s, a).pcs[0], Record(s, a, h))
  {
  }

  /** What a step of the machine keeps, as far as the calls depend on it. */
  lemma StepFacts(s: State, a: Action)
    requires Reachable(s) && Enabled(s, a)
    ensures Reachable(Next(s, a))
    ensures s.q.log <= Next(s, a).q.log && s.q.winner <= Next(s, a).q.winner
    ensures ShapeOk(s.q) && MemOk(s.q.mem, s.q.log) && PcOk(s.q, a.i, s.pcs[a.i])
    ensures ShapeOk(Next(s, a).q) && PcOk(Next(s, a).q, a.i, Goes(s.q, s.pcs[a.i], a))
    ensures Pushing(s.pcs[a.i]) ==> a.i == 0
  {
    ReachableInv(s);
    assert PcOk(s.q, a.i, s.pcs[a.i]);
    OneStep(s.q, s.pcs[a.i], a);
    OneMore(Initial, Step, s, Next(s, a));
  }

  lemma KeptStep(w: Watched, x: Watched)
    requires Kept(w) && Moves(w, x)
    ensures Kept(x)
  {
    var a: Action :| Enabled(w.s, a) && x == Watched(Next(w.s, a), Record(w.s, a, w.h));
    StepFacts(w.s, a);
    PushKept(w.s.q, w.s.pcs[0], a, w.s, w.h);
    forall i | 0 <= i < |x.s.pcs| ensures CallOk(x.s.q, i, x.s.pcs[i], x.h.kinds[i], x.h.took[i]) {
      CallKept(w.s, a, w.h, i);
    }
  }

  lemma SeenKept(w: Watched)
    requires Seen(w)
    ensures Kept(w)
  {
    forall w0 | First(w0) ensures Kept(w0) {
      var threads: nat :| w0 == Begin(threads);
      BeginKept(threads);
    }
    forall w1, w2 | Kept(w1) && Moves(w1, w2) ensures Kept(w2) {
      KeptStep(w1, w2);
    }
    InvariantHolds(First, Moves, Kept, w);
  }

  // ---------------------------------------------------------------- what the callers see

  /** What is in the queue are the arguments of the pushes, in the order of their commits; every push that is over is there. */
  lemma PushesOnce(w: Watched)
    requires Seen(w)
    ensures w.s.q.log == w.h.sent
    ensures w.h.pushes == |w.h.sent| + (if |w.s.pcs| > 0 && Pushing(w.s.pcs[0]) then 1 else 0)
  {
    SeenKept(w);
  }

  lemma EndStep(q: Queue, p: Pc, a: Action, kind: Kind, took: seq<int>)
    requires ShapeOk(q) && PcOk(q, a.i, p) && Can(q, p, a) && CallOk(q, a.i, p, kind, took) && Taking(p)
    ensures var r := Goes(q, p, a);
            !Taking(r) ==>
              && r.Idle?
              && (if took == [] then a.Restore? || (a.TryCas? && LooksEmpty(p.hd, p.push, p.tb))
                  else TookRun(q, a.i, took) && (!kind.Bulk? ==> |took| == 1))
  {
    if HasClaim(p) || p.Freeing? {
      if a.MarkRead? || a.FreeBlock? { CountStep(q, p, a, kind, took); }
    } else {
      SeekEnds(q, p, a, took);
    }
  }

  lemma SeekEnds(q: Queue, p: Pc, a: Action, took: seq<int>)
    requires PcOk(q, a.i, p) && Can(q, p, a) && (InTake(p) || HoldsLock(p)) && took == []
    ensures var r := Goes(q, p, a); !Taking(r) ==> r.Idle? && (a.Restore? || (a.TryCas? && LooksEmpty(p.hd, p.push, p.tb)))
  {
  }

  lemma StartStep(q: Queue, p: Pc, a: Action)
    requires Can(q, p, a) && !Taking(p) && !p.Skipping?
    ensures var r := Goes(q, p, a);
            (p.Idle? ==> if a.Call? then Taking(r) else Pushing(r)) && (Pushing(p) && !Pushing(r) ==> r.Idle? && a.Commit?)
  {
  }

  /**
   * How the call of a thread at `p` begins and ends. One that takes has read nothing, and answers that there is
   * nothing; or it has read a stretch of pushed arguments whose indices are its own, one argument if it is not
   * a bulk pop. A push ends with its commit.
   */
  ghost predicate PlainMove(q: Queue, p: Pc, a: Action, r: Pc, kind: Kind, took: seq<int>) {
    && (p.Idle? ==> if a.Call? then Taking(r) else Pushing(r))
    && (Taking(p) && !Taking(r) ==>
          && r.Idle?
          && (if took == [] then a.Restore? || (a.TryCas? && p.Try? && LooksEmpty(p.hd, p.push, p.tb))
              else TookRun(q, a.i, took) && (!kind.Bulk? ==> |took| == 1)))
    && (Pushing(p) && !Pushing(r) ==> r.Idle? && a.Commit?)
  }

  lemma MoveStep(q: Queue, p: Pc, a: Action, kind: Kind, took: seq<int>)
    requires ShapeOk(q) && PcOk(q, a.i, p) && Can(q, p, a) && CallOk(q, a.i, p, kind, took)
    ensures PlainMove(q, p, a, Goes(q, p, a), kind, took)
  {
    if Taking(p) { EndStep(q, p, a, kind, took); } else { StartStep(q, p, a); }
  }

  /** Every call of every run begins and ends like that. */
  lemma TakesAnswer(w: Watched, a: Action)
    requires Seen(w) && Enabled(w.s, a)
    ensures |w.h.kinds| == |w.h.took| == |w.s.pcs| && Next(w.s, a).pcs == w.s.pcs[a.i := Next(w.s, a).pcs[a.i]]
    ensures PlainMove(w.s.q, w.s.pcs[a.i], a, Next(w.s, a).pcs[a.i], w.h.kinds[a.i], w.h.took[a.i])
  {
    assert Kept(w) by { SeenKept(w); }
    StepFacts(w.s, a);
    MoveStep(w.s.q, w.s.pcs[a.i], a, w.h.kinds[a.i], w.h.took[a.i]);
  }
}
