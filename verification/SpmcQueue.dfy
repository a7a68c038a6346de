/**
 * The work-stealing queue of may_queue/src/spmc.rs as a step machine: thread 0 owns the queue
 * and pushes and pops locally, the others steal one item (`pop`) or a run of items (`bulk_pop`).
 *
 * Block `b` is the b-th block ever allocated and its 32 slots are the cells `32 * b ..` of `mem`;
 * the packed head word is a record. A block's number is never reused.
 */
module SpmcQueue {
  import opened Traces

  datatype Kind = Pop | Bulk | Local

  /** The packed head: block, slot id and the lock bit. */
  datatype Ptr = Ptr(block: nat, id: nat, locked: bool)

  datatype Slot = Empty | Full(v: int)

  datatype Block = Block(start: nat, next: int, used: nat, freed: bool)

  datatype Pc =
    | Idle
    // taking: load head, push index and tail block, then compare-exchange the head; `at` is history:
    // how many pushes were committed when the head was loaded
    | LoadHead(kind: Kind)
    | LoadIndex(kind: Kind, hd: Ptr, at: nat)
    | LoadBlock(kind: Kind, hd: Ptr, at: nat, push: nat)
    | Try(kind: Kind, hd: Ptr, at: nat, push: nat, tb: nat)
    // the head word was locked at slot `id` of block `b`
    | Locked(kind: Kind, b: nat, id: nat, push: nat)
    | Recover(b: nat, id: nat)
    | ReadNext(b: nat, id: nat)
    | SetHead(b: nat, id: nat, to: nat, nb: nat)
    // slots id..to of block `b` are claimed
    | Claimed(kind: Kind, b: nat, id: nat, to: nat, push: nat)
    | Reading(b: nat, id: nat, to: nat, acc: seq<int>)
    | Marking(b: nat, id: nat, to: nat)
    | Freeing(b: nat)
    | Skipping  // local_pop's "this slot is ignored"
    // push, by the owner
    | Writing(v: int)
    | Allocating(v: int)
    | Linking(v: int, nb: nat)
    | Moving(v: int, nb: nat)
    | Committing(v: int)

  /** How far the owner is with a new tail block. */
  datatype Phase = Steady | Alloced | Linked | Moved

  /**
   * History: `log` holds the committed values, `winner[n]` who claimed index `n`, `got` the
   * indices read, `marked` flags those counted in `used`, `locker` who locked the head, `freer[b]` who
   * counted the last slot of block `b`.
   */
  datatype Queue = Queue(
    mem: seq<Slot>, blocks: seq<Block>, head: Ptr, tb: nat, push: nat, phase: Phase,
    log: seq<int>, winner: seq<nat>, got: set<nat>, marked: seq<bool>, locker: nat, freer: seq<nat>)

  datatype State = State(q: Queue, pcs: seq<Pc>)

  datatype Action =
    | Call(i: nat, kind: Kind) | CallPush(i: nat, v: int)
    | GetHead(i: nat) | GetIndex(i: nat) | GetBlock(i: nat) | TryCas(i: nat, spurious: bool)
    | CheckLocked(i: nat) | Restore(i: nat) | GetNext(i: nat) | StoreHead(i: nat)
    | CheckReady(i: nat) | ReadSlot(i: nat) | MarkRead(i: nat) | FreeBlock(i: nat)
    | Write(i: nat) | Alloc(i: nat) | Link(i: nat) | MoveTail(i: nat) | Commit(i: nat)

  function Cells(n: nat): seq<Slot> { seq(n, _ => Empty) }

  function Flags(n: nat): seq<bool> { seq(n, _ => false) }

  function Start(threads: nat): State {
    State(Queue(Cells(32), [Block(0, -1, 32, false)], Ptr(0, 0, false), 0, 0, Steady, [], [], {}, Flags(32), 0, [0]),
          seq(threads, _ => Idle))
  }

  function Index(p: Ptr): nat { 32 * p.block + p.id }

  function Strip(p: Ptr): Ptr { p.(locked := false) }

  /** How far a compare-exchange on slot `hd.id` claims; 0 means: lock the head word. */
  function Upto(kind: Kind, hd: Ptr, push: nat, tb: nat): nat {
    if kind.Bulk? then (if hd.block != tb then 0 else push % 32)
    else if hd.id == 31 then 0 else hd.id + 1
  }

  predicate LooksEmpty(hd: Ptr, push: nat, tb: nat) { hd.block == tb && hd.id >= push % 32 }

  /** Can a thread at `p` take this step? */
  predicate Can(q: Queue, p: Pc, a: Action) {
    match a
    case Call(i, kind) => p.Idle? && (kind.Local? ==> i == 0)
    case CallPush(i, _) => p.Idle? && i == 0
    case GetHead(_) => p.LoadHead?
    case GetIndex(_) => p.LoadIndex?
    case GetBlock(_) => p.LoadBlock?
    case TryCas(_, _) => p.Try?
    case CheckLocked(_) => p.Locked? && p.b < |q.blocks|
    case Restore(_) => p.Recover?
    case GetNext(_) => p.ReadNext? && p.b < |q.blocks| && q.blocks[p.b].next >= 0
    case StoreHead(_) => p.SetHead?
    // the sleep loops of the source wait here until the slots are committed
    case CheckReady(_) => p.Claimed? && (p.kind.Local? || 32 * p.b + p.to <= q.push)
    case ReadSlot(_) =>
      && p.Reading? && 32 * p.b + p.id + |p.acc| < |q.mem| && q.mem[32 * p.b + p.id + |p.acc|].Full?
    case MarkRead(_) =>
      && p.Marking? && p.id <= p.to && p.b < |q.blocks| && p.to - p.id <= q.blocks[p.b].used && p.b < |q.freer|
    case FreeBlock(_) => p.Freeing? && p.b < |q.blocks|
    case Write(_) => p.Writing? && 32 * q.tb + q.push % 32 < |q.mem|
    case Alloc(_) => p.Allocating?
    case Link(_) => p.Linking? && q.tb < |q.blocks|
    case MoveTail(_) => p.Moving?
    case Commit(_) => p.Committing?
  }

  predicate Enabled(s: State, a: Action) { a.i < |s.pcs| && Can(s.q, s.pcs[a.i], a) }

  function MarkSpan(flags: seq<bool>, lo: nat, hi: nat): (r: seq<bool>)
    ensures |r| == |flags|
    ensures forall n :: 0 <= n < |r| ==> (r[n] <==> flags[n] || lo <= n < hi)
  {
    seq(|flags|, n requires 0 <= n < |flags| => flags[n] || lo <= n < hi)
  }

  function Owners(i: nat, from: nat, to: nat): seq<nat> { seq(if from < to then to - from else 0, _ => i) }

  predicate CasWins(q: Queue, p: Pc, a: Action) {
    p.Try? && a.TryCas? && !a.spurious && q.head == p.hd && !LooksEmpty(p.hd, p.push, p.tb)
  }

  /** The step's effect on the queue. */
  function Effect(q: Queue, p: Pc, a: Action): Queue
    requires Can(q, p, a)
  {
    match a
    case TryCas(i, _) =>
      if !CasWins(q, p, a) then q
      else
        var to := Upto(p.kind, p.hd, p.push, p.tb);
        if to == 0 then q.(head := p.hd.(locked := true), locker := i)
        else q.(head := Ptr(p.hd.block, to, false), winner := q.winner + Owners(i, p.hd.id, to))
    case Restore(_) => q.(head := Ptr(p.b, p.id, false))
    case StoreHead(i) =>
      q.(head := if p.to == 32 then Ptr(p.nb, 0, false) else Ptr(p.b, p.to, false),
         winner := q.winner + Owners(i, p.id, p.to))
    case ReadSlot(_) => q.(got := q.got + {32 * p.b + p.id + |p.acc|})
    case MarkRead(i) =>
      q.(blocks := q.blocks[p.b := q.blocks[p.b].(used := q.blocks[p.b].used - (p.to - p.id))],
         marked := MarkSpan(q.marked, 32 * p.b + p.id, 32 * p.b + p.to),
         freer := q.freer[p.b := i])
    case FreeBlock(_) => q.(blocks := q.blocks[p.b := q.blocks[p.b].(freed := true)])
    case Write(_) => q.(mem := q.mem[32 * q.tb + q.push % 32 := Full(p.v)])
    case Alloc(_) =>
      q.(blocks := q.blocks + [Block(q.push + 1, -1, 32, false)], mem := q.mem + Cells(32),
         marked := q.marked + Flags(32), freer := q.freer + [0], phase := Alloced)
    case Link(_) => q.(blocks := q.blocks[q.tb := q.blocks[q.tb].(next := p.nb)], phase := Linked)
    case MoveTail(_) => q.(tb := p.nb, phase := Moved)
    case Commit(_) => q.(push := q.push + 1, log := q.log + [p.v], phase := Steady)
    case _ => q
  }

  /** Where the step takes its thread. */
  function Goes(q: Queue, p: Pc, a: Action): Pc
    requires Can(q, p, a)
  {
    match a
    case Call(_, kind) => LoadHead(kind)
    case CallPush(_, v) => Writing(v)
    case GetHead(_) => LoadIndex(p.kind, Strip(q.head), q.push)
    case GetIndex(_) => LoadBlock(p.kind, p.hd, p.at, q.push)
    case GetBlock(_) => Try(p.kind, p.hd, p.at, p.push, q.tb)
    case TryCas(_, _) =>
      if LooksEmpty(p.hd, p.push, p.tb) then Idle
      else if CasWins(q, p, a) then
        var to := Upto(p.kind, p.hd, p.push, p.tb);
        if to == 0 then Locked(p.kind, p.hd.block, p.hd.id, p.push)
        else Claimed(p.kind, p.hd.block, p.hd.id, to, p.push)
      else if p.kind.Local? then p.(hd := Strip(q.head), at := q.push)
      else LoadIndex(p.kind, Strip(q.head), q.push)
    case CheckLocked(_) =>
      var push := if p.kind.Local? then p.push else q.push;
      var start := q.blocks[p.b].start;
      if start + p.id >= push then Recover(p.b, p.id)
      else if !p.kind.Bulk? || start + 32 <= push then ReadNext(p.b, p.id)
      else SetHead(p.b, p.id, push % 32, p.b)
    case Restore(_) => Idle
    case GetNext(_) => SetHead(p.b, p.id, 32, q.blocks[p.b].next)
    case StoreHead(_) => Reading(p.b, p.id, p.to, [])
    case CheckReady(_) =>
      if p.kind.Local? && 32 * p.b + p.id >= p.push then Skipping else Reading(p.b, p.id, p.to, [])
    case ReadSlot(_) =>
      var acc := p.acc + [q.mem[32 * p.b + p.id + |p.acc|].v];
      if p.id + |acc| < p.to then p.(acc := acc) else Marking(p.b, p.id, p.to)
    case MarkRead(_) => if q.blocks[p.b].used == p.to - p.id then Freeing(p.b) else Idle
    case FreeBlock(_) => Idle
    case Write(_) => if (q.push + 1) % 32 == 0 then Allocating(p.v) else Committing(p.v)
    case Alloc(_) => Linking(p.v, |q.blocks|)
    case Link(_) => Moving(p.v, p.nb)
    case MoveTail(_) => Committing(p.v)
    case Commit(_) => Idle
  }

  function Next(s: State, a: Action): State
    requires Enabled(s, a)
  {
    var p := s.pcs[a.i];
    State(Effect(s.q, p, a), s.pcs[a.i := Goes(s.q, p, a)])
  }

  /** The block whose memory a step reads, writes or frees, or -1. */
  function Touches(q: Queue, p: Pc, a: Action): int {
    if (a.CheckLocked? && p.Locked?) || (a.GetNext? && p.ReadNext?) || (a.CheckReady? && p.Claimed?) ||
       (a.ReadSlot? && p.Reading?) || (a.MarkRead? && p.Marking?) || (a.FreeBlock? && p.Freeing?) then p.b
    else if a.Write? || a.Link? then q.tb
    else -1
  }

  // ---------------------------------------------------------------- the invariant

  /** How many of the flags lo..hi-1 are clear. */
  function Unmarked(flags: seq<bool>, lo: nat, hi: nat): nat
    requires lo <= hi <= |flags|
    decreases hi
  {
    if lo == hi then 0 else Unmarked(flags, lo, hi - 1) + (if flags[hi - 1] then 0 else 1)
  }

  predicate Pushing(p: Pc) { p.Writing? || p.Allocating? || p.Linking? || p.Moving? || p.Committing? }

  predicate HoldsLock(p: Pc) { p.Locked? || p.Recover? || p.ReadNext? || p.SetHead? }

  predicate HasClaim(p: Pc) { p.Claimed? || p.Reading? || p.Marking? }

  /** The first index of a claim that has not been read. */
  function Unread(p: Pc): nat
    requires HasClaim(p)
  {
    32 * p.b + if p.Claimed? then p.id else if p.Reading? then p.id + |p.acc| else p.to
  }

  ghost predicate ShapeOk(q: Queue) {
    && q.push == |q.log| && |q.mem| == |q.marked| == 32 * |q.blocks| && |q.freer| == |q.blocks|
    && (if q.phase.Moved? then q.push == 32 * q.tb - 1
        else if q.phase.Steady? then 32 * q.tb <= q.push < 32 * q.tb + 32
        else q.push == 32 * q.tb + 31)
    && |q.blocks| == q.tb + (if q.phase.Alloced? || q.phase.Linked? then 2 else 1)
    && q.head.id < 32 && |q.winner| == Index(q.head) <= q.push
  }

  /** Committed cells hold the log. */
  ghost predicate MemOk(mem: seq<Slot>, log: seq<int>) {
    |log| <= |mem| && forall n :: 0 <= n < |log| ==> mem[n] == Full(log[n])
  }

  ghost predicate BlocksOk(blocks: seq<Block>, marked: seq<bool>, tb: nat, phase: Phase) {
    && |marked| == 32 * |blocks| && tb < |blocks| <= tb + 2
    && (forall b :: 0 <= b < |blocks| ==>
          && blocks[b].start == 32 * b
          && blocks[b].used == Unmarked(marked, 32 * b, 32 * b + 32)
          && (blocks[b].freed ==> blocks[b].used == 0))
    && (forall b :: 0 <= b < tb ==> blocks[b].next == b + 1)
    && blocks[tb].next == (if phase.Linked? then tb + 1 else -1)
    && (tb + 1 < |blocks| ==> blocks[tb + 1].next == -1)
  }

  ghost predicate GotOk(marked: seq<bool>, got: set<nat>, claimed: nat) {
    && (forall n :: 0 <= n < |marked| && marked[n] ==> n in got)
    && (forall n :: n in got ==> n < claimed)
  }

  ghost predicate QueueOk(q: Queue) {
    ShapeOk(q) && MemOk(q.mem, q.log) && BlocksOk(q.blocks, q.marked, q.tb, q.phase) && GotOk(q.marked, q.got, |q.winner|)
  }

  /** A head value that was read once is never ahead of the claims nor of the pushes committed then. */
  ghost predicate SeenOk(q: Queue, hd: Ptr, at: nat) {
    !hd.locked && hd.id < 32 && Index(hd) <= at <= q.push && Index(hd) <= |q.winner| && hd.block <= q.tb
  }

  ghost predicate LoadingOk(q: Queue, i: nat, p: Pc) {
    && (p.LoadHead? ==> p.kind.Local? ==> i == 0)
    && (p.LoadIndex? ==> SeenOk(q, p.hd, p.at) && (p.kind.Local? ==> i == 0))
    && (p.LoadBlock? ==> SeenOk(q, p.hd, p.at) && p.at <= p.push <= q.push && (p.kind.Local? ==> i == 0 && p.push == q.push))
    && (p.Try? ==> && SeenOk(q, p.hd, p.at) && p.at <= p.push <= q.push && p.hd.block <= p.tb <= q.tb
                   && (p.tb == p.hd.block ==> p.push <= 32 * p.tb + 31) && q.push >= 32 * p.tb - 1
                   && (p.kind.Local? ==> i == 0 && p.push == q.push && p.tb == q.tb))
  }

  ghost predicate LockOk(q: Queue, i: nat, p: Pc) {
    HoldsLock(p) ==>
      && q.head == Ptr(p.b, p.id, true) && q.locker == i && p.b <= q.tb
      && (p.Locked? ==> (!p.kind.Bulk? ==> p.id == 31) && (p.kind.Local? ==> i == 0 && p.push == q.push))
      && (p.ReadNext? ==> 32 * p.b + 32 <= q.push)
      && (p.SetHead? ==> p.id < p.to <= 32 && 32 * p.b + p.to <= q.push && p.nb == (if p.to == 32 then p.b + 1 else p.b))
  }

  ghost predicate ClaimOk(q: Queue, i: nat, p: Pc) {
    && (HasClaim(p) ==>
          && p.id < p.to <= 32 && 32 * p.b + p.to <= |q.winner| && 32 * p.b + p.to <= q.push && p.b < |q.blocks|
          && (forall n :: 32 * p.b + p.id <= n < 32 * p.b + p.to ==> q.winner[n] == i)
          && (forall n :: 32 * p.b + p.id <= n < 32 * p.b + p.to && n < |q.marked| ==> !q.marked[n])
          && (forall n :: 32 * p.b + p.id <= n < 32 * p.b + p.to ==> (n in q.got <==> n < Unread(p))))
    && (p.Claimed? && p.kind.Local? ==> i == 0 && p.push == q.push)
    && (p.Reading? ==> p.id + |p.acc| < p.to && 32 * p.b + p.id + |p.acc| <= |q.log|
                       && p.acc == q.log[32 * p.b + p.id..32 * p.b + p.id + |p.acc|])
    && !p.Skipping?
    && (p.Freeing? ==> p.b < |q.blocks| && p.b < |q.freer| && q.freer[p.b] == i
                       && q.blocks[p.b].used == 0 && !q.blocks[p.b].freed)
  }

  ghost predicate OwnerOk(q: Queue, i: nat, p: Pc) {
    && (Pushing(p) ==> i == 0)
    && (p.Allocating? || p.Committing? ==> q.push < |q.mem| && q.mem[q.push] == Full(p.v))
    && (p.Linking? || p.Moving? ==> q.push < |q.mem| && q.mem[q.push] == Full(p.v) && p.nb == q.tb + 1)
    && (p.Allocating? ==> q.phase.Steady? && q.push == 32 * q.tb + 31)
    && (p.Committing? ==> q.phase.Moved? || (q.phase.Steady? && q.push < 32 * q.tb + 31))
    && (p.Linking? ==> q.phase.Alloced?)
    && (p.Moving? ==> q.phase.Linked?)
    && (i == 0 && (!Pushing(p) || p.Writing?) ==> q.phase.Steady?)
  }

  ghost predicate PcOk(q: Queue, i: nat, p: Pc) {
    LoadingOk(q, i, p) && LockOk(q, i, p) && ClaimOk(q, i, p) && OwnerOk(q, i, p)
  }

  /** Index `n` is within the claim of a thread at `p`. */
  predicate Covers(p: Pc, n: nat) { HasClaim(p) && 32 * p.b + p.id <= n < 32 * p.b + p.to }

  /** Whatever has been claimed and not counted as read is within its claimer's claim. */
  ghost predicate ClaimersOk(q: Queue, pcs: seq<Pc>) {
    forall n :: 0 <= n < |q.winner| && n < |q.marked| && !q.marked[n] ==> q.winner[n] < |pcs| && Covers(pcs[q.winner[n]], n)
  }

  /** A locked head has a thread that holds the lock. */
  predicate LockedOk(q: Queue, pcs: seq<Pc>) { q.head.locked ==> q.locker < |pcs| && HoldsLock(pcs[q.locker]) }

  /** A block whose slots are all counted is freed, or the thread that counted the last one is about to. */
  predicate FreeDue(q: Queue, pcs: seq<Pc>, b: nat)
    requires b < |q.blocks|
  {
    q.blocks[b].freed || (b < |q.freer| && q.freer[b] < |pcs| && pcs[q.freer[b]] == Freeing(b))
  }

  ghost predicate FreersOk(q: Queue, pcs: seq<Pc>) {
    forall b :: 0 <= b < |q.blocks| && q.blocks[b].used == 0 ==> FreeDue(q, pcs, b)
  }

  ghost predicate PcsOk(q: Queue, pcs: seq<Pc>) { forall i :: 0 <= i < |pcs| ==> PcOk(q, i, pcs[i]) }

  ghost predicate Duties(q: Queue, pcs: seq<Pc>) { ClaimersOk(q, pcs) && LockedOk(q, pcs) && FreersOk(q, pcs) }

  ghost predicate Inv(s: State) {
    && QueueOk(s.q) && PcsOk(s.q, s.pcs) && Duties(s.q, s.pcs)
    && (|s.pcs| == 0 ==> s.q.phase.Steady?)
  }

  lemma {:induction false} AllClear(flags: seq<bool>, lo: nat, hi: nat)
    requires lo <= hi <= |flags| && forall n :: lo <= n < hi ==> !flags[n]
    ensures Unmarked(flags, lo, hi) == hi - lo
    decreases hi
  {
    if lo < hi { AllClear(flags, lo, hi - 1); }
  }

  lemma StartInv(threads: nat)
    ensures Inv(Start(threads))
  {
    AllClear(Start(threads).q.marked, 0, 32);
  }

  // ---------------------------------------------------------------- what one thread's step leaves alone

  ghost predicate Evolves(q: Queue, r: Queue, i: nat) {
    && q.push <= r.push && q.log <= r.log && q.tb <= r.tb && q.winner <= r.winner
    && (i != 0 ==> r.push == q.push && r.tb == q.tb && r.phase == q.phase && r.mem == q.mem)
    && q.got <= r.got && (forall n :: n in r.got && n !in q.got ==> n < |r.winner| && r.winner[n] == i)
    && |q.marked| <= |r.marked|
    && (forall n :: 0 <= n < |q.marked| && r.marked[n] && !q.marked[n] ==> n < |r.winner| && r.winner[n] == i)
    && (forall n :: 0 <= n < |q.marked| && q.marked[n] ==> r.marked[n])
    && |q.blocks| <= |r.blocks| && |q.freer| <= |r.freer| && |q.freer| == |q.blocks|
    && (forall b :: 0 <= b < |q.blocks| && q.freer[b] != i && q.blocks[b].used == 0 ==>
          r.freer[b] == q.freer[b] && r.blocks[b].used == 0 && r.blocks[b].freed == q.blocks[b].freed)
    && (q.head.locked && q.locker != i ==> r.head == q.head && r.locker == q.locker)
  }

  lemma OthersKept(q: Queue, r: Queue, i: nat, j: nat, p: Pc)
    requires PcOk(q, j, p) && i != j && Evolves(q, r, i)
    requires |q.winner| <= |q.log| == q.push && |q.marked| == 32 * |q.blocks| && |r.marked| == 32 * |r.blocks|
    ensures PcOk(r, j, p)
  {
    ClaimKept(q, r, i, j, p);
  }

  lemma ClaimKept(q: Queue, r: Queue, i: nat, j: nat, p: Pc)
    requires ClaimOk(q, j, p) && i != j && Evolves(q, r, i)
    requires |q.winner| <= |q.log| == q.push && |q.marked| == 32 * |q.blocks| && |r.marked| == 32 * |r.blocks|
    ensures ClaimOk(r, j, p)
  {
    assert forall n :: 0 <= n < |q.log| ==> r.log[n] == q.log[n];
    assert forall n :: 0 <= n < |q.winner| ==> r.winner[n] == q.winner[n];
  }

  // ---------------------------------------------------------------- the steps

  lemma LoadStep(q: Queue, p: Pc, a: Action)
    requires ShapeOk(q) && PcOk(q, a.i, p) && Can(q, p, a)
    requires a.Call? || a.CallPush? || a.GetHead? || (a.TryCas? && !CasWins(q, p, a))
    ensures Effect(q, p, a) == q && PcOk(q, a.i, Goes(q, p, a))
  {
  }

  lemma TailLoadStep(q: Queue, p: Pc, a: Action)
    requires ShapeOk(q) && PcOk(q, a.i, p) && Can(q, p, a) && (a.GetIndex? || a.GetBlock?)
    ensures Effect(q, p, a) == q && PcOk(q, a.i, Goes(q, p, a))
  {
  }

  lemma CheckStep(q: Queue, p: Pc, a: Action)
    requires ShapeOk(q) && PcOk(q, a.i, p) && Can(q, p, a) && a.CheckLocked? && q.blocks[p.b].start == 32 * p.b
    ensures Effect(q, p, a) == q && PcOk(q, a.i, Goes(q, p, a))
  {
    CheckLock(q, p, a);
  }

  lemma CheckLock(q: Queue, p: Pc, a: Action)
    requires ShapeOk(q) && LockOk(q, a.i, p) && Can(q, p, a) && a.CheckLocked? && q.blocks[p.b].start == 32 * p.b
    ensures LockOk(q, a.i, Goes(q, p, a)) && HoldsLock(Goes(q, p, a))
  {
  }

  lemma NextStep(q: Queue, p: Pc, a: Action)
    requires ShapeOk(q) && BlocksOk(q.blocks, q.marked, q.tb, q.phase) && PcOk(q, a.i, p) && Can(q, p, a)
    requires a.GetNext?
    ensures Effect(q, p, a) == q && PcOk(q, a.i, Goes(q, p, a))
  {
  }

  lemma ReadyStep(q: Queue, p: Pc, a: Action)
    requires ShapeOk(q) && PcOk(q, a.i, p) && Can(q, p, a) && a.CheckReady?
    ensures Effect(q, p, a) == q && PcOk(q, a.i, Goes(q, p, a))
  {
  }

  /** The compare-exchange claims only committed slots, or locks the head word. */
  lemma CasBounds(q: Queue, i: nat, p: Pc)
    requires ShapeOk(q) && LoadingOk(q, i, p) && p.Try? && q.head == p.hd && !LooksEmpty(p.hd, p.push, p.tb)
    ensures var to := Upto(p.kind, p.hd, p.push, p.tb);
            && (to == 0 ==> !p.kind.Bulk? ==> p.hd.id == 31)
            && (to > 0 ==> p.hd.id < to < 32 && 32 * p.hd.block + to <= q.push)
            && (p.kind.Local? ==> to > 0 ==> Index(p.hd) < p.push)
  {
  }

  lemma CasQueue(q: Queue, p: Pc, a: Action)
    requires QueueOk(q) && PcOk(q, a.i, p) && Can(q, p, a) && a.TryCas? && CasWins(q, p, a)
    ensures QueueOk(Effect(q, p, a))
  {
    CasBounds(q, a.i, p);
  }

  lemma CasGoes(q: Queue, p: Pc, a: Action)
    requires QueueOk(q) && PcOk(q, a.i, p) && Can(q, p, a) && a.TryCas? && CasWins(q, p, a)
    ensures PcOk(Effect(q, p, a), a.i, Goes(q, p, a)) && Evolves(q, Effect(q, p, a), a.i)
  {
    CasBounds(q, a.i, p);
  }

  lemma RestoreStep(q: Queue, p: Pc, a: Action)
    requires QueueOk(q) && PcOk(q, a.i, p) && Can(q, p, a) && a.Restore?
    ensures QueueOk(Effect(q, p, a)) && PcOk(Effect(q, p, a), a.i, Goes(q, p, a)) && Evolves(q, Effect(q, p, a), a.i)
  {
  }

  lemma UnlockQueue(q: Queue, p: Pc, a: Action)
    requires QueueOk(q) && PcOk(q, a.i, p) && Can(q, p, a) && a.StoreHead?
    ensures QueueOk(Effect(q, p, a))
  {
  }

  lemma UnlockGoes(q: Queue, p: Pc, a: Action)
    requires QueueOk(q) && PcOk(q, a.i, p) && Can(q, p, a) && a.StoreHead?
    ensures PcOk(Effect(q, p, a), a.i, Goes(q, p, a)) && Evolves(q, Effect(q, p, a), a.i)
  {
  }

  /** A read returns the committed value of an index that nobody has read. */
  lemma ReadIsCommitted(q: Queue, p: Pc, a: Action)
    requires ShapeOk(q) && MemOk(q.mem, q.log) && ClaimOk(q, a.i, p) && Can(q, p, a) && a.ReadSlot?
    ensures var n := 32 * p.b + p.id + |p.acc|;
            && n < q.push && n < |q.winner| && q.winner[n] == a.i && n !in q.got && q.mem[n].v == q.log[n]
            && p.acc + [q.mem[n].v] == q.log[32 * p.b + p.id..n + 1]
  {
  }

  lemma ReadStep(q: Queue, p: Pc, a: Action)
    requires QueueOk(q) && PcOk(q, a.i, p) && Can(q, p, a) && a.ReadSlot?
    ensures QueueOk(Effect(q, p, a)) && Evolves(q, Effect(q, p, a), a.i)
  {
    ReadIsCommitted(q, p, a);
  }

  lemma ReadGoes(q: Queue, p: Pc, a: Action)
    requires ShapeOk(q) && MemOk(q.mem, q.log) && PcOk(q, a.i, p) && Can(q, p, a) && a.ReadSlot?
    ensures PcOk(Effect(q, p, a), a.i, Goes(q, p, a))
  {
    ReadClaim(q, p, a);
  }

  lemma ReadClaim(q: Queue, p: Pc, a: Action)
    requires ShapeOk(q) && MemOk(q.mem, q.log) && ClaimOk(q, a.i, p) && Can(q, p, a) && a.ReadSlot?
    ensures ClaimOk(Effect(q, p, a), a.i, Goes(q, p, a))
  {
    ReadIsCommitted(q, p, a);
  }

  lemma FreeQueue(q: Queue, p: Pc, a: Action)
    requires QueueOk(q) && PcOk(q, a.i, p) && Can(q, p, a) && a.FreeBlock?
    ensures QueueOk(Effect(q, p, a))
  {
  }

  lemma FreeGoes(q: Queue, p: Pc, a: Action)
    requires QueueOk(q) && PcOk(q, a.i, p) && Can(q, p, a) && a.FreeBlock?
    ensures PcOk(Effect(q, p, a), a.i, Goes(q, p, a)) && Evolves(q, Effect(q, p, a), a.i)
  {
  }

  lemma WriteQueue(q: Queue, p: Pc, a: Action)
    requires QueueOk(q) && PcOk(q, a.i, p) && Can(q, p, a) && a.Write?
    ensures QueueOk(Effect(q, p, a))
  {
  }

  lemma WriteGoes(q: Queue, p: Pc, a: Action)
    requires ShapeOk(q) && PcOk(q, a.i, p) && Can(q, p, a) && a.Write?
    ensures PcOk(Effect(q, p, a), a.i, Goes(q, p, a)) && Evolves(q, Effect(q, p, a), a.i)
  {
  }

  lemma CommitStep(q: Queue, p: Pc, a: Action)
    requires QueueOk(q) && PcOk(q, a.i, p) && Can(q, p, a) && a.Commit?
    ensures QueueOk(Effect(q, p, a)) && PcOk(Effect(q, p, a), a.i, Goes(q, p, a)) && Evolves(q, Effect(q, p, a), a.i)
  {
  }

  lemma TailQueue(q: Queue, p: Pc, a: Action)
    requires QueueOk(q) && PcOk(q, a.i, p) && Can(q, p, a) && (a.Link? || a.MoveTail?)
    ensures QueueOk(Effect(q, p, a))
  {
  }

  lemma TailGoes(q: Queue, p: Pc, a: Action)
    requires QueueOk(q) && PcOk(q, a.i, p) && Can(q, p, a) && (a.Link? || a.MoveTail?)
    ensures PcOk(Effect(q, p, a), a.i, Goes(q, p, a)) && Evolves(q, Effect(q, p, a), a.i)
  {
  }

  lemma {:induction false} UnmarkedSame(f: seq<bool>, g: seq<bool>, lo: nat, hi: nat)
    requires lo <= hi <= |f| && hi <= |g| && forall n :: lo <= n < hi ==> f[n] == g[n]
    ensures Unmarked(f, lo, hi) == Unmarked(g, lo, hi)
    decreases hi
  {
    if lo < hi { UnmarkedSame(f, g, lo, hi - 1); }
  }

  /** Marking a stretch of clear flags lowers the count by its length. */
  lemma {:induction false} UnmarkedDrops(f: seq<bool>, lo: nat, hi: nat, from: nat, to: nat)
    requires lo <= from <= to <= hi <= |f| && forall n :: from <= n < to ==> !f[n]
    ensures Unmarked(MarkSpan(f, from, to), lo, hi) + (to - from) == Unmarked(f, lo, hi)
    decreases hi
  {
    var g := MarkSpan(f, from, to);
    if from == to || to < hi {
      if lo < hi {
        if from == to { UnmarkedSame(f, g, lo, hi); } else { UnmarkedDrops(f, lo, hi - 1, from, to); }
      }
    } else {
      UnmarkedDrops(f, lo, hi - 1, from, to - 1);
      UnmarkedSame(g, MarkSpan(f, from, to - 1), lo, hi - 1);
    }
  }

  lemma MarkHere(q: Queue, p: Pc, a: Action)
    requires Can(q, p, a) && a.MarkRead? && p.b < |q.blocks| && |q.marked| == 32 * |q.blocks| && p.id < p.to <= 32
    requires q.blocks[p.b].used == Unmarked(q.marked, 32 * p.b, 32 * p.b + 32)
    requires forall n :: 32 * p.b + p.id <= n < 32 * p.b + p.to ==> !q.marked[n]
    ensures var r := Effect(q, p, a); r.blocks[p.b].used == Unmarked(r.marked, 32 * p.b, 32 * p.b + 32)
  {
    UnmarkedDrops(q.marked, 32 * p.b, 32 * p.b + 32, 32 * p.b + p.id, 32 * p.b + p.to);
  }

  lemma MarkElsewhere(q: Queue, p: Pc, a: Action, b: nat)
    requires Can(q, p, a) && a.MarkRead? && |q.marked| == 32 * |q.blocks| && p.id < p.to <= 32
    requires b < |q.blocks| && b != p.b && q.blocks[b].used == Unmarked(q.marked, 32 * b, 32 * b + 32)
    ensures var r := Effect(q, p, a); r.blocks[b].used == Unmarked(r.marked, 32 * b, 32 * b + 32)
  {
    UnmarkedSame(q.marked, Effect(q, p, a).marked, 32 * b, 32 * b + 32);
  }

  lemma MarkBlocks(q: Queue, p: Pc, a: Action)
    requires ShapeOk(q) && BlocksOk(q.blocks, q.marked, q.tb, q.phase) && ClaimOk(q, a.i, p) && Can(q, p, a) && a.MarkRead?
    ensures var r := Effect(q, p, a); BlocksOk(r.blocks, r.marked, r.tb, r.phase)
  {
    var r := Effect(q, p, a);
    forall b | 0 <= b < |q.blocks| ensures r.blocks[b].used == Unmarked(r.marked, 32 * b, 32 * b + 32) {
      if b == p.b { MarkHere(q, p, a); } else { MarkElsewhere(q, p, a, b); }
    }
  }

  lemma MarkQueue(q: Queue, p: Pc, a: Action)
    requires QueueOk(q) && PcOk(q, a.i, p) && Can(q, p, a) && a.MarkRead?
    ensures QueueOk(Effect(q, p, a))
  {
    MarkBlocks(q, p, a);
  }

  lemma MarkGoes(q: Queue, p: Pc, a: Action)
    requires QueueOk(q) && PcOk(q, a.i, p) && Can(q, p, a) && a.MarkRead?
    ensures PcOk(Effect(q, p, a), a.i, Goes(q, p, a)) && Evolves(q, Effect(q, p, a), a.i)
  {
  }

  lemma AllocBlocks(q: Queue, p: Pc, a: Action)
    requires ShapeOk(q) && BlocksOk(q.blocks, q.marked, q.tb, q.phase) && OwnerOk(q, a.i, p) && Can(q, p, a) && a.Alloc?
    ensures var r := Effect(q, p, a); BlocksOk(r.blocks, r.marked, r.tb, r.phase)
  {
    var r := Effect(q, p, a);
    forall b | 0 <= b < |r.blocks| ensures r.blocks[b].used == Unmarked(r.marked, 32 * b, 32 * b + 32) {
      if b < |q.blocks| { UnmarkedSame(q.marked, r.marked, 32 * b, 32 * b + 32); }
      else { AllClear(r.marked, 32 * b, 32 * b + 32); }
    }
  }

  lemma AllocStep(q: Queue, p: Pc, a: Action)
    requires QueueOk(q) && PcOk(q, a.i, p) && Can(q, p, a) && a.Alloc?
    ensures QueueOk(Effect(q, p, a)) && PcOk(Effect(q, p, a), a.i, Goes(q, p, a)) && Evolves(q, Effect(q, p, a), a.i)
  {
    AllocBlocks(q, p, a);
  }

  lemma TailStep(q: Queue, p: Pc, a: Action)
    requires QueueOk(q) && PcOk(q, a.i, p) && Can(q, p, a) && (a.Link? || a.MoveTail?)
    ensures QueueOk(Effect(q, p, a)) && PcOk(Effect(q, p, a), a.i, Goes(q, p, a)) && Evolves(q, Effect(q, p, a), a.i)
  {
    TailQueue(q, p, a);
    TailGoes(q, p, a);
  }

  lemma PushSideStep(q: Queue, p: Pc, a: Action)
    requires QueueOk(q) && PcOk(q, a.i, p) && Can(q, p, a) && (a.Write? || a.Commit? || a.Alloc?)
    ensures QueueOk(Effect(q, p, a)) && PcOk(Effect(q, p, a), a.i, Goes(q, p, a)) && Evolves(q, Effect(q, p, a), a.i)
  {
    match a
    case Write(_) => WriteQueue(q, p, a); WriteGoes(q, p, a);
    case Commit(_) => CommitStep(q, p, a);
    case Alloc(_) => AllocStep(q, p, a);
  }

  lemma LookStep(q: Queue, p: Pc, a: Action)
    requires QueueOk(q) && PcOk(q, a.i, p) && Can(q, p, a)
    requires a.Call? || a.CallPush? || a.GetHead? || a.GetIndex? || a.GetBlock? || a.CheckLocked? || a.GetNext? || a.CheckReady?
             || (a.TryCas? && !CasWins(q, p, a))
    ensures Effect(q, p, a) == q && PcOk(q, a.i, Goes(q, p, a))
  {
    match a
    case CheckLocked(_) => CheckStep(q, p, a);
    case GetNext(_) => NextStep(q, p, a);
    case CheckReady(_) => ReadyStep(q, p, a);
    case GetIndex(_) => TailLoadStep(q, p, a);
    case GetBlock(_) => TailLoadStep(q, p, a);
    case _ => LoadStep(q, p, a);
  }

  lemma TakeSideStep(q: Queue, p: Pc, a: Action)
    requires QueueOk(q) && PcOk(q, a.i, p) && Can(q, p, a)
    requires (a.TryCas? && CasWins(q, p, a)) || a.Restore? || a.StoreHead? || a.ReadSlot? || a.MarkRead? || a.FreeBlock?
    ensures QueueOk(Effect(q, p, a)) && PcOk(Effect(q, p, a), a.i, Goes(q, p, a)) && Evolves(q, Effect(q, p, a), a.i)
  {
    match a
    case TryCas(_, _) => CasQueue(q, p, a); CasGoes(q, p, a);
    case Restore(_) => RestoreStep(q, p, a);
    case StoreHead(_) => UnlockQueue(q, p, a); UnlockGoes(q, p, a);
    case ReadSlot(_) => ReadStep(q, p, a); ReadGoes(q, p, a);
    case MarkRead(_) => MarkQueue(q, p, a); MarkGoes(q, p, a);
    case FreeBlock(_) => FreeQueue(q, p, a); FreeGoes(q, p, a);
  }

  lemma OneStep(q: Queue, p: Pc, a: Action)
    requires QueueOk(q) && PcOk(q, a.i, p) && Can(q, p, a)
    ensures QueueOk(Effect(q, p, a)) && PcOk(Effect(q, p, a), a.i, Goes(q, p, a)) && Evolves(q, Effect(q, p, a), a.i)
  {
    if a.Write? || a.Commit? || a.Alloc? {
      PushSideStep(q, p, a);
    } else if a.Link? || a.MoveTail? {
      TailStep(q, p, a);
    } else if (a.TryCas? && CasWins(q, p, a)) || a.Restore? || a.StoreHead? || a.ReadSlot? || a.MarkRead? || a.FreeBlock? {
      TakeSideStep(q, p, a);
    } else {
      LookStep(q, p, a);
    }
  }

  /** The acting thread keeps its uncounted indices and gets the newly claimed ones. */
  lemma KeepsClaim(q: Queue, p: Pc, a: Action, n: nat)
    requires ShapeOk(q) && LoadingOk(q, a.i, p) && LockOk(q, a.i, p) && ClaimOk(q, a.i, p) && Can(q, p, a)
    requires n < |Effect(q, p, a).winner| && n < |Effect(q, p, a).marked| && !Effect(q, p, a).marked[n]
    requires n < |q.winner| ==> Covers(p, n)
    ensures n >= |q.winner| ==> Effect(q, p, a).winner[n] == a.i
    ensures Covers(Goes(q, p, a), n)
  {
  }

  lemma OwnClaim(s: State, a: Action, n: nat)
    requires ShapeOk(s.q) && Enabled(s, a) && PcOk(s.q, a.i, s.pcs[a.i]) && Evolves(s.q, Next(s, a).q, a.i)
    requires n < |Next(s, a).q.winner| && n < |Next(s, a).q.marked| && !Next(s, a).q.marked[n]
    requires n < |s.q.winner| ==> s.q.winner[n] == a.i && Covers(s.pcs[a.i], n)
    ensures var t := Next(s, a); t.q.winner[n] < |t.pcs| && Covers(t.pcs[t.q.winner[n]], n)
  {
    KeepsClaim(s.q, s.pcs[a.i], a, n);
    assert n < |s.q.winner| ==> Next(s, a).q.winner[n] == s.q.winner[n];
  }

  /** Marks are never taken back. */
  lemma WasUnmarked(q: Queue, r: Queue, i: nat, n: nat)
    requires Evolves(q, r, i) && n < |q.marked| && n < |r.marked| && !r.marked[n]
    ensures !q.marked[n]
  {
  }

  lemma ClaimersStep(s: State, a: Action)
    requires ShapeOk(s.q) && a.i < |s.pcs| && PcOk(s.q, a.i, s.pcs[a.i]) && ClaimersOk(s.q, s.pcs) && Enabled(s, a)
    requires Evolves(s.q, Next(s, a).q, a.i)
    ensures ClaimersOk(Next(s, a).q, Next(s, a).pcs)
  {
    var t := Next(s, a);
    forall n | 0 <= n < |t.q.winner| && n < |t.q.marked| && !t.q.marked[n]
      ensures t.q.winner[n] < |t.pcs| && Covers(t.pcs[t.q.winner[n]], n)
    {
      if n < |s.q.winner| { WasUnmarked(s.q, t.q, a.i, n); }
      if n < |s.q.winner| && s.q.winner[n] != a.i { OtherClaim(s, t, a.i, n); } else { OwnClaim(s, a, n); }
    }
  }

  lemma OtherClaim(s: State, t: State, i: nat, n: nat)
    requires ClaimersOk(s.q, s.pcs) && Evolves(s.q, t.q, i) && i < |s.pcs| == |t.pcs| && t.pcs == s.pcs[i := t.pcs[i]]
    requires |s.q.winner| <= |s.q.marked| && n < |s.q.winner| && n < |t.q.marked| && !t.q.marked[n] && s.q.winner[n] != i
    ensures t.q.winner[n] < |t.pcs| && Covers(t.pcs[t.q.winner[n]], n)
  {
    assert t.q.winner[n] == s.q.winner[n];
  }

  lemma LockedStep(s: State, a: Action)
    requires LockedOk(s.q, s.pcs) && Enabled(s, a) && LockOk(s.q, a.i, s.pcs[a.i]) && Evolves(s.q, Next(s, a).q, a.i)
    ensures LockedOk(Next(s, a).q, Next(s, a).pcs)
  {
  }

  lemma FreerAt(s: State, a: Action, b: nat)
    requires Enabled(s, a) && |s.q.freer| == |s.q.blocks| && ClaimOk(s.q, a.i, s.pcs[a.i])
    requires b < |s.q.blocks| && (s.q.blocks[b].used == 0 ==> FreeDue(s.q, s.pcs, b))
    ensures b < |Next(s, a).q.blocks| && (Next(s, a).q.blocks[b].used == 0 ==> FreeDue(Next(s, a).q, Next(s, a).pcs, b))
  {
  }

  lemma FreersStep(s: State, a: Action)
    requires Enabled(s, a) && |s.q.freer| == |s.q.blocks| && ClaimOk(s.q, a.i, s.pcs[a.i]) && FreersOk(s.q, s.pcs)
    ensures FreersOk(Next(s, a).q, Next(s, a).pcs)
  {
    var t := Next(s, a);
    forall b | 0 <= b < |t.q.blocks| && t.q.blocks[b].used == 0 ensures FreeDue(t.q, t.pcs, b) {
      if b < |s.q.blocks| { FreerAt(s, a, b); }
    }
  }

  /** The other threads stay in order. */
  lemma OthersStep(s: State, t: State, i: nat)
    requires QueueOk(s.q) && QueueOk(t.q) && PcsOk(s.q, s.pcs) && i < |s.pcs| && Evolves(s.q, t.q, i)
    requires |t.pcs| == |s.pcs| && t.pcs == s.pcs[i := t.pcs[i]] && PcOk(t.q, i, t.pcs[i])
    ensures PcsOk(t.q, t.pcs)
  {
    forall j | 0 <= j < |t.pcs| ensures PcOk(t.q, j, t.pcs[j]) {
      if j != i { OthersKept(s.q, t.q, i, j, s.pcs[j]); }
    }
  }

  lemma InvStep(s: State, a: Action)
    requires Inv(s) && Enabled(s, a)
    ensures Inv(Next(s, a))
  {
    assert PcOk(s.q, a.i, s.pcs[a.i]);
    OneStep(s.q, s.pcs[a.i], a);
    OthersStep(s, Next(s, a), a.i);
    ClaimersStep(s, a);
    LockedStep(s, a);
    FreersStep(s, a);
  }

  // ---------------------------------------------------------------- every run

  ghost predicate Initial(s: State) { exists threads: nat :: s == Start(threads) }

  ghost predicate Step(s: State, t: State) { exists a: Action :: Enabled(s, a) && t == Next(s, a) }

  ghost predicate Reachable(s: State) { Reached(Initial, Step, s) }

  lemma ReachableInv(s: State)
    requires Reachable(s)
    ensures Inv(s)
  {
    forall s0 | Initial(s0) ensures Inv(s0) {
      var threads: nat :| s0 == Start(threads);
      StartInv(threads);
    }
    forall s1, s2 | Inv(s1) && Step(s1, s2) ensures Inv(s2) {
      var a: Action :| Enabled(s1, a) && s2 == Next(s1, a);
      InvStep(s1, a);
    }
    InvariantHolds(Initial, Step, Inv, s);
  }

  /** Every read is of a committed index that no other read returned, and returns its value. */
  lemma ReadExactlyOnce(s: State, a: Action)
    requires Reachable(s) && Enabled(s, a) && a.ReadSlot?
    ensures var p := s.pcs[a.i]; var n := 32 * p.b + p.id + |p.acc|;
            n < s.q.push && n < |s.q.log| && n !in s.q.got && n in Next(s, a).q.got && s.q.mem[n].v == s.q.log[n]
  {
    ReachableInv(s);
    assert PcOk(s.q, a.i, s.pcs[a.i]);
    ReadIsCommitted(s.q, s.pcs[a.i], a);
  }

  /** No claimed index is lost: until it is read, the one thread that claimed it is still at it. */
  lemma ClaimedIsRead(s: State, n: nat)
    requires Reachable(s) && n < Index(s.q.head) && n !in s.q.got
    ensures n < |s.q.winner| && s.q.winner[n] < |s.pcs|
    ensures var p := s.pcs[s.q.winner[n]]; HasClaim(p) && Unread(p) <= n < 32 * p.b + p.to
    ensures forall j :: 0 <= j < |s.pcs| && j != s.q.winner[n] && HasClaim(s.pcs[j]) ==>
              !(Unread(s.pcs[j]) <= n < 32 * s.pcs[j].b + s.pcs[j].to)
  {
    ReachableInv(s);
    assert PcOk(s.q, s.q.winner[n], s.pcs[s.q.winner[n]]);
    forall j | 0 <= j < |s.pcs| && j != s.q.winner[n] && HasClaim(s.pcs[j])
      ensures !(Unread(s.pcs[j]) <= n < 32 * s.pcs[j].b + s.pcs[j].to)
    {
      assert PcOk(s.q, j, s.pcs[j]);
    }
  }

  /**
   * An empty answer is true: when the call loaded the head, every index committed by then was claimed.
   * The second way out, with the head locked, finds every index committed so far claimed.
   */
  lemma EmptyMeansClaimed(s: State, i: nat)
    requires Reachable(s) && i < |s.pcs|
    ensures var p := s.pcs[i]; p.Try? && LooksEmpty(p.hd, p.push, p.tb) ==> p.at == Index(p.hd) <= |s.q.winner|
    ensures s.pcs[i].Locked? && Enabled(s, CheckLocked(i)) && Goes(s.q, s.pcs[i], CheckLocked(i)).Recover? ==>
              |s.q.winner| == s.q.push
  {
    ReachableInv(s);
    assert PcOk(s.q, i, s.pcs[i]);
    if s.pcs[i].Try? { EmptyLook(s.q, i, s.pcs[i]); }
    if s.pcs[i].Locked? && Enabled(s, CheckLocked(i)) { EmptyLocked(s.q, i, s.pcs[i]); }
  }

  lemma EmptyLook(q: Queue, i: nat, p: Pc)
    requires ShapeOk(q) && LoadingOk(q, i, p) && p.Try?
    ensures LooksEmpty(p.hd, p.push, p.tb) ==> p.at == Index(p.hd) <= |q.winner|
  {
  }

  lemma EmptyLocked(q: Queue, i: nat, p: Pc)
    requires ShapeOk(q) && LockOk(q, i, p) && p.Locked? && Can(q, p, CheckLocked(i)) && q.blocks[p.b].start == 32 * p.b
    ensures Goes(q, p, CheckLocked(i)).Recover? ==> |q.winner| == q.push
  {
  }

  predicate HasHead(p: Pc) { p.LoadIndex? || p.LoadBlock? || p.Try? }

  /** In a `pop`, `bulk_pop` or `local_pop` that has claimed nothing. */
  predicate InTake(p: Pc) { p.LoadHead? || HasHead(p) || p.Locked? }

  /** The step that answers that there is nothing to take. */
  predicate AnswersEmpty(s: State, a: Action)
    requires Enabled(s, a)
  {
    var p := s.pcs[a.i];
    (a.TryCas? && LooksEmpty(p.hd, p.push, p.tb)) || (a.CheckLocked? && Goes(s.q, p, a).Recover?)
  }

  /** `s` is a state in which the head was as a thread at `p` saw it. */
  predicate SawHead(s: State, p: Pc)
    requires HasHead(p)
  {
    s.q.push == p.at && |s.q.winner| == Index(p.hd)
  }

  /** A thread's view of the head is that of the state before the step, or the one it had. */
  lemma HeadLoaded(s: State, a: Action, i: nat)
    requires ShapeOk(s.q) && Enabled(s, a) && i < |s.pcs| && HasHead(Next(s, a).pcs[i])
    ensures var p, r := s.pcs[i], Next(s, a).pcs[i];
            InTake(p) && (SawHead(s, r) || (HasHead(p) && r.hd == p.hd && r.at == p.at))
  {
  }

  ghost predicate InTakeSince(run: seq<State>, i: nat, k: nat) {
    forall j :: k <= j < |run| ==> i < |run[j].pcs| && InTake(run[j].pcs[i])
  }

  lemma StartsIdle(s: State)
    requires Initial(s)
    ensures forall i :: 0 <= i < |s.pcs| ==> s.pcs[i].Idle?
  {
  }

  lemma FrontIsRun(run: seq<State>)
    requires IsRun(Initial, Step, run) && |run| > 1
    ensures IsRun(Initial, Step, run[..|run| - 1]) && Reachable(run[|run| - 2])
  {
    var front := run[..|run| - 1];
    assert IsRun(Initial, Step, front) && front[|front| - 1] == run[|run| - 2];
  }

  lemma LastStep(run: seq<State>) returns (a: Action)
    requires IsRun(Initial, Step, run) && |run| > 1
    ensures var n := |run| - 1;
            ShapeOk(run[n - 1].q) && Enabled(run[n - 1], a) && run[n] == Next(run[n - 1], a)
  {
    var n := |run| - 1;
    var s := run[n - 1];
    assert Step(s, run[n]);
    FrontIsRun(run);
    ReachableInv(s);
    a :| Enabled(s, a) && run[n] == Next(s, a);
  }

  lemma StillInTake(run: seq<State>, i: nat, k: nat)
    requires |run| > 1 && InTakeSince(run[..|run| - 1], i, k)
    requires i < |run[|run| - 1].pcs| && InTake(run[|run| - 1].pcs[i])
    ensures InTakeSince(run, i, k)
  {
    forall j | k <= j < |run| ensures i < |run[j].pcs| && InTake(run[j].pcs[i]) {
      assert j < |run| - 1 ==> run[j] == run[..|run| - 1][j];
    }
  }

  /** The last step loaded the head, or it left the thread its view. */
  lemma LastLoad(run: seq<State>, i: nat)
    requires IsRun(Initial, Step, run) && i < |run[|run| - 1].pcs| && HasHead(run[|run| - 1].pcs[i])
    ensures |run| > 1
    ensures var s, r := run[|run| - 2], run[|run| - 1].pcs[i];
            && i < |s.pcs| && InTake(s.pcs[i])
            && (SawHead(s, r) || (HasHead(s.pcs[i]) && r.hd == s.pcs[i].hd && r.at == s.pcs[i].at))
  {
    StartsIdle(run[0]);
    var a := LastStep(run);
    HeadLoaded(run[|run| - 2], a, i);
  }

  /** The head that a thread saw was the head at some moment of its call. */
  lemma {:induction false} HeadWasSeen(run: seq<State>, i: nat) returns (k: nat)
    requires IsRun(Initial, Step, run) && i < |run[|run| - 1].pcs| && HasHead(run[|run| - 1].pcs[i])
    ensures k < |run| && SawHead(run[k], run[|run| - 1].pcs[i]) && InTakeSince(run, i, k)
  {
    var n := |run| - 1;
    LastLoad(run, i);
    if SawHead(run[n - 1], run[n].pcs[i]) {
      k := n - 1;
    } else {
      FrontIsRun(run);
      k := HeadWasSeen(run[..n], i);
      StillInTake(run, i, k);
    }
  }

  /**
   * An empty answer is true of some moment of the call: in every run that ends before one there is a state, with
   * the thread in the call ever since, in which every committed index was claimed.
   */
  lemma EmptyAtSomeMoment(run: seq<State>, a: Action)
    requires IsRun(Initial, Step, run) && Enabled(run[|run| - 1], a) && AnswersEmpty(run[|run| - 1], a)
    ensures exists k :: 0 <= k < |run| && run[k].q.push == |run[k].q.winner| && InTakeSince(run, a.i, k)
  {
    var s := run[|run| - 1];
    assert Reachable(s);
    EmptyMeansClaimed(s, a.i);
    if a.TryCas? {
      var k := HeadWasSeen(run, a.i);
      assert run[k].q.push == |run[k].q.winner|;
    } else {
      assert InTakeSince(run, a.i, |run| - 1);
    }
  }

  lemma {:induction false} ClearCounts(flags: seq<bool>, lo: nat, hi: nat, n: nat)
    requires lo <= n < hi <= |flags| && !flags[n]
    ensures Unmarked(flags, lo, hi) > 0
    decreases hi
  {
    if n < hi - 1 { ClearCounts(flags, lo, hi - 1, n); }
  }

  /** A block with an uncounted slot is not freed. */
  lemma UncountedKeeps(q: Queue, b: nat, n: nat)
    requires QueueOk(q) && b < |q.blocks| && 32 * b <= n < 32 * b + 32 && !q.marked[n]
    ensures !q.blocks[b].freed
  {
    ClearCounts(q.marked, 32 * b, 32 * b + 32, n);
  }

  /** No step touches a freed block, nor frees one twice. */
  lemma NoUseAfterFree(s: State, a: Action)
    requires Reachable(s) && Enabled(s, a) && Touches(s.q, s.pcs[a.i], a) != -1
    ensures var b := Touches(s.q, s.pcs[a.i], a); 0 <= b < |s.q.blocks| && !s.q.blocks[b].freed
  {
    ReachableInv(s);
    var p := s.pcs[a.i];
    assert PcOk(s.q, a.i, p);
    if a.CheckLocked? || a.GetNext? || a.CheckReady? || a.ReadSlot? || a.MarkRead? { ClaimedAlive(s, a); }
    else if a.Write? || a.Link? { UncountedKeeps(s.q, s.q.tb, s.q.push); }
  }

  /** The block in which a thread has claimed slots, or that it has locked, is not freed. */
  lemma ClaimedAlive(s: State, a: Action)
    requires Inv(s) && Enabled(s, a) && (a.CheckLocked? || a.GetNext? || a.CheckReady? || a.ReadSlot? || a.MarkRead?)
    ensures var b := s.pcs[a.i].b; b < |s.q.blocks| && !s.q.blocks[b].freed
  {
    var p := s.pcs[a.i];
    assert PcOk(s.q, a.i, p);
    if a.CheckLocked? || a.GetNext? { UncountedKeeps(s.q, p.b, |s.q.winner|); }
    else { UncountedKeeps(s.q, p.b, 32 * p.b + p.id); }
  }

  /** A block is freed only after all of its 32 slots were read. */
  lemma FreedAfterAllRead(s: State, b: nat, n: nat)
    requires Reachable(s) && b < |s.q.blocks| && s.q.blocks[b].freed && 32 * b <= n < 32 * b + 32
    ensures n in s.q.got && n < Index(s.q.head)
  {
    ReachableInv(s);
    if !s.q.marked[n] { UncountedKeeps(s.q, b, n); }
  }

  /** A thread that still has business with block `b`: slots to read or to count, or the block to free. */
  predicate AtBlock(p: Pc, b: nat) { (HasClaim(p) || p.Freeing?) && p.b == b }

  /** The counter of a block is positive only while one of its slots is not counted. */
  lemma {:induction false} SomeUnmarked(flags: seq<bool>, lo: nat, hi: nat) returns (n: nat)
    requires lo <= hi <= |flags| && Unmarked(flags, lo, hi) > 0
    ensures lo <= n < hi && !flags[n]
    decreases hi
  {
    if flags[hi - 1] { n := SomeUnmarked(flags, lo, hi - 1); } else { n := hi - 1; }
  }

  lemma FreerAtBlock(q: Queue, pcs: seq<Pc>, b: nat)
    requires FreersOk(q, pcs) && b < |q.blocks| && q.blocks[b].used == 0
    ensures q.blocks[b].freed || exists i :: 0 <= i < |pcs| && AtBlock(pcs[i], b)
  {
    assert FreeDue(q, pcs, b);
    if !q.blocks[b].freed { assert AtBlock(pcs[q.freer[b]], b); }
  }

  lemma UncountedAtBlock(q: Queue, pcs: seq<Pc>, b: nat)
    requires BlocksOk(q.blocks, q.marked, q.tb, q.phase) && GotOk(q.marked, q.got, |q.winner|)
    requires PcsOk(q, pcs) && ClaimersOk(q, pcs) && b < |q.blocks| && q.blocks[b].used != 0
    requires forall n :: 32 * b <= n < 32 * b + 32 ==> n in q.got
    ensures exists i :: 0 <= i < |pcs| && AtBlock(pcs[i], b)
  {
    var n := SomeUnmarked(q.marked, 32 * b, 32 * b + 32);
    assert n in q.got;
    CovererAtBlock(q, pcs, b, n);
  }

  /**
   * A block all of whose 32 slots were read is freed, or some thread still has to count its slots
   * or to free it: no block is forgotten.
   */
  lemma AllReadIsFreed(s: State, b: nat)
    requires Reachable(s) && b < |s.q.blocks| && forall n :: 32 * b <= n < 32 * b + 32 ==> n in s.q.got
    ensures s.q.blocks[b].freed || exists i :: 0 <= i < |s.pcs| && AtBlock(s.pcs[i], b)
  {
    ReachableInv(s);
    if s.q.blocks[b].used == 0 {
      FreerAtBlock(s.q, s.pcs, b);
    } else {
      UncountedAtBlock(s.q, s.pcs, b);
    }
  }

  lemma CovererAtBlock(q: Queue, pcs: seq<Pc>, b: nat, n: nat)
    requires PcsOk(q, pcs) && ClaimersOk(q, pcs) && 32 * b <= n < 32 * b + 32
    requires n < |q.winner| && n < |q.marked| && !q.marked[n]
    ensures exists i :: 0 <= i < |pcs| && AtBlock(pcs[i], b)
  {
    var i := q.winner[n];
    assert Covers(pcs[i], n) && PcOk(q, i, pcs[i]);
    SameBlock(pcs[i], b, n);
  }

  lemma SameBlock(p: Pc, b: nat, n: nat)
    requires Covers(p, n) && p.to <= 32 && 32 * b <= n < 32 * b + 32
    ensures AtBlock(p, b)
  {
  }

  /** Once nobody is at work on a block, it is freed exactly when all of its slots were read. */
  lemma FreedExactly(s: State, b: nat)
    requires Reachable(s) && b < |s.q.blocks| && forall i :: 0 <= i < |s.pcs| ==> !AtBlock(s.pcs[i], b)
    ensures s.q.blocks[b].freed <==> forall n :: 32 * b <= n < 32 * b + 32 ==> n in s.q.got
  {
    if s.q.blocks[b].freed {
      forall n | 32 * b <= n < 32 * b + 32 ensures n in s.q.got { FreedAfterAllRead(s, b, n); }
    } else if forall n :: 32 * b <= n < 32 * b + 32 ==> n in s.q.got {
      AllReadIsFreed(s, b);
    }
  }

  /**
   * Without address reuse the sleep loops never wait, and local_pop never meets a slot it has to
   * ignore.
   */
  lemma SleepNeverNeeded(s: State, i: nat)
    requires Reachable(s) && i < |s.pcs|
    ensures s.pcs[i].Claimed? ==> Enabled(s, CheckReady(i))
    ensures !s.pcs[i].Skipping?
  {
    ReachableInv(s);
    ClaimerCanMove(s, i);
  }

  lemma ClaimerCanMove(s: State, i: nat)
    requires Inv(s) && i < |s.pcs|
    ensures s.pcs[i].Claimed? ==> Enabled(s, CheckReady(i))
    ensures !s.pcs[i].Skipping?
  {
    assert PcOk(s.q, i, s.pcs[i]);
  }

  /** A claimed slot is committed when its turn to be read comes. */
  lemma ReaderCanMove(s: State, i: nat)
    requires Inv(s) && i < |s.pcs| && s.pcs[i].Reading?
    ensures Enabled(s, ReadSlot(i))
  {
    assert PcOk(s.q, i, s.pcs[i]);
  }

  /** The count of unread slots covers the slots that are about to be subtracted. */
  lemma MarkerCanMove(s: State, i: nat)
    requires Inv(s) && i < |s.pcs| && s.pcs[i].Marking?
    ensures Enabled(s, MarkRead(i))
  {
    var p := s.pcs[i];
    assert ClaimOk(s.q, i, p);
    UnmarkedDrops(s.q.marked, 32 * p.b, 32 * p.b + 32, 32 * p.b + p.id, 32 * p.b + p.to);
  }

  lemma LockerCanMove(s: State, i: nat)
    requires Inv(s) && i < |s.pcs| && (s.pcs[i].Locked? || s.pcs[i].ReadNext? || s.pcs[i].Freeing?)
    ensures s.pcs[i].Locked? ==> Enabled(s, CheckLocked(i))
    ensures s.pcs[i].ReadNext? ==> Enabled(s, GetNext(i))
    ensures s.pcs[i].Freeing? ==> Enabled(s, FreeBlock(i))
  {
    assert PcOk(s.q, i, s.pcs[i]);
  }

  lemma OwnerCanMove(s: State, i: nat)
    requires Inv(s) && i < |s.pcs| && (s.pcs[i].Writing? || s.pcs[i].Linking?)
    ensures s.pcs[i].Writing? ==> Enabled(s, Write(i))
    ensures s.pcs[i].Linking? ==> Enabled(s, Link(i))
  {
    assert OwnerOk(s.q, i, s.pcs[i]);
  }

  /** The steps that need nothing but their turn. */
  lemma FreeMove(s: State, i: nat)
    requires i < |s.pcs| && var p := s.pcs[i]; p.LoadHead? || p.LoadIndex? || p.LoadBlock? || p.Recover? || p.SetHead?
                                                || p.Allocating? || p.Moving? || p.Committing?
    ensures exists a: Action :: a.i == i && Enabled(s, a) && !a.TryCas?
  {
    match s.pcs[i]
    case LoadHead(_) => assert Enabled(s, GetHead(i));
    case LoadIndex(_, _, _) => assert Enabled(s, GetIndex(i));
    case LoadBlock(_, _, _, _) => assert Enabled(s, GetBlock(i));
    case Recover(_, _) => assert Enabled(s, Restore(i));
    case SetHead(_, _, _, _) => assert Enabled(s, StoreHead(i));
    case Allocating(_) => assert Enabled(s, Alloc(i));
    case Moving(_, _) => assert Enabled(s, MoveTail(i));
    case Committing(_) => assert Enabled(s, Commit(i));
  }

  /** A thread that is not about to compare-exchange the head has a step. */
  lemma CanMove(s: State, i: nat)
    requires Inv(s) && i < |s.pcs| && !s.pcs[i].Idle? && !s.pcs[i].Try?
    ensures exists a: Action :: a.i == i && Enabled(s, a) && !a.TryCas?
  {
    match s.pcs[i]
    case Locked(_, _, _, _) => LockerCanMove(s, i);
    case ReadNext(_, _) => LockerCanMove(s, i);
    case Freeing(_) => LockerCanMove(s, i);
    case Claimed(_, _, _, _, _) => ClaimerCanMove(s, i);
    case Skipping => ClaimerCanMove(s, i);
    case Reading(_, _, _, _) => ReaderCanMove(s, i);
    case Marking(_, _, _) => MarkerCanMove(s, i);
    case Writing(_) => OwnerCanMove(s, i);
    case Linking(_, _) => OwnerCanMove(s, i);
    case _ => FreeMove(s, i);
  }

  /** A step that gets a thread further, that is, any but a compare-exchange that fails. */
  predicate Gains(s: State, a: Action) {
    Enabled(s, a) && (a.TryCas? ==> var p := s.pcs[a.i]; LooksEmpty(p.hd, p.push, p.tb) || CasWins(s.q, p, a))
  }

  /**
   * A thread inside a call has a step that gets it further; or the head is locked by another thread,
   * which has one; or the head has moved since the thread loaded it, that is, others claimed slots.
   */
  lemma NeverBlocked(s: State, i: nat)
    requires Reachable(s) && i < |s.pcs| && !s.pcs[i].Idle?
    ensures || (exists a: Action :: a.i == i && Gains(s, a))
            || (s.q.head.locked && s.q.locker < |s.pcs| && HoldsLock(s.pcs[s.q.locker])
                && exists a: Action :: a.i == s.q.locker && Gains(s, a))
            || (s.pcs[i].Try? && !s.q.head.locked && Index(s.pcs[i].hd) < Index(s.q.head))
  {
    ReachableInv(s);
    if !s.pcs[i].Try? {
      CanMove(s, i);
      var a: Action :| a.i == i && Enabled(s, a) && !a.TryCas?;
      assert Gains(s, a);
    } else if s.q.head.locked {
      CanMove(s, s.q.locker);
      var a: Action :| a.i == s.q.locker && Enabled(s, a) && !a.TryCas?;
      assert Gains(s, a);
    } else {
      HeadMovedOn(s, i);
    }
  }

  lemma HeadMovedOn(s: State, i: nat)
    requires Inv(s) && i < |s.pcs| && s.pcs[i].Try? && !s.q.head.locked
    ensures Gains(s, TryCas(i, false)) || Index(s.pcs[i].hd) < Index(s.q.head)
  {
    assert PcOk(s.q, i, s.pcs[i]);
  }
}
