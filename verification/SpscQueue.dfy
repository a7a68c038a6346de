/**
 * The block queue of may_queue/src/spsc.rs with one producer, one consumer and block recycling,
 * as a step machine: one step per access to memory that the other side may read or write.
 */
module SpscQueue {
  import opened Traces

  const SIZE: nat := 32

  /** How far a bulk pop may go: to the end of the block or of what is pushed. */
  function BulkEnd(start: nat, end: nat): (r: nat)
    requires start < end
    ensures start < r <= end && start / SIZE == (r - 1) / SIZE
    ensures r == end || r % SIZE == 0
  {
    var blockEnd := (start + SIZE) / SIZE * SIZE;
    if end < blockEnd then end else blockEnd
  }

  datatype Block = Block(slots: seq<int>, next: nat)

  /** What the two sides keep: block addresses are indices of `blocks`. */
  datatype Queue = Queue(
    blocks: seq<Block>, tailIndex: nat, tailBlock: nat, first: nat, lastHead: nat, headIndex: nat, headBlock: nat)

  /**
   * History: the values pushed and popped; the address that each block number ever had; the
   * block numbers that `first` and `lastHead` stand for.
   */
  datatype Trace = Trace(log: seq<int>, out: seq<int>, chain: seq<nat>, f: nat, lh: nat)

  datatype Producer =
    | Between                // between calls
    | Full                  // wrote the last slot of a block, about to get another
    | Got(block: nat)       // has it, about to link it
    | Committing            // about to store `tail.index`

  datatype Consumer =
    | Idle
    | Reading(k: nat, end: nat)      // about to read slot `k`
    | Turning(end: nat)              // read the last slot of a block, about to load its `next`
    | Moving(end: nat, block: nat)   // about to store `head.block`
    | Closing(end: nat)              // about to store `head.index`

  datatype State = State(q: Queue, pp: Producer, cp: Consumer, tr: Trace)

  datatype Action = Push(v: int) | Alloc | Link | Commit | PopStart(bulk: bool) | Read | Turn | Move | Close

  function Fresh(): Block { Block(seq(SIZE, _ => 0), 0) }

  function Start(): State {
    State(Queue([Fresh()], 0, 0, 0, 0, 0, 0), Between, Idle, Trace([], [], [0], 0, 0))
  }

  predicate Enabled(s: State, a: Action) {
    match a
    case Push(_) => s.pp.Between? && s.q.tailBlock < |s.q.blocks| && |s.q.blocks[s.q.tailBlock].slots| == SIZE
    case Alloc => s.pp.Full? && s.q.first < |s.q.blocks|
    case Link => s.pp.Got? && s.q.tailBlock < |s.q.blocks|
    case Commit => s.pp.Committing?
    case PopStart(_) => s.cp.Idle? && s.q.headIndex < s.q.tailIndex
    case Read => s.cp.Reading? && s.q.headBlock < |s.q.blocks| && |s.q.blocks[s.q.headBlock].slots| == SIZE
    case Turn => s.cp.Turning? && s.q.headBlock < |s.q.blocks|
    case Move => s.cp.Moving?
    case Close => s.cp.Closing?
  }

  function PushStep(s: State, v: int): State
    requires Enabled(s, Push(v))
  {
    var q := s.q;
    var b := q.blocks[q.tailBlock];
    s.(q := q.(blocks := q.blocks[q.tailBlock := b.(slots := b.slots[q.tailIndex % SIZE := v])]),
       tr := s.tr.(log := s.tr.log + [v]),
       pp := if (q.tailIndex + 1) % SIZE == 0 then Full else Committing)
  }

  /** `alloc_node`: the oldest block that the consumer has left, or a new one. */
  function AllocStep(s: State): State
    requires Enabled(s, Alloc)
  {
    var lastHead := if s.q.first != s.q.lastHead then s.q.lastHead else s.q.headBlock;
    var q := s.q.(lastHead := lastHead);
    var tr := if s.q.first != s.q.lastHead then s.tr else s.tr.(lh := HeadNumber(s));
    if q.first != lastHead then
      State(q.(first := q.blocks[q.first].next), Got(q.first), s.cp, tr.(f := tr.f + 1))
    else
      State(q.(blocks := q.blocks + [Fresh()]), Got(|q.blocks|), s.cp, tr)
  }

  function LinkStep(s: State): State
    requires Enabled(s, Link)
  {
    var q, nb := s.q, s.pp.block;
    s.(q := q.(blocks := q.blocks[q.tailBlock := q.blocks[q.tailBlock].(next := nb)], tailBlock := nb),
       pp := Committing, tr := s.tr.(chain := s.tr.chain + [nb]))
  }

  function ReadStep(s: State): State
    requires Enabled(s, Read)
  {
    var k, end := s.cp.k, s.cp.end;
    s.(tr := s.tr.(out := s.tr.out + [s.q.blocks[s.q.headBlock].slots[k % SIZE]]),
       cp := if k + 1 < end then Reading(k + 1, end) else if end % SIZE == 0 then Turning(end) else Closing(end))
  }

  function Next(s: State, a: Action): State
    requires Enabled(s, a)
  {
    match a
    case Push(v) => PushStep(s, v)
    case Alloc => AllocStep(s)
    case Link => LinkStep(s)
    case Commit => s.(q := s.q.(tailIndex := s.q.tailIndex + 1), pp := Between)
    case PopStart(bulk) =>
      var i := s.q.headIndex;
      s.(cp := Reading(i, if bulk then BulkEnd(i, s.q.tailIndex) else i + 1))
    case Read => ReadStep(s)
    case Turn => s.(cp := Moving(s.cp.end, s.q.blocks[s.q.headBlock].next))
    case Move => s.(q := s.q.(headBlock := s.cp.block), cp := Closing(s.cp.end))
    case Close => s.(q := s.q.(headIndex := s.cp.end), cp := Idle)
  }

  // ---------------------------------------------------------------- the invariant

  /** The number of the block that `head.block` stands for. */
  function HeadNumber(s: State): nat { (if s.cp.Closing? then s.cp.end else s.q.headIndex) / SIZE }

  /** The blocks from `first` on: all different, all linked, and all the blocks there are. */
  ghost predicate Ring(blocks: seq<Block>, chain: seq<nat>, f: nat) {
    && f < |chain|
    && (forall n :: f <= n < |chain| ==> chain[n] < |blocks|)
    && (forall m, n :: f <= m < n < |chain| ==> chain[m] != chain[n])
    && (forall n :: f <= n < |chain| - 1 ==> blocks[chain[n]].next == chain[n + 1])
    && (forall b :: 0 <= b < |blocks| ==> |blocks[b].slots| == SIZE)
  }

  ghost predicate StoredAt(blocks: seq<Block>, chain: seq<nat>, log: seq<int>, n: nat) {
    && n < |log| && n / SIZE < |chain| && chain[n / SIZE] < |blocks|
    && |blocks[chain[n / SIZE]].slots| == SIZE && blocks[chain[n / SIZE]].slots[n % SIZE] == log[n]
  }

  /** No value is overwritten before its block is recycled. */
  ghost predicate Stored(blocks: seq<Block>, chain: seq<nat>, f: nat, log: seq<int>) {
    forall n :: SIZE * f <= n < |log| ==> StoredAt(blocks, chain, log, n)
  }

  predicate Places(q: Queue, tr: Trace, h: nat) {
    && tr.f <= tr.lh <= h < |tr.chain|
    && q.first == tr.chain[tr.f] && q.lastHead == tr.chain[tr.lh]
    && q.headBlock == tr.chain[h] && q.tailBlock == tr.chain[|tr.chain| - 1]
  }

  ghost predicate ProducerOk(q: Queue, tr: Trace, pp: Producer) {
    && |tr.log| == (if pp.Between? then q.tailIndex else q.tailIndex + 1)
    && |tr.chain| - 1 == (if pp.Committing? then |tr.log| else q.tailIndex) / SIZE
    && (pp.Full? || pp.Got? ==> |tr.log| % SIZE == 0)
    && |q.blocks| == |tr.chain| - tr.f + (if pp.Got? then 1 else 0)
    && (pp.Got? ==> pp.block < |q.blocks| && forall n :: tr.f <= n < |tr.chain| ==> tr.chain[n] != pp.block)
  }

  /** `done` values are out, and `end` is where the index will be stored. */
  predicate Progress(q: Queue, tr: Trace, done: nat, end: nat) {
    q.headIndex <= done <= end <= q.tailIndex <= |tr.log| && tr.out == tr.log[..done]
  }

  predicate ConsumerOk(q: Queue, tr: Trace, cp: Consumer) {
    match cp
    case Idle => Progress(q, tr, q.headIndex, q.headIndex)
    case Reading(k, end) => Progress(q, tr, k, end) && k < end && q.headIndex / SIZE == (end - 1) / SIZE
    case Turning(end) => Progress(q, tr, end, end) && end == (q.headIndex / SIZE + 1) * SIZE
    case Moving(end, b) =>
      && Progress(q, tr, end, end) && end == (q.headIndex / SIZE + 1) * SIZE
      && q.headIndex / SIZE + 1 < |tr.chain| && b == tr.chain[q.headIndex / SIZE + 1]
    case Closing(end) => Progress(q, tr, end, end)
  }

  ghost predicate Control(s: State) {
    Places(s.q, s.tr, HeadNumber(s)) && ProducerOk(s.q, s.tr, s.pp) && ConsumerOk(s.q, s.tr, s.cp)
  }

  ghost predicate Memory(blocks: seq<Block>, tr: Trace) {
    Ring(blocks, tr.chain, tr.f) && Stored(blocks, tr.chain, tr.f, tr.log)
  }

  ghost predicate Inv(s: State) { Control(s) && Memory(s.q.blocks, s.tr) }

  // ---------------------------------------------------------------- the blocks

  lemma WriteSlot(blocks: seq<Block>, chain: seq<nat>, f: nat, log: seq<int>, v: int)
    requires Ring(blocks, chain, f) && Stored(blocks, chain, f, log) && |chain| - 1 == |log| / SIZE
    ensures var b := chain[|chain| - 1];
            var after := blocks[b := blocks[b].(slots := blocks[b].slots[|log| % SIZE := v])];
            Ring(after, chain, f) && Stored(after, chain, f, log + [v])
  {
    var top := |chain| - 1;
    var b := chain[top];
    var after := blocks[b := blocks[b].(slots := blocks[b].slots[|log| % SIZE := v])];
    forall n | SIZE * f <= n < |log + [v]|
      ensures StoredAt(after, chain, log + [v], n)
    {
      assert n < |log| ==> StoredAt(blocks, chain, log, n);
      assert n / SIZE != top ==> chain[n / SIZE] != chain[top];
    }
  }

  lemma GrowRing(blocks: seq<Block>, chain: seq<nat>, f: nat, log: seq<int>)
    requires Ring(blocks, chain, f) && Stored(blocks, chain, f, log)
    ensures Ring(blocks + [Fresh()], chain, f) && Stored(blocks + [Fresh()], chain, f, log)
  {
    forall n | SIZE * f <= n < |log|
      ensures StoredAt(blocks + [Fresh()], chain, log, n)
    {
      assert StoredAt(blocks, chain, log, n);
    }
  }

  lemma DropFirst(blocks: seq<Block>, chain: seq<nat>, f: nat, log: seq<int>)
    requires Ring(blocks, chain, f) && Stored(blocks, chain, f, log) && f + 1 < |chain|
    ensures Ring(blocks, chain, f + 1) && Stored(blocks, chain, f + 1, log)
    ensures forall n :: f + 1 <= n < |chain| ==> chain[n] != chain[f]
  {
  }

  lemma LinkLast(blocks: seq<Block>, chain: seq<nat>, f: nat, log: seq<int>, nb: nat)
    requires Ring(blocks, chain, f) && Stored(blocks, chain, f, log)
    requires nb < |blocks| && forall n :: f <= n < |chain| ==> chain[n] != nb
    ensures var b := chain[|chain| - 1];
            var after := blocks[b := blocks[b].(next := nb)];
            Ring(after, chain + [nb], f) && Stored(after, chain + [nb], f, log)
  {
    var b, more := chain[|chain| - 1], chain + [nb];
    var after := blocks[b := blocks[b].(next := nb)];
    forall n | f <= n < |more| - 1
      ensures after[more[n]].next == more[n + 1]
    {
      assert n < |chain| - 1 ==> chain[n] != b && blocks[chain[n]].next == chain[n + 1];
    }
    forall n | SIZE * f <= n < |log|
      ensures StoredAt(after, more, log, n)
    {
      assert StoredAt(blocks, chain, log, n);
    }
  }

  // ---------------------------------------------------------------- the steps

  lemma PushControl(s: State, v: int)
    requires Control(s) && Enabled(s, Push(v))
    ensures Control(PushStep(s, v))
  {
    assert forall n :: 0 <= n <= |s.tr.log| ==> (s.tr.log + [v])[..n] == s.tr.log[..n];
  }

  /** `first` can move on exactly when the consumer has left its block. */
  lemma FirstMoves(s: State, lh: nat)
    requires Control(s) && Ring(s.q.blocks, s.tr.chain, s.tr.f)
    requires lh == if s.q.first != s.q.lastHead then s.tr.lh else HeadNumber(s)
    ensures s.tr.f <= lh <= HeadNumber(s) && s.tr.lh <= lh
    ensures s.q.first != s.tr.chain[lh] <==> s.tr.f < lh
    ensures s.tr.f == lh ==> lh == HeadNumber(s)
    ensures s.q.first < |s.q.blocks| && (s.tr.f < lh ==> s.q.blocks[s.q.first].next == s.tr.chain[s.tr.f + 1])
  {
  }

  function Recycled(s: State, lh: nat): State
    requires s.q.first < |s.q.blocks| && lh < |s.tr.chain|
  {
    State(s.q.(first := s.q.blocks[s.q.first].next, lastHead := s.tr.chain[lh]), Got(s.q.first), s.cp,
          s.tr.(f := s.tr.f + 1, lh := lh))
  }

  function Grown(s: State, lh: nat): State
    requires lh < |s.tr.chain|
  {
    State(s.q.(blocks := s.q.blocks + [Fresh()], lastHead := s.tr.chain[lh]), Got(|s.q.blocks|), s.cp, s.tr.(lh := lh))
  }

  lemma AllocIs(s: State, lh: nat)
    requires Control(s) && s.pp.Full? && s.q.first < |s.q.blocks|
    requires lh == (if s.q.first != s.q.lastHead then s.tr.lh else HeadNumber(s))
    requires s.q.first != s.tr.chain[lh] <==> s.tr.f < lh
    ensures AllocStep(s) == if s.tr.f < lh then Recycled(s, lh) else Grown(s, lh)
  {
  }

  lemma AllocKeeps(s: State)
    requires Inv(s) && Enabled(s, Alloc)
    ensures Inv(AllocStep(s))
  {
    var lh := if s.q.first != s.q.lastHead then s.tr.lh else HeadNumber(s);
    FirstMoves(s, lh);
    AllocIs(s, lh);
    if s.tr.f < lh { RecycleKeeps(s, lh); } else { GrowKeeps(s, lh); }
  }

  lemma RecycleKeeps(s: State, lh: nat)
    requires Inv(s) && s.pp.Full? && s.tr.f < lh <= HeadNumber(s) && s.tr.lh <= lh
    requires s.q.first < |s.q.blocks| && s.q.blocks[s.q.first].next == s.tr.chain[s.tr.f + 1]
    ensures Inv(Recycled(s, lh))
  {
    DropFirst(s.q.blocks, s.tr.chain, s.tr.f, s.tr.log);
    RecycleControl(s, lh);
  }

  lemma GrowKeeps(s: State, lh: nat)
    requires Inv(s) && s.pp.Full? && s.tr.f == lh == HeadNumber(s)
    ensures Inv(Grown(s, lh))
  {
    GrowRing(s.q.blocks, s.tr.chain, s.tr.f, s.tr.log);
    GrowControl(s, lh);
  }

  lemma RecycleControl(s: State, lh: nat)
    requires Control(s) && s.pp.Full? && s.tr.f < lh <= HeadNumber(s) && s.tr.lh <= lh
    requires s.q.first < |s.q.blocks| && s.q.blocks[s.q.first].next == s.tr.chain[s.tr.f + 1]
    requires forall n :: s.tr.f + 1 <= n < |s.tr.chain| ==> s.tr.chain[n] != s.q.first
    ensures Control(Recycled(s, lh))
  {
  }

  lemma GrowControl(s: State, lh: nat)
    requires Control(s) && s.pp.Full? && s.tr.f == lh == HeadNumber(s)
    requires forall n :: s.tr.f <= n < |s.tr.chain| ==> s.tr.chain[n] < |s.q.blocks|
    ensures Control(Grown(s, lh))
  {
  }

  lemma LinkControl(s: State)
    requires Control(s) && Enabled(s, Link)
    ensures Control(LinkStep(s))
  {
  }

  lemma ReadConsumer(s: State)
    requires ConsumerOk(s.q, s.tr, s.cp) && Enabled(s, Read)
    requires s.q.blocks[s.q.headBlock].slots[s.cp.k % SIZE] == s.tr.log[s.cp.k]
    ensures ConsumerOk(s.q, ReadStep(s).tr, ReadStep(s).cp)
  {
    assert ReadStep(s).tr.out == s.tr.log[..s.cp.k + 1];
  }

  lemma ReadControl(s: State)
    requires Control(s) && Enabled(s, Read) && s.q.blocks[s.q.headBlock].slots[s.cp.k % SIZE] == s.tr.log[s.cp.k]
    ensures Control(ReadStep(s))
  {
    ReadConsumer(s);
    assert HeadNumber(ReadStep(s)) == HeadNumber(s);
  }

  lemma ReadsTheLog(s: State)
    requires Inv(s) && s.cp.Reading?
    ensures s.cp.k < |s.tr.log| && s.q.headBlock < |s.q.blocks| && |s.q.blocks[s.q.headBlock].slots| == SIZE
    ensures s.q.blocks[s.q.headBlock].slots[s.cp.k % SIZE] == s.tr.log[s.cp.k]
  {
    var k := s.cp.k;
    assert k / SIZE == HeadNumber(s);
    assert StoredAt(s.q.blocks, s.tr.chain, s.tr.log, k);
  }

  lemma TurnsToNext(s: State)
    requires Inv(s) && s.cp.Turning?
    ensures HeadNumber(s) + 1 < |s.tr.chain| && s.q.headBlock < |s.q.blocks|
    ensures s.q.blocks[s.q.headBlock].next == s.tr.chain[HeadNumber(s) + 1]
  {
  }

  lemma OtherControl(s: State, a: Action)
    requires Control(s) && Enabled(s, a) && (a.Turn? || a.Commit? || a.PopStart? || a.Move? || a.Close?)
    requires a.Turn? ==> HeadNumber(s) + 1 < |s.tr.chain| && s.q.blocks[s.q.headBlock].next == s.tr.chain[HeadNumber(s) + 1]
    ensures Control(Next(s, a))
  {
  }

  lemma PushKeeps(s: State, v: int)
    requires Inv(s) && Enabled(s, Push(v))
    ensures Inv(PushStep(s, v))
  {
    PushControl(s, v);
    PushMemory(s, v);
  }

  lemma PushMemory(s: State, v: int)
    requires Memory(s.q.blocks, s.tr) && Enabled(s, Push(v))
    requires s.q.tailBlock == s.tr.chain[|s.tr.chain| - 1] && s.q.tailIndex == |s.tr.log| && |s.tr.chain| - 1 == |s.tr.log| / SIZE
    ensures Memory(PushStep(s, v).q.blocks, PushStep(s, v).tr)
  {
    WriteSlot(s.q.blocks, s.tr.chain, s.tr.f, s.tr.log, v);
  }

  lemma LinkKeeps(s: State)
    requires Inv(s) && Enabled(s, Link)
    ensures Inv(LinkStep(s))
  {
    LinkControl(s);
    LinkMemory(s);
  }

  lemma LinkMemory(s: State)
    requires Memory(s.q.blocks, s.tr) && Enabled(s, Link)
    requires s.q.tailBlock == s.tr.chain[|s.tr.chain| - 1] && s.pp.block < |s.q.blocks|
    requires forall n :: s.tr.f <= n < |s.tr.chain| ==> s.tr.chain[n] != s.pp.block
    ensures Memory(LinkStep(s).q.blocks, LinkStep(s).tr)
  {
    LinkLast(s.q.blocks, s.tr.chain, s.tr.f, s.tr.log, s.pp.block);
  }

  lemma ReadKeeps(s: State)
    requires Inv(s) && Enabled(s, Read)
    ensures Inv(ReadStep(s))
  {
    ReadsTheLog(s);
    ReadControl(s);
  }

  lemma OtherKeeps(s: State, a: Action)
    requires Inv(s) && Enabled(s, a) && (a.Turn? || a.Commit? || a.PopStart? || a.Move? || a.Close?)
    ensures Inv(Next(s, a))
  {
    if a.Turn? { TurnsToNext(s); }
    OtherControl(s, a);
    assert Next(s, a).q.blocks == s.q.blocks && Next(s, a).tr == s.tr;
  }

  lemma InvStep(s: State, a: Action)
    requires Inv(s) && Enabled(s, a)
    ensures Inv(Next(s, a))
  {
    match a
    case Push(v) => PushKeeps(s, v);
    case Alloc => AllocKeeps(s);
    case Link => LinkKeeps(s);
    case Read => ReadKeeps(s);
    case _ => OtherKeeps(s, a);
  }

  // ---------------------------------------------------------------- every run

  ghost predicate Initial(s: State) { s == Start() }

  ghost predicate Step(s: State, t: State) { exists a: Action :: Enabled(s, a) && t == Next(s, a) }

  ghost predicate Reachable(s: State) { Reached(Initial, Step, s) }

  lemma ReachableInv(s: State)
    requires Reachable(s)
    ensures Inv(s)
  {
    forall s1, s2 | Inv(s1) && Step(s1, s2) ensures Inv(s2) {
      var a: Action :| Enabled(s1, a) && s2 == Next(s1, a);
      InvStep(s1, a);
    }
    InvariantHolds(Initial, Step, Inv, s);
  }

  /** Whatever mix of pops and bulk pops: what came out is a prefix of what went in. */
  lemma PopsInOrder(s: State)
    requires Reachable(s)
    ensures s.tr.out <= s.tr.log && s.q.headIndex <= |s.tr.out| <= s.q.tailIndex <= |s.tr.log|
    ensures s.cp.Reading? ==> s.cp.k == |s.tr.out| && s.cp.k < s.cp.end <= s.q.tailIndex
  {
    ReachableInv(s);
  }

  /** Between calls the queue has taken in just the pushes that are over, and given out just what its pops returned. */
  lemma BetweenCalls(s: State)
    requires Reachable(s)
    ensures s.cp.Idle? ==> s.q.headIndex <= |s.tr.log| && s.tr.out == s.tr.log[..s.q.headIndex]
    ensures s.pp.Between? ==> s.q.tailIndex == |s.tr.log|
  {
    ReachableInv(s);
  }

  /** A pop takes one value, and a bulk pop as many as there are before the end of its block. */
  lemma PopTakes(s: State, bulk: bool)
    requires Reachable(s) && Enabled(s, PopStart(bulk))
    ensures var c := Next(s, PopStart(bulk)).cp;
            && c.Reading? && c.k == s.q.headIndex < c.end <= s.q.tailIndex
            && (if bulk then c.end == s.q.tailIndex || c.end % SIZE == 0 else c.end == c.k + 1)
  {
    ReachableInv(s);
  }

  /** A pop ends where it said it would. */
  lemma PopEnds(s: State, a: Action)
    requires Reachable(s) && Enabled(s, a) && !s.cp.Idle?
    ensures var c, d := s.cp, Next(s, a).cp; if d.Idle? then Next(s, a).q.headIndex == c.end else d.end == c.end
  {
    ReachableInv(s);
  }

  /** A pop that finds nothing has already returned every push that completed. */
  lemma EmptyMeansConsumed(s: State)
    requires Reachable(s) && s.cp.Idle? && s.q.headIndex == s.q.tailIndex
    ensures s.q.tailIndex <= |s.tr.log| && s.tr.out == s.tr.log[..s.q.tailIndex] && (s.pp.Between? ==> s.tr.out == s.tr.log)
  {
    ReachableInv(s);
  }

  /**
   * The block a push is about to append, recycled or new, is none of those from head to tail, and
   * those are linked in order.
   */
  lemma RecycledIsOutside(s: State, n: nat)
    requires Reachable(s) && HeadNumber(s) <= n < |s.tr.chain|
    ensures s.pp.Got? ==> s.tr.chain[n] != s.pp.block
    ensures s.tr.chain[HeadNumber(s)] == s.q.headBlock && s.tr.chain[|s.tr.chain| - 1] == s.q.tailBlock
    ensures s.tr.chain[n] < |s.q.blocks| && (n + 1 < |s.tr.chain| ==> s.q.blocks[s.tr.chain[n]].next == s.tr.chain[n + 1])
  {
    ReachableInv(s);
  }

  /** No side ever follows an address that is not a block: every thread in a call can go on. */
  lemma NeverBlocked(s: State)
    requires Reachable(s)
    ensures match s.pp
            case Between => forall v :: Enabled(s, Push(v))
            case Full => Enabled(s, Alloc)
            case Got(_) => Enabled(s, Link)
            case Committing => Enabled(s, Commit)
    ensures s.cp.Reading? ==> Enabled(s, Read)
    ensures s.cp.Turning? ==> Enabled(s, Turn)
  {
    ReachableInv(s);
  }

  // ---------------------------------------------------------------- how many blocks

  /** Values pushed, with the push in progress, and not yet popped. */
  function Occupancy(s: State): int { |s.tr.log| - s.q.headIndex }

  function Ceil(n: int): int { (n + SIZE - 1) / SIZE }

  /** The greatest occupancy on a run. */
  function Peak(run: seq<State>): int
    requires run != []
  {
    var last := |run| - 1;
    if last == 0 || Peak(run[..last]) < Occupancy(run[last]) then Occupancy(run[last]) else Peak(run[..last])
  }

  /** A new block is made only when the values in the queue fill all the others. */
  lemma AllocOnlyWhenFull(s: State, a: Action)
    requires Inv(s) && Enabled(s, a)
    ensures |Next(s, a).q.blocks| <= |s.q.blocks| || |Next(s, a).q.blocks| <= Ceil(Occupancy(s)) + 1
  {
    if a.Alloc? {
      var lh := if s.q.first != s.q.lastHead then s.tr.lh else HeadNumber(s);
      FirstMoves(s, lh);
      AllocIs(s, lh);
      FullSize(s);
    }
  }

  lemma FullSize(s: State)
    requires Control(s) && s.pp.Full?
    ensures |s.tr.chain| - HeadNumber(s) <= Ceil(Occupancy(s))
  {
  }

  lemma RunInv(run: seq<State>)
    requires IsRun(Initial, Step, run)
    ensures Inv(run[|run| - 1])
  {
    assert Reachable(run[|run| - 1]);
    ReachableInv(run[|run| - 1]);
  }

  /** Recycling bounds memory: one block more than the fullest the queue has been. */
  lemma {:induction false} BlocksEverAllocated(run: seq<State>)
    requires IsRun(Initial, Step, run)
    ensures |run[|run| - 1].q.blocks| <= Ceil(Peak(run)) + 1
  {
    if |run| > 1 {
      var front := run[..|run| - 1];
      assert IsRun(Initial, Step, front);
      BlocksEverAllocated(front);
      RunInv(front);
      var s := run[|run| - 2];
      assert front[|front| - 1] == s && Step(s, run[|run| - 1]);
      var a: Action :| Enabled(s, a) && run[|run| - 1] == Next(s, a);
      AllocOnlyWhenFull(s, a);
      PeakGrows(run);
    }
  }

  lemma PeakGrows(run: seq<State>)
    requires |run| > 1
    ensures var front := run[..|run| - 1];
            && Ceil(Peak(front)) <= Ceil(Peak(run)) && Ceil(Occupancy(run[|run| - 2])) <= Ceil(Peak(run))
  {
    var front := run[..|run| - 1];
    assert front[|front| - 1] == run[|run| - 2];
    assert Occupancy(run[|run| - 2]) <= Peak(front) <= Peak(run);
  }
}
