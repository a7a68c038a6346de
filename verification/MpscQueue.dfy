/**
 * The block-allocated mpsc queue of may_queue/src/mpsc.rs as a step machine: any number of
 * pushers and one consumer, interleaved one atomic operation at a time.
 *
 * Block `b` is the b-th block ever allocated; its 64 slots are the cells `64 * b ..` of `mem`.
 * A pointer is the block's number, -1 is null, and the packed tail word is a record.
 */
module MpscQueue {
  import opened Counting
  import opened Traces

  /** A slot: nothing, a value written but not flagged, or a value flagged ready. */
  datatype Slot = Empty | Written(v: int) | Ready(v: int)

  datatype Block = Block(start: nat, next: int, freed: bool)

  /** The packed tail: block, slot id and the lock bit. */
  datatype Tail = Tail(block: nat, id: nat, locked: bool)

  datatype PushPc =
    | Idle
    | Load(v: int)                 // about to load the tail
    | Cas(v: int, seen: Tail)      // about to compare-exchange it; the lock bit of `seen` is cleared
    | Store(v: int, b: nat, id: nat)  // won slot `id` of block `b`, about to write the value
    | Flag(b: nat, id: nat)        // value written, about to set `ready`
    | Alloc(b: nat)                // filled the last slot, about to allocate the next-next block
    | WaitNext(b: nat, extra: nat) // about to read `next` of the filled block
    | Link(next: nat, extra: nat)  // about to install `extra` behind the next block
    | Publish(next: nat)           // about to unlock the tail

  datatype PopPc =
    | Out
    | Scan(bulk: bool, acc: seq<int>)   // reading ready flags from the head on
    | LoadTail(bulk: bool)              // nothing ready, about to load the tail
    | ReadStart(bulk: bool, seen: Tail) // about to read the start index of the tail's block
    | Copy(end: nat, acc: seq<int>)     // spinning on claimed slots up to `end`
    | Commit(acc: seq<int>)             // about to store the new head index
    | SwapOld                           // block consumed, about to swap it into `old_block`
    | FreeOld(o: nat)                   // about to free the block swapped out
    | Advance                           // about to move the head to the next block

  /**
   * What pushers work on. History: `log` is the order in which pushes won the tail, `winner[n]`
   * who won index `n`, `done` the indices of completed pushes.
   */
  datatype Shared = Shared(
    mem: seq<Slot>, blocks: seq<Block>, tail: Tail, pushers: seq<PushPc>,
    log: seq<int>, winner: seq<nat>, done: set<nat>)

  /**
   * What the consumer works on. History: `out` is what it returned, `before` the pushes that were
   * complete when its current call began, `empty` whether its last call came back empty.
   */
  datatype Consumer = Consumer(
    index: nat, head: nat, delayed: int, popper: PopPc, out: seq<int>, before: set<nat>, empty: bool)

  /** The consumer's last call, and how many values had been returned when it began. */
  datatype PopCall = NoPop | PopCall(bulk: bool, from: nat)

  /**
   * What the callers see, written from the calls themselves: the argument of each pusher's last call, the
   * arguments in the order in which their calls won the tail, how many calls of `push` began, and the last pop.
   */
  datatype Ledger = Ledger(args: seq<int>, sent: seq<int>, calls: nat, pop: PopCall)

  datatype State = State(q: Shared, c: Consumer, h: Ledger)

  datatype Action =
    | CallPush(i: nat, v: int) | LoadPtr(i: nat) | TryCas(i: nat, spurious: bool)
    | WriteValue(i: nat) | SetReady(i: nat) | AllocBlock(i: nat) | ReadNext(i: nat)
    | LinkNext(i: nat) | StoreTail(i: nat)
    | CallPop(bulk: bool) | TryGet | ReadTail | Compare | Get | StoreIndex | SwapBlock | FreeBlock | NextBlock

  predicate ByPusher(a: Action) {
    a.CallPush? || a.LoadPtr? || a.TryCas? || a.WriteValue? || a.SetReady? || a.AllocBlock? ||
    a.ReadNext? || a.LinkNext? || a.StoreTail?
  }

  function Cells(n: nat): seq<Slot> { seq(n, _ => Empty) }

  function Start(threads: nat): State {
    State(Shared(Cells(128), [Block(0, 1, false), Block(64, -1, false)], Tail(0, 0, false),
                 seq(threads, _ => Idle), [], [], {}),
          Consumer(0, 0, -1, Out, [], {}, false), Ledger(seq(threads, _ => 0), [], 0, NoPop))
  }

  /** Position within its block of the consumer's k-th next slot, and the cell of that slot. */
  function Offset(c: Consumer, k: nat): nat { (c.index + k) % 64 }
  function Cell(c: Consumer, k: nat): nat { 64 * c.head + Offset(c, k) }

  /** `bulk_end`: as far as `end`, but not past the block of `start`. */
  function BulkEnd(start: nat, end: nat): (r: nat)
    requires start < end
    ensures start < r <= end && r <= start - start % 64 + 64
    ensures r == end || r % 64 == 0
  {
    var blockEnd := (start + 64) - (start + 64) % 64;
    if end < blockEnd then end else blockEnd
  }

  predicate PushEnabled(q: Shared, a: Action)
    requires ByPusher(a)
  {
    a.i < |q.pushers| &&
    var p := q.pushers[a.i];
    match a
    case CallPush(_, _) => p.Idle?
    case LoadPtr(_) => p.Load?
    case TryCas(_, _) => p.Cas?
    case WriteValue(_) => p.Store? && 64 * p.b + p.id < |q.mem|
    case SetReady(_) => p.Flag? && 64 * p.b + p.id < |q.mem| && q.mem[64 * p.b + p.id].Written?
    case AllocBlock(_) => p.Alloc? && p.b < |q.blocks|
    case ReadNext(_) => p.WaitNext? && p.b < |q.blocks| && q.blocks[p.b].next >= 0
    case LinkNext(_) => p.Link? && p.next < |q.blocks|
    case StoreTail(_) => p.Publish?
  }

  predicate PopEnabled(s: State, a: Action)
    requires !ByPusher(a)
  {
    var p := s.c.popper;
    match a
    case CallPop(_) => p.Out?
    case TryGet => p.Scan? && Cell(s.c, |p.acc|) < |s.q.mem|
    case ReadTail => p.LoadTail?
    case Compare => p.ReadStart? && p.seen.block < |s.q.blocks|
    case Get => p.Copy? && Cell(s.c, |p.acc|) < |s.q.mem| && s.q.mem[Cell(s.c, |p.acc|)].Ready?
    case StoreIndex => p.Commit?
    case SwapBlock => p.SwapOld?
    case FreeBlock => p.FreeOld? && p.o < |s.q.blocks|
    case NextBlock => p.Advance? && s.c.head < |s.q.blocks| && s.q.blocks[s.c.head].next >= 0
  }

  predicate Enabled(s: State, a: Action) {
    if ByPusher(a) then PushEnabled(s.q, a) else PopEnabled(s, a)
  }

  function Strip(t: Tail): Tail { t.(locked := false) }

  predicate Wins(q: Shared, a: Action)
    requires ByPusher(a) && PushEnabled(q, a)
  {
    a.TryCas? && !a.spurious && q.tail == q.pushers[a.i].seen
  }

  function PushNext(q: Shared, a: Action): Shared
    requires ByPusher(a) && PushEnabled(q, a)
  {
    var i := a.i;
    var p := q.pushers[i];
    match a
    case CallPush(_, v) => q.(pushers := q.pushers[i := Load(v)])
    case LoadPtr(_) => q.(pushers := q.pushers[i := Cas(p.v, Strip(q.tail))])
    case TryCas(_, _) =>
      if Wins(q, a) then
        q.(tail := if p.seen.id < 63 then p.seen.(id := p.seen.id + 1) else p.seen.(locked := true),
           pushers := q.pushers[i := Store(p.v, p.seen.block, p.seen.id)],
           log := q.log + [p.v], winner := q.winner + [i])
      else q.(pushers := q.pushers[i := Cas(p.v, Strip(q.tail))])
    case WriteValue(_) =>
      q.(mem := q.mem[64 * p.b + p.id := Written(p.v)], pushers := q.pushers[i := Flag(p.b, p.id)])
    case SetReady(_) =>
      var n := 64 * p.b + p.id;
      q.(mem := q.mem[n := Ready(q.mem[n].v)],
         pushers := q.pushers[i := if p.id == 63 then Alloc(p.b) else Idle],
         done := if p.id == 63 then q.done else q.done + {n})
    case AllocBlock(_) =>
      q.(blocks := q.blocks + [Block(q.blocks[p.b].start + 128, -1, false)], mem := q.mem + Cells(64),
         pushers := q.pushers[i := WaitNext(p.b, |q.blocks|)])
    case ReadNext(_) => q.(pushers := q.pushers[i := Link(q.blocks[p.b].next, p.extra)])
    case LinkNext(_) =>
      q.(blocks := q.blocks[p.next := q.blocks[p.next].(next := p.extra)],
         pushers := q.pushers[i := Publish(p.next)])
    case StoreTail(_) =>
      q.(tail := Tail(p.next, 0, false), pushers := q.pushers[i := Idle],
         done := q.done + {64 * q.tail.block + 63})
  }

  function PopNext(s: State, a: Action): Consumer
    requires !ByPusher(a) && PopEnabled(s, a)
  {
    var c := s.c;
    var p := c.popper;
    match a
    case CallPop(bulk) => c.(popper := Scan(bulk, []), before := s.q.done, empty := false)
    case TryGet =>
      var x := s.q.mem[Cell(c, |p.acc|)];
      if x.Ready? then
        var acc := p.acc + [x.v];
        c.(popper := if p.bulk && Offset(c, |acc|) != 0 then Scan(true, acc) else Commit(acc))
      else c.(popper := if p.acc == [] then LoadTail(p.bulk) else Commit(p.acc))
    case ReadTail => c.(popper := ReadStart(p.bulk, Strip(s.q.tail)))
    case Compare =>
      var pushIndex := s.q.blocks[p.seen.block].start + p.seen.id;
      if c.index >= pushIndex then c.(popper := Out, empty := true)
      else c.(popper := Copy(if p.bulk then BulkEnd(c.index, pushIndex) else c.index + 1, []))
    case Get =>
      var acc := p.acc + [s.q.mem[Cell(c, |p.acc|)].v];
      c.(popper := if c.index + |acc| < p.end then Copy(p.end, acc) else Commit(acc))
    case StoreIndex =>
      c.(index := c.index + |p.acc|, out := c.out + p.acc,
         popper := if (c.index + |p.acc|) % 64 == 0 then SwapOld else Out)
    case SwapBlock => c.(delayed := c.head, popper := if c.delayed >= 0 then FreeOld(c.delayed) else Advance)
    case FreeBlock => c.(popper := Advance)
    case NextBlock => c.(head := s.q.blocks[c.head].next, popper := Out)
  }

  function Freed(q: Shared, b: nat): Shared
    requires b < |q.blocks|
  {
    q.(blocks := q.blocks[b := q.blocks[b].(freed := true)])
  }

  function Record(s: State, a: Action): Ledger
    requires Enabled(s, a)
  {
    match a
    case CallPush(i, v) => s.h.(args := if i < |s.h.args| then s.h.args[i := v] else s.h.args, calls := s.h.calls + 1)
    case TryCas(i, _) => if Wins(s.q, a) && i < |s.h.args| then s.h.(sent := s.h.sent + [s.h.args[i]]) else s.h
    case CallPop(bulk) => s.h.(pop := PopCall(bulk, |s.c.out|))
    case _ => s.h
  }

  function Next(s: State, a: Action): State
    requires Enabled(s, a)
  {
    if ByPusher(a) then State(PushNext(s.q, a), s.c, Record(s, a))
    else State(if a.FreeBlock? then Freed(s.q, s.c.popper.o) else s.q, PopNext(s, a), Record(s, a))
  }

  /** The blocks whose memory a step reads, writes or frees. */
  function Touches(s: State, a: Action): set<nat>
    requires Enabled(s, a)
  {
    match a
    case WriteValue(i) => {s.q.pushers[i].b}
    case SetReady(i) => {s.q.pushers[i].b}
    case AllocBlock(i) => {s.q.pushers[i].b}
    case ReadNext(i) => {s.q.pushers[i].b}
    case LinkNext(i) => {s.q.pushers[i].next}
    case TryGet => {s.c.head}
    case Get => {s.c.head}
    case Compare => {s.c.popper.seen.block}
    case FreeBlock => {s.c.popper.o}
    case NextBlock => {s.c.head}
    case _ => {}
  }

  // ---------------------------------------------------------------- the invariant

  /** The pusher that filled the tail's last slot and has not unlocked the tail. */
  predicate Closing(p: PushPc) { p.Alloc? || p.WaitNext? || p.Link? || p.Publish? }

  /** The index a pusher has claimed and not made ready, or -1. */
  function Claim(p: PushPc): int { if p.Store? || p.Flag? then 64 * p.b + p.id else -1 }

  ghost predicate TailOk(q: Shared) {
    && q.tail.id < 64 && (q.tail.locked ==> q.tail.id == 63)
    && |q.log| == |q.winner| == 64 * q.tail.block + q.tail.id + (if q.tail.locked then 1 else 0)
    && |q.mem| == 64 * |q.blocks|
  }

  /** How many blocks exist beyond the tail's, and how far they are linked. */
  ghost predicate ChainOk(q: Shared) {
    && q.tail.block + 2 <= |q.blocks| <= q.tail.block + 3
    && (|q.blocks| == q.tail.block + 3 ==> q.tail.locked)
    && (forall b :: 0 <= b < |q.blocks| ==> q.blocks[b].start == 64 * b)
    && (forall b :: 0 <= b <= q.tail.block ==> q.blocks[b].next == b + 1)
    && q.blocks[|q.blocks| - 1].next == -1
    && (q.blocks[q.tail.block + 1].next == -1 || q.blocks[q.tail.block + 1].next == q.tail.block + 2)
  }

  /** Cells below the log hold its values, once written; cells above are empty. */
  ghost predicate MemOk(q: Shared) {
    && (forall n :: 0 <= n < |q.mem| && !q.mem[n].Empty? ==> n < |q.log| && q.mem[n].v == q.log[n])
    && (forall n :: n in q.done ==> 0 <= n < |q.log| && n < |q.mem| && q.mem[n].Ready?)
    && (q.tail.locked ==> |q.log| - 1 !in q.done)
    // the last slot of a block is ready before the tail leaves it, or a block is allocated for it
    && (forall n :: 0 <= n < |q.mem| && n < 64 * q.tail.block && n % 64 == 63 ==> q.mem[n].Ready?)
    && (|q.blocks| == q.tail.block + 3 && 0 < |q.log| <= |q.mem| ==> q.mem[|q.log| - 1].Ready?)
  }

  ghost predicate ClaimOk(q: Shared, i: nat, p: PushPc) {
    var n := Claim(p);
    && (p.Cas? ==> !p.seen.locked)
    && (n != -1 ==>
          && p.id < 64 && n < |q.log| && n < |q.winner| && n < |q.mem| && q.winner[n] == i
          && (if p.Store? then q.mem[n].Empty? && p.v == q.log[n] else q.mem[n].Written?))
  }

  ghost predicate ClosingOk(q: Shared, i: nat, p: PushPc) {
    Closing(p) ==>
      && q.tail.locked && 0 < |q.log| == |q.winner| && q.winner[|q.log| - 1] == i
      && |q.log| - 1 < |q.mem| && q.mem[|q.log| - 1].Ready?
      && q.tail.block + 2 <= |q.blocks| == q.tail.block + (if p.Alloc? then 2 else 3)
      && (p.Alloc? ==> p.b == q.tail.block)
      && (p.WaitNext? ==> p.b == q.tail.block)
      && (p.WaitNext? || p.Link? ==> p.extra == q.tail.block + 2 && q.blocks[q.tail.block + 1].next == -1)
      && (p.Link? || p.Publish? ==> p.next == q.tail.block + 1)
      && (p.Publish? ==> q.blocks[q.tail.block + 1].next == q.tail.block + 2)
  }

  ghost predicate PusherOk(q: Shared, i: nat)
    requires i < |q.pushers|
  {
    ClaimOk(q, i, q.pushers[i]) && ClosingOk(q, i, q.pushers[i])
  }

  /** Every claimed cell that is not ready has a pusher at it. */
  ghost predicate ClaimedOk(q: Shared) {
    forall n :: 0 <= n < |q.log| && n < |q.mem| && n < |q.winner| && !q.mem[n].Ready? ==>
      q.winner[n] < |q.pushers| && Claim(q.pushers[q.winner[n]]) == n
  }

  ghost predicate SharedOk(q: Shared) {
    && TailOk(q) && ChainOk(q) && MemOk(q) && ClaimedOk(q)
    && (forall i :: 0 <= i < |q.pushers| ==> PusherOk(q, i))
  }

  /** The consumer has moved past the whole head block and is retiring it. */
  predicate Retiring(p: PopPc) { p.SwapOld? || p.FreeOld? || p.Advance? }

  /** What the consumer has collected is the next stretch of the log. */
  ghost predicate Collected(q: Shared, index: nat, head: nat, acc: seq<int>) {
    && index + |acc| <= |q.log| && index + |acc| <= 64 * head + 64
    && acc == q.log[index..index + |acc|]
    && (forall n :: index <= n < index + |acc| && n < |q.mem| ==> q.mem[n].Ready?)
  }

  ghost predicate HeadOk(q: Shared, c: Consumer) {
    && c.index <= |q.log| && c.out == q.log[..c.index]
    && (forall n :: 0 <= n < c.index && n < |q.mem| ==> q.mem[n].Ready?)
    && (if Retiring(c.popper) then c.index == 64 * c.head + 64 else 64 * c.head <= c.index < 64 * c.head + 64)
  }

  ghost predicate PopperOk(q: Shared, c: Consumer) {
    var p := c.popper;
    && (p.Scan? ==> Collected(q, c.index, c.head, p.acc) && c.index + |p.acc| < 64 * c.head + 64 && (!p.bulk ==> p.acc == []))
    && (p.Copy? ==> Collected(q, c.index, c.head, p.acc) && c.index + |p.acc| < p.end <= |q.log| && p.end <= 64 * c.head + 64)
    && (p.Commit? ==> Collected(q, c.index, c.head, p.acc) && p.acc != [])
    && (p.ReadStart? ==>
          && c.head <= p.seen.block + 1 && p.seen.block <= q.tail.block
          && 64 * p.seen.block + p.seen.id <= |q.log| && p.seen.id < 64
          && (64 * p.seen.block + p.seen.id <= c.index ==> Consumed(c)))
    && c.before <= q.done
    && (c.empty ==> p.Out? && Consumed(c))
  }

  /** Every push that was complete when the call began has been consumed. */
  ghost predicate Consumed(c: Consumer) { forall n :: n in c.before ==> n < c.index }

  /** Exactly the blocks behind the delayed one have been freed. */
  ghost predicate FreedOk(q: Shared, c: Consumer) {
    var p := c.popper;
    && (if p.FreeOld? || p.Advance? then c.delayed == c.head else c.delayed == c.head - 1)
    && (p.FreeOld? ==> c.head > 0 && p.o == c.head - 1)
    && (forall b :: 0 <= b < |q.blocks| ==>
          (q.blocks[b].freed <==> b < (if p.Advance? then c.head else c.head - 1)))
  }

  ghost predicate ConsumerOk(q: Shared, c: Consumer) { HeadOk(q, c) && PopperOk(q, c) && FreedOk(q, c) }

  // ---------------------------------------------------------------- the invariant: what the callers see

  /** A push that has not won its slot yet. */
  function BeforeWin(p: PushPc): nat { if p.Load? || p.Cas? then 1 else 0 }

  /** Every call that began has its argument at one index, or is before it. */
  ghost predicate SentOk(q: Shared, h: Ledger) {
    && |h.args| == |q.pushers| && q.log == h.sent
    && h.calls == |h.sent| + Total(BeforeWin, q.pushers)
    && (forall i :: 0 <= i < |q.pushers| && BeforeWin(q.pushers[i]) == 1 ==> q.pushers[i].v == h.args[i])
  }

  /** Index `n` was won by a push that is complete, or whose pusher is still at it. */
  predicate Attended(q: Shared, n: nat)
    requires n < |q.log| && n < |q.winner|
  {
    || n in q.done
    || (q.winner[n] < |q.pushers| && var p := q.pushers[q.winner[n]]; Claim(p) == n || (Closing(p) && n == |q.log| - 1))
  }

  ghost predicate DoneOk(q: Shared) { forall n :: 0 <= n < |q.log| && n < |q.winner| ==> Attended(q, n) }

  /** A call of the consumer that is over returned something, one value if it is a `pop`, or found nothing. */
  predicate PopOk(c: Consumer, pop: PopCall) {
    var p := c.popper;
    && (!p.Out? ==> pop.PopCall? && !c.empty)
    && (pop.PopCall? ==>
          if (if p.Out? then c.empty else !Retiring(p)) then |c.out| == pop.from
          else |c.out| > pop.from && (!pop.bulk ==> |c.out| == pop.from + 1))
    && ((p.Scan? || p.LoadTail? || p.ReadStart?) ==> p.bulk == pop.bulk)
    && (p.Scan? && !p.bulk ==> p.acc == [])
    && (p.Copy? ==> |p.acc| < p.end - c.index && (!pop.bulk ==> p.end == c.index + 1))
    && (p.Commit? ==> p.acc != [] && (!pop.bulk ==> |p.acc| == 1))
  }

  ghost predicate LedgerOk(s: State) { SentOk(s.q, s.h) && DoneOk(s.q) && PopOk(s.c, s.h.pop) }

  /** The pusher that won the last index so far. */
  function LastWinner(q: Shared): nat { if |q.winner| > 0 then q.winner[|q.winner| - 1] else 0 }

  /** A locked tail has the pusher that filled the last slot still at work on it. */
  ghost predicate TailHeld(q: Shared) {
    q.tail.locked ==>
      && |q.log| > 0 && LastWinner(q) < |q.pushers|
      && var p := q.pushers[LastWinner(q)]; Claim(p) == |q.log| - 1 || Closing(p)
  }

  /** A tail that a pusher has loaded is never ahead of the claims. */
  ghost predicate SeenOk(q: Shared) {
    forall i :: 0 <= i < |q.pushers| && q.pushers[i].Cas? ==> Behind(q.pushers[i].seen, |q.log|)
  }

  predicate Behind(seen: Tail, claimed: nat) { seen.id < 64 && !seen.locked && 64 * seen.block + seen.id <= claimed }

  ghost predicate Inv(s: State) { SharedOk(s.q) && ConsumerOk(s.q, s.c) && TailHeld(s.q) && SeenOk(s.q) }

  ghost predicate Safe(s: State) { Inv(s) && LedgerOk(s) }

  lemma StartInv(threads: nat)
    ensures Safe(Start(threads))
  {
    TotalZero(BeforeWin, Start(threads).q.pushers);
  }

  // ---------------------------------------------------------------- pusher steps

  /** What pushers may do to the shared state, as far as the consumer can tell. */
  ghost predicate Grows(q: Shared, r: Shared) {
    && q.log <= r.log && |q.mem| <= |r.mem| && q.done <= r.done && q.tail.block <= r.tail.block
    && (forall n :: 0 <= n < |q.mem| && q.mem[n].Ready? ==> r.mem[n] == q.mem[n])
    && |q.blocks| <= |r.blocks| && (forall b :: 0 <= b < |q.blocks| ==> r.blocks[b].freed == q.blocks[b].freed)
    && (forall b :: |q.blocks| <= b < |r.blocks| ==> !r.blocks[b].freed)
  }

  lemma ConsumerUnmoved(q: Shared, r: Shared, c: Consumer)
    requires TailOk(q) && ChainOk(q) && ConsumerOk(q, c) && Grows(q, r)
    ensures ConsumerOk(r, c)
  {
    assert forall n :: 0 <= n < |q.log| ==> r.log[n] == q.log[n];
  }

  lemma LoadPushers(q: Shared, a: Action, j: nat)
    requires SharedOk(q) && ByPusher(a) && PushEnabled(q, a) && j < |q.pushers|
    requires a.CallPush? || a.LoadPtr? || (a.TryCas? && !Wins(q, a))
    ensures |PushNext(q, a).pushers| == |q.pushers| && PusherOk(PushNext(q, a), j)
  {
    assert PusherOk(q, j);
  }

  lemma LoadStep(q: Shared, a: Action)
    requires SharedOk(q) && ByPusher(a) && PushEnabled(q, a)
    requires a.CallPush? || a.LoadPtr? || (a.TryCas? && !Wins(q, a))
    ensures SharedOk(PushNext(q, a)) && Grows(q, PushNext(q, a))
  {
    var r := PushNext(q, a);
    assert r == q.(pushers := q.pushers[a.i := r.pushers[a.i]]);
    forall j | 0 <= j < |r.pushers| ensures PusherOk(r, j) {
      LoadPushers(q, a, j);
    }
  }

  lemma WinStep(q: Shared, a: Action)
    requires SharedOk(q) && ByPusher(a) && PushEnabled(q, a) && Wins(q, a)
    ensures SharedOk(PushNext(q, a)) && Grows(q, PushNext(q, a))
  {
    var r := PushNext(q, a);
    assert PusherOk(q, a.i);
    forall j | 0 <= j < |r.pushers| ensures PusherOk(r, j) {
      assert PusherOk(q, j);
    }
  }

  lemma WriteCells(q: Shared, a: Action)
    requires SharedOk(q) && a.WriteValue? && PushEnabled(q, a)
    ensures var r := PushNext(q, a); TailOk(r) && ChainOk(r) && MemOk(r) && ClaimedOk(r) && Grows(q, r)
  {
    assert PusherOk(q, a.i);
  }

  lemma WritePushers(q: Shared, a: Action, j: nat)
    requires SharedOk(q) && a.WriteValue? && PushEnabled(q, a) && j < |q.pushers|
    ensures |PushNext(q, a).pushers| == |q.pushers| && PusherOk(PushNext(q, a), j)
  {
    assert PusherOk(q, a.i) && PusherOk(q, j);
  }

  lemma WriteStep(q: Shared, a: Action)
    requires SharedOk(q) && a.WriteValue? && PushEnabled(q, a)
    ensures SharedOk(PushNext(q, a)) && Grows(q, PushNext(q, a))
  {
    WriteCells(q, a);
    forall j | 0 <= j < |q.pushers| ensures |PushNext(q, a).pushers| == |q.pushers| && PusherOk(PushNext(q, a), j) {
      WritePushers(q, a, j);
    }
  }

  lemma ReadyCells(q: Shared, a: Action)
    requires SharedOk(q) && a.SetReady? && PushEnabled(q, a)
    ensures var r := PushNext(q, a); TailOk(r) && ChainOk(r) && MemOk(r) && ClaimedOk(r) && Grows(q, r)
  {
    assert PusherOk(q, a.i);
  }

  lemma ReadyPushers(q: Shared, a: Action, j: nat)
    requires SharedOk(q) && a.SetReady? && PushEnabled(q, a) && j < |q.pushers|
    ensures |PushNext(q, a).pushers| == |q.pushers| && PusherOk(PushNext(q, a), j)
  {
    assert PusherOk(q, a.i) && PusherOk(q, j);
  }

  lemma ReadyStep(q: Shared, a: Action)
    requires SharedOk(q) && a.SetReady? && PushEnabled(q, a)
    ensures SharedOk(PushNext(q, a)) && Grows(q, PushNext(q, a))
  {
    ReadyCells(q, a);
    forall j | 0 <= j < |q.pushers| ensures |PushNext(q, a).pushers| == |q.pushers| && PusherOk(PushNext(q, a), j) {
      ReadyPushers(q, a, j);
    }
  }

  lemma AllocStep(q: Shared, a: Action)
    requires SharedOk(q) && a.AllocBlock? && PushEnabled(q, a)
    ensures SharedOk(PushNext(q, a)) && Grows(q, PushNext(q, a))
  {
    var r := PushNext(q, a);
    assert PusherOk(q, a.i);
    forall j | 0 <= j < |r.pushers| ensures PusherOk(r, j) {
      assert PusherOk(q, j);
    }
  }

  lemma LinkStep(q: Shared, a: Action)
    requires SharedOk(q) && (a.ReadNext? || a.LinkNext?) && PushEnabled(q, a)
    ensures SharedOk(PushNext(q, a)) && Grows(q, PushNext(q, a))
  {
    var r := PushNext(q, a);
    assert PusherOk(q, a.i);
    forall j | 0 <= j < |r.pushers| ensures PusherOk(r, j) {
      assert PusherOk(q, j);
    }
  }

  lemma PublishStep(q: Shared, a: Action)
    requires SharedOk(q) && a.StoreTail? && PushEnabled(q, a)
    ensures SharedOk(PushNext(q, a)) && Grows(q, PushNext(q, a))
  {
    var r := PushNext(q, a);
    assert PusherOk(q, a.i);
    forall j | 0 <= j < |r.pushers| ensures PusherOk(r, j) {
      assert PusherOk(q, j);
    }
  }

  // ---------------------------------------------------------------- consumer steps

  lemma OffsetIs(c: Consumer, k: nat)
    requires 64 * c.head <= c.index && c.index + k < 64 * c.head + 64
    ensures Cell(c, k) == c.index + k
    ensures Offset(c, k + 1) == 0 <==> c.index + k + 1 == 64 * c.head + 64
  {
  }

  /** The cell read is the one of the next index, and it exists. */
  lemma CollectOne(q: Shared, c: Consumer, acc: seq<int>)
    requires TailOk(q) && ChainOk(q) && HeadOk(q, c) && !Retiring(c.popper)
    requires Collected(q, c.index, c.head, acc) && c.index + |acc| < 64 * c.head + 64
    ensures Cell(c, |acc|) == c.index + |acc| < |q.mem|
    ensures Offset(c, |acc| + 1) == 0 <==> c.index + |acc| + 1 == 64 * c.head + 64
  {
    OffsetIs(c, |acc|);
    assert 64 * c.head <= |q.log| <= 64 * q.tail.block + 64;
  }

  lemma CollectMore(q: Shared, c: Consumer, acc: seq<int>)
    requires TailOk(q) && MemOk(q) && Collected(q, c.index, c.head, acc) && c.index + |acc| < 64 * c.head + 64
    requires c.index + |acc| < |q.mem| && q.mem[c.index + |acc|].Ready?
    ensures Collected(q, c.index, c.head, acc + [q.mem[c.index + |acc|].v])
  {
  }

  lemma CallStep(s: State, a: Action)
    requires Inv(s) && a.CallPop? && PopEnabled(s, a)
    ensures ConsumerOk(s.q, PopNext(s, a))
  {
  }

  /** A step that changes only where the consumer is, outside the retiring of a block. */
  lemma PopperOnly(q: Shared, c: Consumer, p: PopPc)
    requires HeadOk(q, c) && FreedOk(q, c) && !Retiring(c.popper) && !Retiring(p)
    ensures HeadOk(q, c.(popper := p)) && FreedOk(q, c.(popper := p))
  {
  }

  /** What is known of the next cell. */
  ghost predicate NextCell(q: Shared, c: Consumer, acc: seq<int>) {
    var n := c.index + |acc|;
    && Cell(c, |acc|) == n < |q.mem|
    && (Offset(c, |acc| + 1) == 0 <==> n + 1 == 64 * c.head + 64)
    && (q.mem[n].Ready? ==> Collected(q, c.index, c.head, acc + [q.mem[n].v]))
  }

  lemma NextCellOk(q: Shared, c: Consumer, acc: seq<int>)
    requires TailOk(q) && ChainOk(q) && MemOk(q) && HeadOk(q, c) && !Retiring(c.popper)
    requires Collected(q, c.index, c.head, acc) && c.index + |acc| < 64 * c.head + 64
    ensures NextCell(q, c, acc)
  {
    CollectOne(q, c, acc);
    if q.mem[c.index + |acc|].Ready? { CollectMore(q, c, acc); }
  }

  lemma ScanPopper(s: State, a: Action)
    requires a.TryGet? && PopEnabled(s, a) && PopperOk(s.q, s.c) && NextCell(s.q, s.c, s.c.popper.acc)
    ensures PopperOk(s.q, PopNext(s, a))
  {
  }

  lemma CopyPopper(s: State, a: Action)
    requires a.Get? && PopEnabled(s, a) && PopperOk(s.q, s.c) && NextCell(s.q, s.c, s.c.popper.acc)
    ensures PopperOk(s.q, PopNext(s, a))
  {
  }

  lemma ScanStep(s: State, a: Action)
    requires TailOk(s.q) && ChainOk(s.q) && MemOk(s.q) && ConsumerOk(s.q, s.c)
    requires (a.TryGet? || a.Get?) && PopEnabled(s, a)
    ensures ConsumerOk(s.q, PopNext(s, a))
  {
    NextCellOk(s.q, s.c, s.c.popper.acc);
    if a.TryGet? { ScanPopper(s, a); } else { CopyPopper(s, a); }
    PopperOnly(s.q, s.c, PopNext(s, a).popper);
  }

  lemma TailPopper(s: State, a: Action)
    requires Inv(s) && a.ReadTail? && PopEnabled(s, a)
    ensures PopperOk(s.q, PopNext(s, a))
  {
  }

  lemma ComparePopper(s: State, a: Action)
    requires Inv(s) && a.Compare? && PopEnabled(s, a)
    ensures PopperOk(s.q, PopNext(s, a))
  {
  }

  lemma TailStep(s: State, a: Action)
    requires Inv(s) && (a.ReadTail? || a.Compare?) && PopEnabled(s, a)
    ensures ConsumerOk(s.q, PopNext(s, a))
  {
    if a.ReadTail? { TailPopper(s, a); } else { ComparePopper(s, a); }
    PopperOnly(s.q, s.c, PopNext(s, a).popper);
  }

  lemma RetireStep(s: State, a: Action)
    requires Inv(s) && (a.StoreIndex? || a.SwapBlock?) && PopEnabled(s, a)
    ensures ConsumerOk(Next(s, a).q, PopNext(s, a))
  {
  }

  lemma AdvanceStep(s: State, a: Action)
    requires Inv(s) && (a.FreeBlock? || a.NextBlock?) && PopEnabled(s, a)
    ensures ConsumerOk(Next(s, a).q, PopNext(s, a))
  {
  }

  lemma FreeStep(q: Shared, b: nat)
    requires SharedOk(q) && b < |q.blocks|
    ensures SharedOk(Freed(q, b))
  {
    forall j | 0 <= j < |q.pushers| ensures PusherOk(Freed(q, b), j) {
      assert PusherOk(q, j);
    }
  }

  lemma PushStep(q: Shared, a: Action)
    requires SharedOk(q) && ByPusher(a) && PushEnabled(q, a)
    ensures SharedOk(PushNext(q, a)) && Grows(q, PushNext(q, a))
  {
    if a.CallPush? || a.LoadPtr? || (a.TryCas? && !Wins(q, a)) { LoadStep(q, a); }
    else if a.TryCas? { WinStep(q, a); }
    else if a.WriteValue? { WriteStep(q, a); }
    else if a.SetReady? { ReadyStep(q, a); }
    else if a.AllocBlock? { AllocStep(q, a); }
    else if a.StoreTail? { PublishStep(q, a); }
    else { LinkStep(q, a); }
  }

  lemma PopStep(s: State, a: Action)
    requires Inv(s) && !ByPusher(a) && PopEnabled(s, a)
    ensures Inv(Next(s, a))
  {
    if a.CallPop? { CallStep(s, a); }
    else if a.TryGet? || a.Get? { ScanStep(s, a); }
    else if a.ReadTail? || a.Compare? { TailStep(s, a); }
    else if a.StoreIndex? || a.SwapBlock? { RetireStep(s, a); }
    else { AdvanceStep(s, a); }
    if a.FreeBlock? { FreeStep(s.q, s.c.popper.o); }
  }

  lemma TailHeldStep(q: Shared, a: Action)
    requires TailOk(q) && TailHeld(q) && ByPusher(a) && PushEnabled(q, a) && PusherOk(q, a.i)
    ensures TailHeld(PushNext(q, a))
  {
  }

  lemma SeenStep(q: Shared, a: Action)
    requires TailOk(q) && SeenOk(q) && ByPusher(a) && PushEnabled(q, a)
    ensures SeenOk(PushNext(q, a))
  {
    var r := PushNext(q, a);
    forall i | 0 <= i < |r.pushers| && r.pushers[i].Cas? ensures Behind(r.pushers[i].seen, |r.log|) {
      assert i != a.i ==> r.pushers[i] == q.pushers[i];
    }
  }

  lemma InvStep(s: State, a: Action)
    requires Inv(s) && Enabled(s, a)
    ensures Inv(Next(s, a))
  {
    if ByPusher(a) {
      assert PusherOk(s.q, a.i);
      PushStep(s.q, a);
      ConsumerUnmoved(s.q, PushNext(s.q, a), s.c);
      TailHeldStep(s.q, a);
      SeenStep(s.q, a);
    } else {
      PopStep(s, a);
    }
  }

  // ---------------------------------------------------------------- what the callers see is kept

  lemma SentStep(s: State, a: Action)
    requires SentOk(s.q, s.h) && ByPusher(a) && PushEnabled(s.q, a)
    ensures SentOk(PushNext(s.q, a), Record(s, a))
  {
    var r := PushNext(s.q, a);
    TotalUpdate(BeforeWin, s.q.pushers, a.i, r.pushers[a.i]);
    assert r.pushers == s.q.pushers[a.i := r.pushers[a.i]];
  }

  lemma AttendedStep(q: Shared, a: Action, n: nat)
    requires TailOk(q) && ByPusher(a) && PushEnabled(q, a) && n < |q.log| && n < |q.winner| && Attended(q, n)
    requires PusherOk(q, a.i) && (q.winner[n] < |q.pushers| ==> PusherOk(q, q.winner[n]))
    ensures var r := PushNext(q, a); n < |r.log| && n < |r.winner| && |r.pushers| == |q.pushers|
    ensures var r := PushNext(q, a); ClosingOk(r, a.i, r.pushers[a.i]) && TailOk(r) ==> Attended(r, n)
  {
  }

  lemma DoneStep(q: Shared, a: Action)
    requires SharedOk(q) && DoneOk(q) && ByPusher(a) && PushEnabled(q, a) && SharedOk(PushNext(q, a))
    ensures DoneOk(PushNext(q, a))
  {
    var r := PushNext(q, a);
    assert PusherOk(q, a.i) && |r.pushers| == |q.pushers| && PusherOk(r, a.i);
    forall n | 0 <= n < |r.log| && n < |r.winner| ensures Attended(r, n) {
      if n < |q.log| {
        assert Attended(q, n);
        AttendedStep(q, a, n);
      }
    }
  }

  lemma PopOkStep(s: State, a: Action)
    requires HeadOk(s.q, s.c) && PopOk(s.c, s.h.pop) && !ByPusher(a) && PopEnabled(s, a)
    ensures PopOk(PopNext(s, a), Record(s, a).pop)
  {
  }

  lemma SafePush(s: State, a: Action)
    requires Safe(s) && ByPusher(a) && PushEnabled(s.q, a) && SharedOk(PushNext(s.q, a))
    ensures LedgerOk(Next(s, a))
  {
    SentStep(s, a);
    DoneStep(s.q, a);
  }

  lemma SafePop(s: State, a: Action)
    requires Safe(s) && !ByPusher(a) && PopEnabled(s, a)
    ensures LedgerOk(Next(s, a))
  {
    PopOkStep(s, a);
    var r := Next(s, a).q;
    forall n | 0 <= n < |r.log| && n < |r.winner| ensures Attended(r, n) {
      assert Attended(s.q, n);
    }
  }

  lemma SafeStep(s: State, a: Action)
    requires Safe(s) && Enabled(s, a)
    ensures Safe(Next(s, a))
  {
    InvStep(s, a);
    if ByPusher(a) { SafePush(s, a); } else { SafePop(s, a); }
  }

  // ---------------------------------------------------------------- every run

  ghost predicate Initial(s: State) { exists threads: nat :: s == Start(threads) }

  ghost predicate Step(s: State, t: State) { exists a: Action :: Enabled(s, a) && t == Next(s, a) }

  ghost predicate Reachable(s: State) { Reached(Initial, Step, s) }

  lemma ReachableInv(s: State)
    requires Reachable(s)
    ensures Safe(s)
  {
    forall s0 | Initial(s0) ensures Safe(s0) {
      var threads: nat :| s0 == Start(threads);
      StartInv(threads);
    }
    forall s1, s2 | Safe(s1) && Step(s1, s2) ensures Safe(s2) {
      var a: Action :| Enabled(s1, a) && s2 == Next(s1, a);
      SafeStep(s1, a);
    }
    InvariantHolds(Initial, Step, Safe, s);
  }

  /** What the consumer has returned is a prefix of the pushed arguments, in the order in which their calls won the tail. */
  lemma FifoPrefix(s: State)
    requires Reachable(s)
    ensures s.c.out <= s.h.sent && |s.c.out| == s.c.index
  {
    ReachableInv(s);
  }

  /**
   * Every call of `push` puts its argument in the queue once: it has won one index, with its argument there, or
   * is still before that; and when it is over the index counts as complete.
   */
  lemma PushesOnce(s: State, i: nat)
    requires Reachable(s)
    ensures s.h.calls == |s.h.sent| + Total(BeforeWin, s.q.pushers) && |s.q.winner| == |s.h.sent|
    ensures i < |s.q.pushers| && s.q.pushers[i].Idle? ==>
              forall n :: 0 <= n < |s.q.winner| && s.q.winner[n] == i ==> n in s.q.done
  {
    ReachableInv(s);
    forall n | 0 <= n < |s.q.winner| && s.q.winner[n] == i && i < |s.q.pushers| && s.q.pushers[i].Idle? ensures n in s.q.done {
      assert Attended(s.q, n);
    }
  }

  /** A `pop` that is over returned one value, a bulk pop at least one, or the answer was that there is none. */
  lemma PopAnswers(s: State)
    requires Reachable(s) && s.c.popper.Out? && s.h.pop.PopCall?
    ensures if s.c.empty then |s.c.out| == s.h.pop.from
            else if s.h.pop.bulk then |s.c.out| > s.h.pop.from else |s.c.out| == s.h.pop.from + 1
  {
    ReachableInv(s);
  }

  /** An empty answer means that every push completed before the call had been consumed. */
  lemma EmptyMeansConsumed(s: State)
    requires Reachable(s) && s.c.empty
    ensures forall n :: n in s.c.before ==> n < |s.c.out|
  {
    ReachableInv(s);
  }

  /** How far a call of the consumer goes, from `c` on to `r`. */
  predicate GoesFar(q: Shared, c: Consumer, a: Action, r: PopPc) {
    && (a.CallPop? ==> r == Scan(a.bulk, []))
    && (c.popper.Scan? && r.Commit? ==>
          if !c.popper.bulk then |r.acc| == 1
          else Offset(c, |r.acc|) == 0 || (c.index + |r.acc| < |q.mem| && !q.mem[c.index + |r.acc|].Ready?))
    && (c.popper.ReadStart? && r.Copy? ==>
          if !c.popper.bulk then r.end == c.index + 1
          else r.end % 64 == 0 || r.end == 64 * c.popper.seen.block + c.popper.seen.id)
    && (c.popper.Copy? && r.Copy? ==> r.end == c.popper.end)
    && (c.popper.Copy? && r.Commit? ==> c.index + |r.acc| == c.popper.end)
  }

  lemma ScanGoes(s: State, a: Action)
    requires !ByPusher(a) && PopEnabled(s, a) && s.c.popper.Scan? && (!s.c.popper.bulk ==> s.c.popper.acc == [])
    requires Cell(s.c, |s.c.popper.acc|) == s.c.index + |s.c.popper.acc|
    ensures GoesFar(s.q, s.c, a, PopNext(s, a).popper)
  {
  }

  lemma OtherGoes(s: State, a: Action)
    requires !ByPusher(a) && PopEnabled(s, a) && !s.c.popper.Scan?
    requires a.Compare? ==> s.q.blocks[s.c.popper.seen.block].start == 64 * s.c.popper.seen.block
    requires s.c.popper.Copy? ==> s.c.index + |s.c.popper.acc| < s.c.popper.end
    ensures GoesFar(s.q, s.c, a, PopNext(s, a).popper)
  {
  }

  /**
   * A `pop` takes the one value; a bulk pop goes on to the end of its block, to a slot that is not ready, or, when
   * it had to wait for the first one, to the tail it saw then.
   */
  lemma PopGoesOn(s: State, a: Action)
    requires Reachable(s) && Enabled(s, a) && !ByPusher(a)
    ensures GoesFar(s.q, s.c, a, Next(s, a).c.popper)
  {
    ReachableInv(s);
    if s.c.popper.Scan? {
      CollectOne(s.q, s.c, s.c.popper.acc);
      ScanGoes(s, a);
    } else {
      OtherGoes(s, a);
    }
  }

  /** No step of a pusher or of the consumer touches a freed block, nor frees one twice. */
  lemma NoUseAfterFree(s: State, a: Action)
    requires Reachable(s) && Enabled(s, a)
    ensures forall b :: b in Touches(s, a) ==> b < |s.q.blocks| && !s.q.blocks[b].freed
  {
    ReachableInv(s);
    if ByPusher(a) {
      assert PusherOk(s.q, a.i);
    }
  }

  /** Exactly the blocks before the delayed one are freed: the block just left is kept for one more. */
  lemma FreedOneBlockLate(s: State, b: nat)
    requires Reachable(s) && b < |s.q.blocks| && s.c.popper.Out?
    ensures s.q.blocks[b].freed <==> b + 1 < s.c.head
    ensures 64 * s.c.head <= |s.c.out| < 64 * s.c.head + 64
  {
    ReachableInv(s);
  }

  /** A pusher that is not about to compare-exchange the tail has a step; `wait_next_block` never spins. */
  lemma PusherCanMove(s: State, i: nat)
    requires Inv(s) && i < |s.q.pushers| && !s.q.pushers[i].Idle? && !s.q.pushers[i].Cas?
    ensures exists a: Action :: ByPusher(a) && a.i == i && Enabled(s, a) && !a.TryCas?
  {
    assert PusherOk(s.q, i);
    match s.q.pushers[i]
    case Load(_) => assert Enabled(s, LoadPtr(i));
    case Store(_, _, _) => assert Enabled(s, WriteValue(i));
    case Flag(_, _) => assert Enabled(s, SetReady(i));
    case Alloc(_) => assert Enabled(s, AllocBlock(i));
    case WaitNext(_, _) => assert Enabled(s, ReadNext(i));
    case Link(_, _) => assert Enabled(s, LinkNext(i));
    case Publish(_) => assert Enabled(s, StoreTail(i));
  }

  /** A step of pusher `i` that gets it further, that is, any but a compare-exchange that fails. */
  predicate Gains(s: State, i: nat, a: Action) {
    ByPusher(a) && a.i == i && Enabled(s, a) && (a.TryCas? ==> Wins(s.q, a))
  }

  lemma TailMovedOn(q: Shared, i: nat)
    requires TailOk(q) && SeenOk(q) && i < |q.pushers| && q.pushers[i].Cas? && !q.tail.locked
    ensures q.tail == q.pushers[i].seen || 64 * q.pushers[i].seen.block + q.pushers[i].seen.id < |q.log|
  {
    assert Behind(q.pushers[i].seen, |q.log|);
  }

  /**
   * A pusher inside a call has a step that gets it further; or the tail is locked and the pusher that
   * won its last slot is still at work on it and has one; or others won slots since it loaded the tail.
   */
  lemma PusherNeverBlocked(s: State, i: nat)
    requires Reachable(s) && i < |s.q.pushers| && !s.q.pushers[i].Idle?
    ensures || (exists a: Action :: Gains(s, i, a))
            || (s.q.tail.locked && exists a: Action :: Gains(s, LastWinner(s.q), a))
            || (s.q.pushers[i].Cas? && !s.q.tail.locked && 64 * s.q.pushers[i].seen.block + s.q.pushers[i].seen.id < |s.q.log|)
  {
    ReachableInv(s);
    if !s.q.pushers[i].Cas? {
      PusherCanMove(s, i);
      var a: Action :| ByPusher(a) && a.i == i && Enabled(s, a) && !a.TryCas?;
      assert Gains(s, i, a);
    } else if s.q.tail.locked {
      var w := LastWinner(s.q);
      PusherCanMove(s, w);
      var a: Action :| ByPusher(a) && a.i == w && Enabled(s, a) && !a.TryCas?;
      assert Gains(s, w, a);
    } else {
      TailMovedOn(s.q, i);
      if s.q.tail == s.q.pushers[i].seen { assert Gains(s, i, TryCas(i, false)); }
    }
  }

  /** A consumer that looks at a slot can read it, or spins on one that its pusher is filling. */
  lemma ReaderCanMove(s: State)
    requires Inv(s) && (s.c.popper.Scan? || s.c.popper.Copy?)
    ensures s.c.popper.Scan? ==> Enabled(s, TryGet)
    ensures s.c.popper.Copy? ==>
              || Enabled(s, Get)
              || exists i: nat :: i < |s.q.pushers| && Claim(s.q.pushers[i]) == s.c.index + |s.c.popper.acc|
  {
    var acc := s.c.popper.acc;
    CollectOne(s.q, s.c, acc);
    if s.c.popper.Copy? && !s.q.mem[s.c.index + |acc|].Ready? {
      assert Claim(s.q.pushers[s.q.winner[s.c.index + |acc|]]) == s.c.index + |acc|;
    }
  }

  /** The consumer always has a step too, unless it spins on a slot whose pusher has one. */
  lemma ConsumerNeverBlocked(s: State)
    requires Reachable(s) && !s.c.popper.Out?
    ensures || (exists a: Action :: !ByPusher(a) && Enabled(s, a))
            || (s.c.popper.Copy? && exists i: nat :: i < |s.q.pushers| && Claim(s.q.pushers[i]) == s.c.index + |s.c.popper.acc|)
  {
    ReachableInv(s);
    if s.c.popper.Scan? || s.c.popper.Copy? { ReaderCanMove(s); return; }
    match s.c.popper
    case LoadTail(_) => assert Enabled(s, ReadTail);
    case ReadStart(_, _) => assert Enabled(s, Compare);
    case Commit(_) => assert Enabled(s, StoreIndex);
    case SwapOld => assert Enabled(s, SwapBlock);
    case FreeOld(_) => assert Enabled(s, FreeBlock);
    case Advance => assert Enabled(s, NextBlock);
  }
}
