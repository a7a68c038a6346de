/**
 * The queue of may_queue/src/spsc.rs as an object used by one caller at a time. Each method is the
 * source's sequence of assignments; they are steps of the `SpscQueue` machine, so the object keeps
 * that machine's invariant, and its contents are a plain sequence.
 */
module SpscObject {
  import opened Options
  import opened SpscQueue

  class RingQueue {
    var blocks: seq<Block>
    var tailIndex: nat
    var tailBlock: nat
    var first: nat
    var lastHead: nat
    var headIndex: nat
    var headBlock: nat
    ghost var tr: Trace

    ghost function At(pp: Producer, cp: Consumer): State
      reads this
    {
      State(Queue(blocks, tailIndex, tailBlock, first, lastHead, headIndex, headBlock), pp, cp, tr)
    }

    ghost predicate Valid()
      reads this
    {
      Inv(At(Between, Idle))
    }

    ghost function Contents(): (r: seq<int>)
      reads this
    {
      if headIndex <= |tr.log| then tr.log[headIndex..] else []
    }

    constructor ()
      ensures Valid() && Contents() == []
    {
      var s := Start();
      blocks, tailIndex, tailBlock, first := s.q.blocks, 0, 0, 0;
      lastHead, headIndex, headBlock := 0, 0, 0;
      tr := s.tr;
    }

    /** The slot is written. */
    method StoreValue(v: int)
      requires Enabled(At(Between, Idle), SpscQueue.Push(v))
      modifies this`blocks, this`tr
      ensures At(if (tailIndex + 1) % SIZE == 0 then Full else Committing, Idle) == PushStep(old(At(Between, Idle)), v)
    {
      tr := PushStep(At(Between, Idle), v).tr;
      blocks := blocks[tailBlock := blocks[tailBlock].(slots := blocks[tailBlock].slots[tailIndex % SIZE := v])];
    }

    /** `alloc_node`: the oldest block the consumer has left, or a new one. */
    method AllocNode() returns (b: nat)
      requires Enabled(At(Full, Idle), Alloc)
      modifies this`first, this`lastHead, this`blocks, this`tr
      ensures At(Got(b), Idle) == AllocStep(old(At(Full, Idle)))
    {
      tr := AllocStep(At(Full, Idle)).tr;
      b := first;
      if first != lastHead {
        first := blocks[first].next;
        return;
      }
      lastHead := headBlock;
      if first != lastHead {
        first := blocks[first].next;
      } else {
        b := |blocks|;
        blocks := blocks + [Fresh()];
      }
    }

    method LinkBlock(b: nat)
      requires Enabled(At(Got(b), Idle), Link)
      modifies this`blocks, this`tailBlock, this`tr
      ensures At(Committing, Idle) == LinkStep(old(At(Got(b), Idle)))
    {
      tr := LinkStep(At(Got(b), Idle)).tr;
      blocks := blocks[tailBlock := blocks[tailBlock].(next := b)];
      tailBlock := b;
    }

    /** A push that filled its block gets and links the next one. */
    method NextBlock()
      requires Inv(At(Full, Idle))
      modifies this`first, this`lastHead, this`blocks, this`tailBlock, this`tr
      ensures Inv(At(Committing, Idle)) && tr.log == old(tr.log)
    {
      InRange(At(Full, Idle));
      AllocKeeps(At(Full, Idle));
      var b := AllocNode();
      InRange(At(Got(b), Idle));
      LinkKeeps(At(Got(b), Idle));
      LinkBlock(b);
    }

    /** `tail.index` is stored. */
    method CommitPush()
      requires Inv(At(Committing, Idle))
      modifies this`tailIndex
      ensures Valid()
    {
      ghost var s := At(Committing, Idle);
      OtherKeeps(s, Commit);
      tailIndex := tailIndex + 1;
      assert At(Between, Idle) == Next(s, Commit);
    }

    /** The value is written and, when that filled the block, the next one is linked. */
    method Append(v: int)
      requires Valid()
      modifies this
      ensures Inv(At(Committing, Idle)) && tr.log == old(tr.log) + [v] && headIndex == old(headIndex)
    {
      InRange(At(Between, Idle));
      PushKeeps(At(Between, Idle), v);
      StoreValue(v);
      if (tailIndex + 1) % SIZE == 0 {
        NextBlock();
      }
    }

    method Push(v: int)
      requires Valid()
      modifies this
      ensures Valid() && Contents() == old(Contents()) + [v]
    {
      Bounds(At(Between, Idle));
      ghost var log := tr.log;
      Append(v);
      CommitPush();
      SliceGrows(log, v, headIndex);
    }

    /** `head.block` moves on after the last slot of a block. */
    method MoveHead(end: nat)
      requires Inv(At(Between, Turning(end)))
      modifies this`headBlock
      ensures Inv(At(Between, Closing(end)))
    {
      ghost var s := At(Between, Turning(end));
      TurnsToNext(s);
      TurnAndMove(s);
      headBlock := blocks[headBlock].next;
      assert At(Between, Closing(end)) == Next(Next(s, Turn), Move);
    }

    /** `head.index` is stored. */
    method CommitPop(end: nat)
      requires Inv(At(Between, Closing(end)))
      modifies this`headIndex
      ensures Valid() && headIndex == end
    {
      ghost var s := At(Between, Closing(end));
      OtherKeeps(s, Close);
      headIndex := end;
      assert At(Between, Idle) == Next(s, Close);
    }

    /** `copy_to_bulk`: the slots `[headIndex, end)` of the head block, one by one. */
    method CopyOut(end: nat) returns (r: seq<int>)
      requires headIndex < end <= |tr.log| && headBlock < |blocks| && |blocks[headBlock].slots| == SIZE
      requires forall n :: headIndex <= n < end ==> blocks[headBlock].slots[n % SIZE] == tr.log[n]
      ensures r == tr.log[headIndex..end]
    {
      r := [];
      var k := headIndex;
      while k < end
        invariant headIndex <= k <= end && r == tr.log[headIndex..k]
      {
        r := r + [blocks[headBlock].slots[k % SIZE]];
        k := k + 1;
      }
    }

    method ReadUpTo(end: nat) returns (r: seq<int>)
      requires Valid() && headIndex < end <= tailIndex && headIndex / SIZE == (end - 1) / SIZE
      modifies this`headBlock, this`headIndex, this`tr
      ensures Valid() && headIndex == end && old(Contents()) == r + Contents() && |r| == end - old(headIndex)
    {
      StartReading(At(Between, Idle), end);
      ReadAll(At(Between, Reading(headIndex, end)));
      r := CopyOut(end);
      SliceSplits(tr.log, headIndex, end);
      tr := tr.(out := tr.log[..end]);
      Finish(end);
    }

    method Finish(end: nat)
      requires Inv(At(Between, AfterRead(end, end)))
      modifies this`headBlock, this`headIndex
      ensures Valid() && headIndex == end
    {
      if end % SIZE == 0 {
        MoveHead(end);
      }
      CommitPop(end);
    }

    method Pop() returns (r: Option<int>)
      requires Valid()
      modifies this`headBlock, this`headIndex, this`tr
      ensures Valid() && (r.None? <==> old(Contents()) == [])
      ensures old(Contents()) == (if r.None? then [] else [r.value]) + Contents()
    {
      Bounds(At(Between, Idle));
      if headIndex == tailIndex {
        return None;
      }
      var vs := ReadUpTo(headIndex + 1);
      r := Some(vs[0]);
    }

    /** Everything up to the end of the block or of the queue, whichever comes first. */
    method BulkPop() returns (r: seq<int>)
      requires Valid()
      modifies this`headBlock, this`headIndex, this`tr
      ensures Valid() && old(Contents()) == r + Contents() && |r| <= SIZE
      ensures r == [] <==> old(Contents()) == []
      ensures Contents() == [] || headIndex % SIZE == 0
    {
      Bounds(At(Between, Idle));
      if headIndex == tailIndex {
        return [];
      }
      r := ReadUpTo(BulkEnd(headIndex, tailIndex));
      Bounds(At(Between, Idle));
    }
  }

  function AfterRead(k: nat, end: nat): Consumer {
    if k < end then Reading(k, end) else if end % SIZE == 0 then Turning(end) else Closing(end)
  }

  lemma InRange(s: State)
    requires Inv(s)
    ensures s.q.tailBlock < |s.q.blocks| && |s.q.blocks[s.q.tailBlock].slots| == SIZE && s.q.first < |s.q.blocks|
  {
  }

  lemma SliceSplits(log: seq<int>, h: nat, end: nat)
    requires h <= end <= |log|
    ensures log[h..] == log[h..end] + log[end..]
  {
  }

  function ReadOut(s: State): State
    requires s.cp.Reading? && s.cp.end <= |s.tr.log|
  {
    s.(cp := AfterRead(s.cp.end, s.cp.end), tr := s.tr.(out := s.tr.log[..s.cp.end]))
  }

  lemma ReadOutControl(s: State)
    requires Control(s) && s.cp.Reading?
    ensures s.cp.end <= |s.tr.log| && Control(ReadOut(s))
  {
  }

  lemma SlotIs(s: State, n: nat)
    requires Inv(s) && s.cp.Reading? && s.cp.k <= n < s.cp.end
    ensures n < |s.tr.log| && s.q.headBlock < |s.q.blocks| && |s.q.blocks[s.q.headBlock].slots| == SIZE
    ensures s.q.blocks[s.q.headBlock].slots[n % SIZE] == s.tr.log[n]
  {
    assert n / SIZE == HeadNumber(s);
    assert StoredAt(s.q.blocks, s.tr.chain, s.tr.log, n);
  }

  /** The claimed slots hold the log, and copying them out leaves the machine in order. */
  lemma ReadAll(s: State)
    requires Inv(s) && s.cp.Reading?
    ensures s.cp.end <= |s.tr.log| && Inv(ReadOut(s))
    ensures s.q.headBlock < |s.q.blocks| && |s.q.blocks[s.q.headBlock].slots| == SIZE
    ensures forall n :: s.cp.k <= n < s.cp.end ==> s.q.blocks[s.q.headBlock].slots[n % SIZE] == s.tr.log[n]
  {
    ReadOutControl(s);
    SlotIs(s, s.cp.k);
    forall n | s.cp.k <= n < s.cp.end
      ensures s.q.blocks[s.q.headBlock].slots[n % SIZE] == s.tr.log[n]
    {
      SlotIs(s, n);
    }
  }

  lemma SliceGrows(log: seq<int>, v: int, h: nat)
    requires h <= |log|
    ensures (log + [v])[h..] == log[h..] + [v]
  {
  }

  lemma Bounds(s: State)
    requires Inv(s) && s.pp.Between? && s.cp.Idle?
    ensures s.q.headIndex <= s.q.tailIndex == |s.tr.log|
  {
  }

  lemma TurnAndMove(s: State)
    requires Inv(s) && Enabled(s, Turn)
    ensures Inv(Next(Next(s, Turn), Move))
  {
    OtherKeeps(s, Turn);
    OtherKeeps(Next(s, Turn), Move);
  }

  lemma StartReading(s: State, end: nat)
    requires Inv(s) && s.cp.Idle? && s.q.headIndex < end <= s.q.tailIndex && s.q.headIndex / SIZE == (end - 1) / SIZE
    ensures Inv(s.(cp := Reading(s.q.headIndex, end))) && end <= |s.tr.log|
  {
  }
}
