/** The calls of `IntrusiveList` as their callers see them: what each may answer, and when. */
module ListCalls {
  import opened Options
  import opened Traces
  import opened IntrusiveList

  // ---------------------------------------------------------------- push

  /** `is_head`, as `push` answers it. */
  predicate AnswersHead(s: State, p: Pusher)
    requires !p.Idle?
  {
    p.prev == s.tail
  }

  /** No node in the list stands between `n` and the one it was pushed behind, and nobody has removed it. */
  ghost predicate NextTo(tr: Trace, p: Pusher) {
    p.Idle? || (p.prev < p.node && p.node !in tr.removed && forall m :: m in tr.chain ==> !(p.prev < m < p.node))
  }

  ghost predicate Neighbours(s: State) { forall i :: 0 <= i < |s.pcs| ==> NextTo(s.tr, s.pcs[i]) }

  lemma InBounds(nodes: seq<Node>, chain: seq<nat>)
    requires Increasing(nodes, chain)
    ensures forall m :: m in chain ==> m < |nodes|
  {
  }

  /** Nodes leave the chain, and a new one comes behind all others. */
  lemma ChainShrinks(s: State, a: Action)
    requires Inv(s) && Enabled(s, a)
    ensures forall m :: m in Next(s, a).tr.chain ==> m in s.tr.chain || (a.Push? && m == |s.nodes|)
  {
    if a.Remove? && Unlinks(s, a.n) {
      var c, k := s.tr.chain, IndexOf(s.tr.chain, a.n);
      assert forall m :: m in Without(c, a.n) ==> m in c;
    }
  }

  lemma RemovedGrows(s: State, a: Action, i: nat)
    requires Inv(s) && Enabled(s, a) && i < |s.pcs| && !s.pcs[i].Idle? && s.pcs[i].node !in s.tr.removed
    ensures s.pcs[i].node !in Next(s, a).tr.removed
  {
    assert PcOk(s.nodes, s.tr.chain, i, s.pcs[i]);
    assert !HandleOk(s.nodes, s.pcs, s.pcs[i].node);
  }

  lemma NeighbourStep(s: State, a: Action, i: nat)
    requires Inv(s) && Enabled(s, a) && i < |s.pcs| && NextTo(s.tr, s.pcs[i])
    ensures i < |Next(s, a).pcs| && NextTo(Next(s, a).tr, Next(s, a).pcs[i])
  {
    InBounds(s.nodes, s.tr.chain);
    ChainShrinks(s, a);
    if !s.pcs[i].Idle? {
      assert PcOk(s.nodes, s.tr.chain, i, s.pcs[i]);
      RemovedGrows(s, a, i);
    }
  }

  /** A value is nowhere but in a node that the list holds. */
  ghost predicate ValueOk(s: State, n: nat)
    requires n < |s.nodes|
  {
    s.nodes[n].value.Some? ==> n in s.tr.chain && n != s.tail
  }

  ghost predicate Values(s: State) { forall n :: 0 <= n < |s.nodes| ==> ValueOk(s, n) }

  /** A step other than a take or a removal takes no value out. */
  lemma ValueStays(s: State, a: Action, n: nat)
    requires Inv(s) && Enabled(s, a) && !a.Take? && !(a.Remove? && Unlinks(s, a.n))
    requires n < |Next(s, a).nodes| && (n < |s.nodes| ==> ValueOk(s, n))
    ensures ValueOk(Next(s, a), n)
  {
    if a.Push? { assert Next(s, a).tr.chain[|s.tr.chain|] == |s.nodes|; }
  }

  lemma ValueTaken(s: State, n: nat)
    requires Inv(s) && Enabled(s, Take) && n < |s.nodes| && ValueOk(s, n)
    ensures |TakeStep(s).nodes| == |s.nodes| && ValueOk(TakeStep(s), n)
  {
    assert s.tr.chain == [s.tail] + s.tr.chain[1..];
  }

  lemma WithoutKeeps(c: seq<nat>, m: nat, n: nat)
    requires n in c && n != m
    ensures n in Without(c, m)
  {
    var k, j := IndexOf(c, m), IndexOf(c, n);
    assert k < |c| ==> c == c[..k] + [c[k]] + c[k + 1..];
  }

  lemma UnlinkValues(nodes: seq<Node>, m: nat, n: nat)
    requires m < |nodes| && 0 <= nodes[m].prev < |nodes| && 0 <= nodes[m].next < |nodes| && n < |nodes|
    ensures var after := UnlinkNode(nodes, m); |after| == |nodes| && after[n].value == (if n == m then None else nodes[n].value)
  {
  }

  lemma ValueUnlinked(s: State, m: nat, n: nat)
    requires Enabled(s, Remove(m)) && Unlinks(s, m) && n < |s.nodes| && ValueOk(s, n)
    ensures |UnlinkStep(s, m).nodes| == |s.nodes| && ValueOk(UnlinkStep(s, m), n)
  {
    UnlinkValues(s.nodes, m, n);
    if n != m && n in s.tr.chain { WithoutKeeps(s.tr.chain, m, n); }
  }

  lemma ValueStep(s: State, a: Action, n: nat)
    requires Inv(s) && Enabled(s, a) && n < |Next(s, a).nodes| && (n < |s.nodes| ==> ValueOk(s, n))
    ensures ValueOk(Next(s, a), n)
  {
    if a.Take? { ValueTaken(s, n); }
    else if a.Remove? && Unlinks(s, a.n) { ValueUnlinked(s, a.n, n); }
    else { ValueStays(s, a, n); }
  }

  ghost predicate Safer(s: State) { Safe(s) && Neighbours(s) && Values(s) }

  lemma ReachableSafer(s: State)
    requires Reachable(s)
    ensures Safer(s)
  {
    forall s0 | Initial(s0) ensures Safer(s0) {
      var threads: nat :| s0 == Start(threads);
      StartInv(threads);
    }
    forall s1, s2 | Safer(s1) && Step(s1, s2) ensures Safer(s2) {
      var a: Action :| Enabled(s1, a) && s2 == Next(s1, a);
      InvStep(s1, a);
      HoldersStep(s1, a);
      forall i | 0 <= i < |s2.pcs| ensures NextTo(s2.tr, s2.pcs[i]) {
        NeighbourStep(s1, a, i);
      }
      forall n | 0 <= n < |s2.nodes| ensures ValueOk(s2, n) {
        ValueStep(s1, a, n);
      }
    }
    InvariantHolds(Initial, Step, Safer, s);
  }

  /**
   * `push` answers that its node is the head only if it is the first one in the list; and if it is and the
   * answer is no, then the node before it was taken out by a removal.
   */
  lemma HeadAnswer(s: State, i: nat)
    requires Reachable(s) && i < |s.pcs| && s.pcs[i].Joined?
    ensures AnswersHead(s, s.pcs[i]) ==> |s.tr.chain| > 1 && s.tr.chain[1] == s.pcs[i].node
    ensures |s.tr.chain| > 1 && s.tr.chain[1] == s.pcs[i].node && !AnswersHead(s, s.pcs[i]) ==> s.pcs[i].prev in s.tr.removed
  {
    ReachableSafer(s);
    var p, c := s.pcs[i], s.tr.chain;
    assert PcOk(s.nodes, c, i, p) && NextTo(s.tr, p);
    SecondIsNext(s.nodes, c);
    assert c[0] in c && (p.node in c ==> |c| > 1 ==> c[1] in c);
  }

  lemma SecondIsNext(nodes: seq<Node>, chain: seq<nat>)
    requires Increasing(nodes, chain)
    ensures forall m :: m in chain && m != chain[0] ==> |chain| > 1 && m >= chain[1]
  {
  }

  /** A push stays with its node and the one before it, and ends by handing out the node's handle. */
  lemma PushGivesHandle(s: State, a: Action, i: nat)
    requires Reachable(s) && Enabled(s, a) && i < |s.pcs|
    ensures var t := Next(s, a); var p := s.pcs[i];
            && |t.pcs| == |s.pcs|
            && (p.Idle? && !t.pcs[i].Idle? ==>
                  && a.Push? && a.i == i && t.pcs[i].node == |s.nodes| && t.pcs[i].prev == s.head
                  && t.tr.log == s.tr.log + [a.v])
            && (!p.Idle? && !t.pcs[i].Idle? ==> t.pcs[i].node == p.node && t.pcs[i].prev == p.prev && !(a.Push? && a.i == i))
            && (!p.Idle? && t.pcs[i].Idle? ==> p.Joined? && p.node !in s.handles && t.handles == s.handles + {p.node})
            && (|t.tr.log| > |s.tr.log| ==> a.Push?)
  {
    ReachableInv(s);
    assert PcOk(s.nodes, s.tr.chain, i, s.pcs[i]);
    assert !s.pcs[i].Idle? ==> !HandleOk(s.nodes, s.pcs, s.pcs[i].node);
  }

  // ---------------------------------------------------------------- pop, pop_if and remove

  /** In a `pop` or `pop_if` that has taken nothing. */
  predicate Seeking(c: Consumer) { c.PopClear? || c.PopSpin? || c.IfSpin? || c.IfClear? || c.Move? }

  predicate Removing(c: Consumer) { c.Unlinked? || c.Dropping? }

  predicate ByConsumer(a: Action) {
    a.PopStart? || a.PopIfStart? || a.Clear? || a.Spin? || a.Reject? || a.Take? || a.Remove? || a.Let?
  }

  /** How the consumer's calls go. */
  predicate PlainMove(s: State, t: State, a: Action) {
    match s.cp
    case Ready => if a.PopStart? || a.PopIfStart? then Seeking(t.cp) else a.Remove? && Removing(t.cp)
    case Release(_) => t.cp.Ready?
    case Unlinked(_) => Removing(t.cp)
    case Dropping(_) => t.cp.Ready?
    // one value is taken, and only a `pop_if` whose condition refuses it comes back with nothing
    case IfClear(_) => Seeking(t.cp) || (t.cp.Ready? && a.Reject?)
    case _ => Seeking(t.cp) || t.cp.Release?
  }

  /** The values taken out by a step. */
  predicate PlainValues(s: State, t: State, a: Action) {
    && (if Seeking(s.cp) && t.cp.Release?
        then |s.tr.chain| > 1 && s.tr.chain[1] < |s.tr.log| && t.tr.out == s.tr.out + [s.tr.log[s.tr.chain[1]]]
        else t.tr.out == s.tr.out)
    && (if s.cp.Ready? && t.cp.Unlinked?
        then a.Remove? && a.n < |s.tr.log| && t.tr.removed == s.tr.removed[a.n := s.tr.log[a.n]]
        else t.tr.removed == s.tr.removed)
  }

  lemma TakeValue(s: State)
    requires Enabled(s, Take) && |s.tr.chain| > 1 && s.cp.next == s.tr.chain[1] && s.tr.chain[1] < |s.tr.log|
    requires s.nodes[s.cp.next].value == Some(s.tr.log[s.tr.chain[1]])
    ensures PlainValues(s, Next(s, Take), Take)
  {
  }

  lemma RemoveValue(s: State, n: nat)
    requires Enabled(s, Remove(n)) && n < |s.tr.log| && (Unlinks(s, n) ==> s.nodes[n].value == Some(s.tr.log[n]))
    ensures PlainValues(s, Next(s, Remove(n)), Remove(n))
  {
  }

  lemma OtherValues(s: State, a: Action)
    requires Enabled(s, a) && !a.Take? && !a.Remove?
    ensures PlainValues(s, Next(s, a), a)
  {
  }

  lemma ConsumerMoves(s: State, a: Action)
    requires Enabled(s, a)
    ensures if ByConsumer(a) then PlainMove(s, Next(s, a), a) else Next(s, a).cp == s.cp
  {
  }

  /** The value of the node that a removal is about. */
  lemma ValueOf(s: State, n: nat)
    requires Inv(s) && n in s.handles && n < |s.nodes|
    ensures |s.tr.log| == |s.nodes| && (Unlinks(s, n) ==> s.nodes[n].value == Some(s.tr.log[n]))
  {
    assert HandleOk(s.nodes, s.pcs, n);
    if Unlinks(s, n) {
      var k := UnlinkPlace(s, n);
      assert Place(s.nodes, s.tr.chain, s.tr.log, k);
    }
  }

  /**
   * A `pop` of a list that is not empty ends with one value, the first in the list, and so does a `pop_if` unless
   * its condition refuses that value; a removal ends with its node's value, or with nothing; and nothing else
   * takes a value.
   */
  lemma TakesOneValue(s: State, a: Action)
    requires Reachable(s) && Enabled(s, a)
    ensures if ByConsumer(a) then PlainMove(s, Next(s, a), a) else Next(s, a).cp == s.cp
    ensures PlainValues(s, Next(s, a), a)
  {
    ReachableInv(s);
    ConsumerMoves(s, a);
    match a
    case Take =>
      assert Place(s.nodes, s.tr.chain, s.tr.log, 1);
      TakeValue(s);
    case Remove(n) =>
      ValueOf(s, n);
      RemoveValue(s, n);
    case _ => OtherValues(s, a);
  }

  /** A node has its value exactly while it is in the list, behind the tail: a pop and a removal take it out. */
  lemma ValueInList(s: State, n: nat)
    requires Reachable(s) && n < |s.nodes|
    ensures s.nodes[n].value.Some? <==> n in s.tr.chain && n != s.tail
  {
    ReachableSafer(s);
    assert ValueOk(s, n);
    LeavesOnceInOrder(s);
  }

  /** A list that looks empty is: everything pushed was popped or removed. */
  lemma EmptyMeansGone(s: State)
    requires Reachable(s)
    ensures s.head == s.tail <==> s.tr.chain == [s.tail]
    ensures s.head == s.tail ==> s.tail == |s.tr.log| - 1 && s.tr.out == Kept(s.tr.log, s.tr.removed, s.tail)
  {
    ReachableInv(s);
    assert |s.tr.chain| > 1 ==> s.tr.chain[0] < s.tr.chain[|s.tr.chain| - 1];
  }
}
