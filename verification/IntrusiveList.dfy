/**
 * The intrusive list of may_queue/src/mpsc_list_v1.rs with many pushers, one consumer and handles
 * that anybody may drop, as a step machine. Pushers share `head`, the `next` of the node before
 * theirs and nothing else with the consumer; handles share the reference count.
 */
module IntrusiveList {
  import opened Options
  import opened Traces

  /**
   * A node as in memory, and after it three history flags: whether its pusher has linked it,
   * whether the list holds its reference, whether a handle (or the pusher) holds the other one.
   */
  datatype Node = Node(
    prev: int, next: int, value: Option<int>, linkBit: bool, refs: int, freed: bool,
    owner: nat, joined: bool, inList: bool, held: bool)

  datatype Pusher =
    | Idle
    | Swapped(node: nat, prev: nat)   // about to set the node's `prev`
    | PrevSet(node: nat, prev: nat)   // about to link from `prev`
    | Joined(node: nat, prev: nat)    // about to compare `prev` with `tail` and return the handle

  datatype Consumer =
    | Ready
    | PopClear                        // pop: about to clear the link bit of the tail
    | PopSpin                         // pop: waiting for the tail's `next`
    | IfSpin                          // pop_if: waiting for the tail's `next`
    | IfClear(next: nat)              // pop_if: the value was accepted
    | Move(next: nat)                 // about to step to `next` and take its value
    | Release(node: nat)              // about to drop the list's reference
    | Unlinked(node: nat)             // remove: about to drop the list's reference
    | Dropping(node: nat)             // remove: about to drop its own handle

  /** `chain` is the list from `tail` to `head`; `log` has the value of every node ever pushed. */
  datatype Trace = Trace(chain: seq<nat>, log: seq<int>, out: seq<int>, removed: map<nat, int>)

  datatype State = State(
    nodes: seq<Node>, head: nat, tail: nat, handles: set<nat>, pcs: seq<Pusher>, cp: Consumer, tr: Trace)

  datatype Action =
    | Push(i: nat, v: int) | SetPrev(i: nat) | Link(i: nat) | Return(i: nat) | Drop(n: nat)
    | PopStart | PopIfStart | Clear | Spin | Reject | Take | Remove(n: nat) | Let

  function NewNode(v: int, i: nat): Node { Node(-1, -1, Some(v), true, 2, false, i, false, true, true) }

  function Stub(): Node { Node(-1, -1, None, false, 1, false, 0, true, true, false) }

  function Start(threads: nat): State {
    State([Stub()], 0, 0, {}, seq(threads, _ => Idle), Ready, Trace([0], [0], [], map[]))
  }

  /** `fetch_sub` on the reference word; the one that finds 1 in it frees the node. */
  function Sub(n: Node): Node { n.(refs := n.refs - 1, freed := n.freed || (n.refs == 1 && !n.linkBit)) }

  function IndexOf(c: seq<nat>, n: nat): (k: nat)
    ensures k <= |c| && (k < |c| ==> c[k] == n) && (n in c ==> k < |c|)
  {
    if c == [] || c[0] == n then 0 else 1 + IndexOf(c[1..], n)
  }

  function Without(c: seq<nat>, n: nat): seq<nat> {
    var k := IndexOf(c, n);
    if k < |c| then c[..k] + c[k + 1..] else c
  }

  /** The nodes a step reads or writes through a pointer. */
  function Touches(s: State, a: Action): set<nat> {
    match a
    case Push(_, _) => {}
    case SetPrev(i) => if i < |s.pcs| && s.pcs[i].Swapped? then {s.pcs[i].node} else {}
    case Link(i) => if i < |s.pcs| && s.pcs[i].PrevSet? then {s.pcs[i].prev} else {}
    case Return(_) => {}
    case Drop(n) => {n}
    case PopStart => {}
    case PopIfStart => {}
    case Clear => {s.tail}
    case Spin => {s.tail}
    case Reject => if s.cp.IfClear? then {s.cp.next} else {}
    case Take => if s.cp.Move? then {s.tail, s.cp.next} else {}
    case Remove(n) => if Unlinks(s, n) then {n, s.nodes[n].next, s.nodes[n].prev} else {n}
    case Let => if s.cp.Release? || s.cp.Unlinked? || s.cp.Dropping? then {s.cp.node} else {}
  }

  /** `Entry::remove` acts: the node is linked, is not the tail and has a successor. */
  predicate Unlinks(s: State, n: nat) {
    n < |s.nodes| && s.nodes[n].linkBit && s.nodes[n].prev >= 0 && s.nodes[n].next >= 0
  }

  predicate Enabled(s: State, a: Action) {
    match a
    case Push(i, _) => i < |s.pcs| && s.pcs[i].Idle?
    case SetPrev(i) => i < |s.pcs| && s.pcs[i].Swapped? && s.pcs[i].node < |s.nodes|
    case Link(i) => i < |s.pcs| && s.pcs[i].PrevSet? && s.pcs[i].prev < |s.nodes|
    case Return(i) => i < |s.pcs| && s.pcs[i].Joined?
    case Drop(n) => n in s.handles && n < |s.nodes|
    case PopStart => s.cp.Ready? && s.head != s.tail
    case PopIfStart => s.cp.Ready? && s.head != s.tail
    case Clear => (s.cp.PopClear? || s.cp.IfClear?) && s.tail < |s.nodes|
    case Spin => (s.cp.PopSpin? || s.cp.IfSpin?) && s.tail < |s.nodes| && s.nodes[s.tail].next >= 0
    case Reject => s.cp.IfClear?
    case Take => s.cp.Move? && s.cp.next < |s.nodes| && s.nodes[s.cp.next].value.Some?
    case Remove(n) =>
      && s.cp.Ready? && n in s.handles && n < |s.nodes|
      && (Unlinks(s, n) ==> s.nodes[n].value.Some? && s.nodes[n].prev < |s.nodes| && s.nodes[n].next < |s.nodes|)
    case Let => (s.cp.Release? || s.cp.Unlinked? || s.cp.Dropping?) && s.cp.node < |s.nodes|
  }

  function Next(s: State, a: Action): State
    requires Enabled(s, a)
  {
    match a
    case Push(i, v) =>
      var n := |s.nodes|;
      s.(nodes := s.nodes + [NewNode(v, i)], head := n, pcs := s.pcs[i := Swapped(n, s.head)],
         tr := s.tr.(chain := s.tr.chain + [n], log := s.tr.log + [v]))
    case SetPrev(i) =>
      var n := s.pcs[i].node;
      s.(nodes := s.nodes[n := s.nodes[n].(prev := s.pcs[i].prev)], pcs := s.pcs[i := PrevSet(n, s.pcs[i].prev)])
    case Link(i) =>
      var n, b := s.pcs[i].node, s.pcs[i].prev;
      var linked := s.nodes[b := s.nodes[b].(next := n)];
      s.(nodes := if n < |linked| then linked[n := linked[n].(joined := true)] else linked, pcs := s.pcs[i := Joined(n, b)])
    case Return(i) => s.(handles := s.handles + {s.pcs[i].node}, pcs := s.pcs[i := Idle])
    case Drop(n) => s.(handles := s.handles - {n}, nodes := s.nodes[n := Sub(s.nodes[n]).(held := false)])
    case PopStart => s.(cp := PopClear)
    case PopIfStart => s.(cp := IfSpin)
    case Clear =>
      s.(nodes := s.nodes[s.tail := s.nodes[s.tail].(linkBit := false)],
         cp := if s.cp.PopClear? then PopSpin else Move(s.cp.next))
    case Spin => s.(cp := if s.cp.PopSpin? then Move(s.nodes[s.tail].next) else IfClear(s.nodes[s.tail].next))
    case Reject => s.(cp := Ready)
    case Take => TakeStep(s)
    case Remove(n) => if Unlinks(s, n) then UnlinkStep(s, n) else s.(handles := s.handles - {n}, cp := Dropping(n))
    case Let => LetStep(s)
  }

  function TakeStep(s: State): State
    requires Enabled(s, Take)
  {
    var n := s.cp.next;
    s.(nodes := s.nodes[n := s.nodes[n].(prev := -1, value := None)], tail := n, cp := Release(s.tail),
       tr := s.tr.(chain := if s.tr.chain == [] then [] else s.tr.chain[1..], out := s.tr.out + [s.nodes[n].value.value]))
  }

  function UnlinkNode(nodes: seq<Node>, n: nat): seq<Node>
    requires n < |nodes| && 0 <= nodes[n].prev < |nodes| && 0 <= nodes[n].next < |nodes|
  {
    var b, c := nodes[n].prev, nodes[n].next;
    var first := nodes[n := nodes[n].(linkBit := false, value := None)];
    var second := first[c := first[c].(prev := b)];
    second[b := second[b].(next := c)]
  }

  function UnlinkStep(s: State, n: nat): State
    requires Enabled(s, Remove(n)) && Unlinks(s, n)
  {
    s.(handles := s.handles - {n}, nodes := UnlinkNode(s.nodes, n), cp := Unlinked(n),
       tr := s.tr.(chain := Without(s.tr.chain, n), removed := s.tr.removed[n := s.nodes[n].value.value]))
  }

  function LetStep(s: State): State
    requires Enabled(s, Let)
  {
    var n := s.cp.node;
    if s.cp.Dropping? then s.(nodes := s.nodes[n := Sub(s.nodes[n]).(held := false)], cp := Ready)
    else s.(nodes := s.nodes[n := Sub(s.nodes[n]).(inList := false)], cp := if s.cp.Release? then Ready else Dropping(n))
  }

  // ---------------------------------------------------------------- the invariant

  function Bit(b: bool): int { if b then 1 else 0 }

  predicate NodeOk(n: Node) {
    n.refs == Bit(n.inList) + Bit(n.held) && n.freed == (n.refs == 0) && (n.linkBit ==> n.inList)
  }

  /** Reference counts count the holders, and linked nodes are in the chain. */
  ghost predicate Counts(nodes: seq<Node>, chain: seq<nat>) {
    forall n :: 0 <= n < |nodes| ==> NodeOk(nodes[n]) && (nodes[n].linkBit ==> n in chain)
  }

  ghost predicate Increasing(nodes: seq<Node>, chain: seq<nat>) {
    && chain != [] && chain[|chain| - 1] == |nodes| - 1
    && (forall j, k :: 0 <= j < k < |chain| ==> chain[j] < chain[k])
    && (forall k :: 0 <= k < |chain| ==> chain[k] < |nodes|)
  }

  ghost predicate Place(nodes: seq<Node>, chain: seq<nat>, log: seq<int>, k: nat)
    requires k < |chain| && Increasing(nodes, chain) && |log| == |nodes|
  {
    var n := nodes[chain[k]];
    && n.inList
    && (k == 0 ==> n.value.None? && n.prev == -1 && n.joined)
    && (k > 0 ==> n.linkBit && n.value == Some(log[chain[k]]) && (n.joined ==> n.prev == chain[k - 1]))
    && n.next == (if k + 1 < |chain| && nodes[chain[k + 1]].joined then chain[k + 1] else -1)
  }

  ghost predicate ChainOk(nodes: seq<Node>, chain: seq<nat>, log: seq<int>) {
    && Increasing(nodes, chain) && |log| == |nodes|
    && (forall k :: 0 <= k < |chain| ==> Place(nodes, chain, log, k))
  }

  /** A node that is not linked yet has a pusher that will link it from the node before it. */
  ghost predicate AwaitedAt(nodes: seq<Node>, chain: seq<nat>, pcs: seq<Pusher>, k: nat)
    requires 0 < k < |chain| && chain[k] < |nodes|
  {
    var i := nodes[chain[k]].owner;
    nodes[chain[k]].joined
    || (i < |pcs| && (pcs[i] == Swapped(chain[k], chain[k - 1]) || pcs[i] == PrevSet(chain[k], chain[k - 1])))
  }

  ghost predicate Awaited(nodes: seq<Node>, chain: seq<nat>, pcs: seq<Pusher>)
    requires Increasing(nodes, chain)
  {
    forall k :: 0 < k < |chain| ==> AwaitedAt(nodes, chain, pcs, k)
  }

  ghost predicate PcOk(nodes: seq<Node>, chain: seq<nat>, i: nat, p: Pusher) {
    p.Idle? ||
    (&& p.node < |nodes| && nodes[p.node].owner == i && nodes[p.node].held && (p.Joined? <==> nodes[p.node].joined)
     && (!p.Joined? ==> p.node in chain) && (p.PrevSet? ==> nodes[p.node].prev == p.prev))
  }

  predicate HandleOk(nodes: seq<Node>, pcs: seq<Pusher>, n: nat) {
    && n < |nodes| && nodes[n].held && nodes[n].joined
    && nodes[n].owner < |pcs| && var p := pcs[nodes[n].owner]; p.Idle? || p.node != n
  }

  ghost predicate CpOk(s: State) {
    var c := s.tr.chain;
    match s.cp
    case Ready => true
    case PopClear => |c| > 1
    case PopSpin => |c| > 1 && s.tail < |s.nodes| && !s.nodes[s.tail].linkBit
    case IfSpin => |c| > 1
    case IfClear(n) => |c| > 1 && n == c[1] && n < |s.nodes| && s.nodes[n].joined
    case Move(n) => |c| > 1 && n == c[1] && n < |s.nodes| && s.nodes[n].joined && s.tail < |s.nodes| && !s.nodes[s.tail].linkBit
    case Release(n) => n < |s.nodes| && s.nodes[n].inList && !s.nodes[n].linkBit && n !in c
    case Unlinked(n) => HandleOk(s.nodes, s.pcs, n) && n !in s.handles && s.nodes[n].inList && !s.nodes[n].linkBit && n !in c
    case Dropping(n) => HandleOk(s.nodes, s.pcs, n) && n !in s.handles
  }

  /** The values of nodes 1 to `n` that were not removed, in push order. */
  function Kept(log: seq<int>, removed: map<nat, int>, n: nat): seq<int>
    requires n < |log|
  {
    if n == 0 then [] else Kept(log, removed, n - 1) + (if n in removed then [] else [log[n]])
  }

  ghost predicate TraceOk(tr: Trace) {
    && tr.chain != [] && tr.chain[0] < |tr.log| && tr.out == Kept(tr.log, tr.removed, tr.chain[0])
    && (forall n :: n in tr.removed ==> 0 < n < |tr.log| && tr.removed[n] == tr.log[n] && n !in tr.chain)
    && (forall n :: tr.chain[0] < n < |tr.log| ==> n in tr.chain || n in tr.removed)
  }

  ghost predicate Shape(nodes: seq<Node>, chain: seq<nat>, log: seq<int>, pcs: seq<Pusher>) {
    Counts(nodes, chain) && ChainOk(nodes, chain, log) && Awaited(nodes, chain, pcs)
  }

  ghost predicate PcsOk(nodes: seq<Node>, chain: seq<nat>, pcs: seq<Pusher>) {
    forall i :: 0 <= i < |pcs| ==> PcOk(nodes, chain, i, pcs[i])
  }

  predicate HandlesOk(nodes: seq<Node>, pcs: seq<Pusher>, handles: set<nat>) {
    forall n :: n in handles ==> HandleOk(nodes, pcs, n)
  }

  ghost predicate Parties(s: State) {
    PcsOk(s.nodes, s.tr.chain, s.pcs) && HandlesOk(s.nodes, s.pcs, s.handles) && CpOk(s)
  }

  ghost predicate Inv(s: State) {
    && Shape(s.nodes, s.tr.chain, s.tr.log, s.pcs) && Parties(s) && TraceOk(s.tr)
    && s.tail == s.tr.chain[0] && s.head == |s.nodes| - 1
  }

  // ---------------------------------------------------------------- one node's counts change

  /** `v` differs from `u` only in who holds it and in its link bit. */
  predicate Recounted(u: Node, v: Node) {
    v == u.(linkBit := v.linkBit, refs := v.refs, freed := v.freed, inList := v.inList, held := v.held)
    && NodeOk(v) && (v.linkBit ==> u.linkBit)
  }

  lemma TouchShape(nodes: seq<Node>, chain: seq<nat>, log: seq<int>, pcs: seq<Pusher>, n: nat, v: Node)
    requires Shape(nodes, chain, log, pcs) && n < |nodes| && Recounted(nodes[n], v)
    requires n in chain ==> v.inList && (n != chain[0] ==> v.linkBit == nodes[n].linkBit)
    ensures Shape(nodes[n := v], chain, log, pcs)
  {
    var after := nodes[n := v];
    forall k | 0 <= k < |chain|
      ensures Place(after, chain, log, k)
    {
      assert Place(nodes, chain, log, k);
    }
    forall k | 0 < k < |chain|
      ensures AwaitedAt(after, chain, pcs, k)
    {
      assert AwaitedAt(nodes, chain, pcs, k);
    }
  }

  lemma TouchParties(nodes: seq<Node>, chain: seq<nat>, pcs: seq<Pusher>, handles: set<nat>, n: nat, v: Node)
    requires PcsOk(nodes, chain, pcs) && HandlesOk(nodes, pcs, handles) && n < |nodes| && Recounted(nodes[n], v)
    requires v.held == nodes[n].held || (HandleOk(nodes, pcs, n) && n !in handles)
    ensures PcsOk(nodes[n := v], chain, pcs) && HandlesOk(nodes[n := v], pcs, handles)
  {
    var after := nodes[n := v];
    forall i | 0 <= i < |pcs|
      ensures PcOk(after, chain, i, pcs[i])
    {
      assert PcOk(nodes, chain, i, pcs[i]);
    }
  }

  lemma DropStep(s: State, n: nat)
    requires Inv(s) && Enabled(s, Drop(n))
    ensures Inv(Next(s, Drop(n)))
  {
    var v := Sub(s.nodes[n]).(held := false);
    assert NodeOk(s.nodes[n]) && HandleOk(s.nodes, s.pcs, n);
    assert n in s.tr.chain ==> s.nodes[n].inList by {
      if k :| 0 <= k < |s.tr.chain| && s.tr.chain[k] == n { assert Place(s.nodes, s.tr.chain, s.tr.log, k); }
    }
    TouchShape(s.nodes, s.tr.chain, s.tr.log, s.pcs, n, v);
    TouchParties(s.nodes, s.tr.chain, s.pcs, s.handles - {n}, n, v);
  }

  lemma ClearStep(s: State)
    requires Inv(s) && Enabled(s, Clear)
    ensures Inv(Next(s, Clear))
  {
    var n := s.tail;
    var v := s.nodes[n].(linkBit := false);
    assert NodeOk(s.nodes[n]);
    assert Place(s.nodes, s.tr.chain, s.tr.log, 0);
    TouchShape(s.nodes, s.tr.chain, s.tr.log, s.pcs, n, v);
    TouchParties(s.nodes, s.tr.chain, s.pcs, s.handles, n, v);
  }

  lemma LetKeeps(s: State)
    requires Inv(s) && Enabled(s, Let)
    ensures Inv(LetStep(s))
  {
    var n := s.cp.node;
    assert NodeOk(s.nodes[n]);
    var v := if s.cp.Dropping? then Sub(s.nodes[n]).(held := false) else Sub(s.nodes[n]).(inList := false);
    assert n in s.tr.chain ==> s.nodes[n].inList by {
      if k :| 0 <= k < |s.tr.chain| && s.tr.chain[k] == n { assert Place(s.nodes, s.tr.chain, s.tr.log, k); }
    }
    TouchShape(s.nodes, s.tr.chain, s.tr.log, s.pcs, n, v);
    TouchParties(s.nodes, s.tr.chain, s.pcs, s.handles, n, v);
  }

  lemma LocalStep(s: State, a: Action)
    requires Inv(s) && Enabled(s, a) && (a.PopStart? || a.PopIfStart? || a.Spin? || a.Reject?)
    ensures Inv(Next(s, a))
  {
    assert Place(s.nodes, s.tr.chain, s.tr.log, 0);
  }

  // ---------------------------------------------------------------- pushing

  lemma ReturnStep(s: State, i: nat)
    requires Inv(s) && Enabled(s, Return(i))
    ensures Inv(Next(s, Return(i)))
  {
    var t := Next(s, Return(i));
    assert PcOk(s.nodes, s.tr.chain, i, s.pcs[i]);
    forall k | 0 < k < |s.tr.chain|
      ensures AwaitedAt(t.nodes, t.tr.chain, t.pcs, k)
    {
      assert AwaitedAt(s.nodes, s.tr.chain, s.pcs, k);
    }
  }

  /** Where a pusher that has not linked its node stands. */
  lemma Where(nodes: seq<Node>, chain: seq<nat>, log: seq<int>, pcs: seq<Pusher>, i: nat) returns (k: nat)
    requires Shape(nodes, chain, log, pcs) && i < |pcs| && PcOk(nodes, chain, i, pcs[i])
    requires pcs[i].Swapped? || pcs[i].PrevSet?
    ensures 0 < k < |chain| && chain[k] == pcs[i].node && chain[k - 1] == pcs[i].prev
    ensures nodes[chain[k - 1]].inList && nodes[chain[k]].inList
  {
    k :| 0 <= k < |chain| && chain[k] == pcs[i].node;
    assert Place(nodes, chain, log, k);
    if k > 0 {
      assert Place(nodes, chain, log, k - 1) && AwaitedAt(nodes, chain, pcs, k);
    }
  }

  lemma SetPrevStep(s: State, i: nat)
    requires Inv(s) && Enabled(s, SetPrev(i))
    ensures Inv(Next(s, SetPrev(i)))
  {
    var k0 := Where(s.nodes, s.tr.chain, s.tr.log, s.pcs, i);
    var t := Next(s, SetPrev(i));
    SetPrevShape(s, i, k0);
    forall j | 0 <= j < |t.pcs|
      ensures PcOk(t.nodes, t.tr.chain, j, t.pcs[j])
    {
      assert PcOk(s.nodes, s.tr.chain, j, s.pcs[j]);
    }
  }

  lemma SetPrevShape(s: State, i: nat, k0: nat)
    requires Shape(s.nodes, s.tr.chain, s.tr.log, s.pcs) && Enabled(s, SetPrev(i)) && 0 < k0 < |s.tr.chain|
    requires s.tr.chain[k0] == s.pcs[i].node && s.tr.chain[k0 - 1] == s.pcs[i].prev && !s.nodes[s.tr.chain[k0]].joined
    ensures var t := Next(s, SetPrev(i)); Shape(t.nodes, t.tr.chain, t.tr.log, t.pcs)
  {
    var t, chain := Next(s, SetPrev(i)), s.tr.chain;
    forall k | 0 <= k < |chain|
      ensures Place(t.nodes, chain, s.tr.log, k)
    {
      assert Place(s.nodes, chain, s.tr.log, k);
    }
    forall k | 0 < k < |chain|
      ensures AwaitedAt(t.nodes, chain, t.pcs, k)
    {
      assert AwaitedAt(s.nodes, chain, s.pcs, k);
    }
  }

  lemma LinkStep(s: State, i: nat)
    requires Inv(s) && Enabled(s, Link(i))
    ensures Inv(Next(s, Link(i)))
  {
    var k := Where(s.nodes, s.tr.chain, s.tr.log, s.pcs, i);
    LinkShape(s, i, k);
    LinkParties(s, i, k);
  }

  lemma LinkParties(s: State, i: nat, k: nat)
    requires Increasing(s.nodes, s.tr.chain) && Parties(s) && Enabled(s, Link(i)) && 0 < k < |s.tr.chain|
    requires s.tr.chain[k] == s.pcs[i].node && s.tr.chain[k - 1] == s.pcs[i].prev
    ensures Parties(Next(s, Link(i)))
  {
    var t := Next(s, Link(i));
    forall j | 0 <= j < |t.pcs|
      ensures PcOk(t.nodes, t.tr.chain, j, t.pcs[j])
    {
      assert PcOk(s.nodes, s.tr.chain, j, s.pcs[j]);
    }
    forall n | n in t.handles
      ensures HandleOk(t.nodes, t.pcs, n)
    {
      assert HandleOk(s.nodes, s.pcs, n);
    }
  }

  lemma LinkShape(s: State, i: nat, k0: nat)
    requires Shape(s.nodes, s.tr.chain, s.tr.log, s.pcs) && Enabled(s, Link(i)) && 0 < k0 < |s.tr.chain|
    requires s.tr.chain[k0] == s.pcs[i].node && s.tr.chain[k0 - 1] == s.pcs[i].prev
    requires s.nodes[s.tr.chain[k0]].prev == s.tr.chain[k0 - 1]
    ensures var t := Next(s, Link(i)); Shape(t.nodes, t.tr.chain, t.tr.log, t.pcs)
  {
    var t, chain := Next(s, Link(i)), s.tr.chain;
    forall k | 0 <= k < |chain|
      ensures Place(t.nodes, chain, s.tr.log, k)
    {
      assert Place(s.nodes, chain, s.tr.log, k);
    }
    forall k | 0 < k < |chain|
      ensures AwaitedAt(t.nodes, chain, t.pcs, k)
    {
      assert AwaitedAt(s.nodes, chain, s.pcs, k);
    }
  }

  lemma PushShape(s: State, i: nat, v: int)
    requires Shape(s.nodes, s.tr.chain, s.tr.log, s.pcs) && Enabled(s, Push(i, v)) && s.head == |s.nodes| - 1
    ensures var t := Next(s, Push(i, v)); Shape(t.nodes, t.tr.chain, t.tr.log, t.pcs)
  {
    var t := Next(s, Push(i, v));
    assert t.tr.chain[|s.tr.chain|] == |s.nodes|;
    forall k | 0 <= k < |t.tr.chain|
      ensures Place(t.nodes, t.tr.chain, t.tr.log, k)
    {
      assert k < |s.tr.chain| ==> Place(s.nodes, s.tr.chain, s.tr.log, k);
    }
    forall k | 0 < k < |t.tr.chain|
      ensures AwaitedAt(t.nodes, t.tr.chain, t.pcs, k)
    {
      assert k < |s.tr.chain| ==> AwaitedAt(s.nodes, s.tr.chain, s.pcs, k);
    }
  }

  lemma PushParties(s: State, i: nat, v: int)
    requires Increasing(s.nodes, s.tr.chain) && Parties(s) && Enabled(s, Push(i, v))
    ensures Parties(Next(s, Push(i, v)))
  {
    var t := Next(s, Push(i, v));
    assert t.tr.chain[|s.tr.chain|] == |s.nodes|;
    forall j | 0 <= j < |t.pcs|
      ensures PcOk(t.nodes, t.tr.chain, j, t.pcs[j])
    {
      assert PcOk(s.nodes, s.tr.chain, j, s.pcs[j]);
    }
    forall n | n in t.handles
      ensures HandleOk(t.nodes, t.pcs, n)
    {
      assert HandleOk(s.nodes, s.pcs, n);
    }
  }

  lemma {:induction false} KeptGrows(log: seq<int>, v: int, removed: map<nat, int>, n: nat)
    requires n < |log|
    ensures Kept(log + [v], removed, n) == Kept(log, removed, n)
  {
    if n > 0 { KeptGrows(log, v, removed, n - 1); }
  }

  lemma PushTrace(tr: Trace, v: int)
    requires TraceOk(tr)
    ensures TraceOk(tr.(chain := tr.chain + [|tr.log|], log := tr.log + [v]))
  {
    KeptGrows(tr.log, v, tr.removed, tr.chain[0]);
  }

  lemma PushStep(s: State, i: nat, v: int)
    requires Inv(s) && Enabled(s, Push(i, v))
    ensures Inv(Next(s, Push(i, v)))
  {
    PushShape(s, i, v);
    PushParties(s, i, v);
    PushTrace(s.tr, v);
  }

  // ---------------------------------------------------------------- popping

  lemma TakePlace(nodes: seq<Node>, chain: seq<nat>, log: seq<int>, v: Node, k: nat)
    requires ChainOk(nodes, chain, log) && k + 1 < |chain| && nodes[chain[1]].joined
    requires v == nodes[chain[1]].(prev := -1, value := None) && Increasing(nodes[chain[1] := v], chain[1..])
    ensures Place(nodes[chain[1] := v], chain[1..], log, k)
  {
    assert Place(nodes, chain, log, k + 1);
  }

  lemma TakeChain(nodes: seq<Node>, chain: seq<nat>, log: seq<int>, v: Node)
    requires ChainOk(nodes, chain, log) && |chain| > 1 && nodes[chain[1]].joined
    requires v == nodes[chain[1]].(prev := -1, value := None)
    ensures ChainOk(nodes[chain[1] := v], chain[1..], log)
  {
    var after, rest := nodes[chain[1] := v], chain[1..];
    forall k | 0 <= k < |rest|
      ensures Place(after, rest, log, k)
    {
      TakePlace(nodes, chain, log, v, k);
    }
  }

  lemma TakeShape(s: State)
    requires Shape(s.nodes, s.tr.chain, s.tr.log, s.pcs) && CpOk(s) && Enabled(s, Take) && s.tail == s.tr.chain[0]
    ensures var t := TakeStep(s); Shape(t.nodes, t.tr.chain, t.tr.log, t.pcs)
  {
    var t := TakeStep(s);
    TakeChain(s.nodes, s.tr.chain, s.tr.log, t.nodes[s.cp.next]);
    forall k | 0 < k < |t.tr.chain|
      ensures AwaitedAt(t.nodes, t.tr.chain, t.pcs, k)
    {
      assert AwaitedAt(s.nodes, s.tr.chain, s.pcs, k + 1);
    }
    forall n | 0 <= n < |t.nodes|
      ensures NodeOk(t.nodes[n]) && (t.nodes[n].linkBit ==> n in t.tr.chain)
    {
      assert NodeOk(s.nodes[n]) && (s.nodes[n].linkBit ==> n in s.tr.chain);
    }
  }

  lemma TakeParties(s: State)
    requires Shape(s.nodes, s.tr.chain, s.tr.log, s.pcs) && Parties(s) && Enabled(s, Take) && s.tail == s.tr.chain[0]
    ensures Parties(TakeStep(s))
  {
    var t := TakeStep(s);
    assert Place(s.nodes, s.tr.chain, s.tr.log, 0);
    forall i | 0 <= i < |t.pcs|
      ensures PcOk(t.nodes, t.tr.chain, i, t.pcs[i])
    {
      assert PcOk(s.nodes, s.tr.chain, i, s.pcs[i]);
    }
  }

  /** Between two neighbours of the list every node has been removed. */
  lemma {:induction false} KeptNext(tr: Trace, n: nat)
    requires TraceOk(tr) && |tr.chain| > 1 && tr.chain[0] <= n < tr.chain[1] < |tr.log|
    requires forall j, k :: 0 <= j < k < |tr.chain| ==> tr.chain[j] < tr.chain[k]
    ensures Kept(tr.log, tr.removed, n) == tr.out
  {
    if n > tr.chain[0] {
      KeptNext(tr, n - 1);
      assert n !in tr.chain;
    }
  }

  lemma TakeTrace(tr: Trace)
    requires TraceOk(tr) && |tr.chain| > 1 && tr.chain[1] < |tr.log|
    requires forall j, k :: 0 <= j < k < |tr.chain| ==> tr.chain[j] < tr.chain[k]
    ensures TraceOk(tr.(chain := tr.chain[1..], out := tr.out + [tr.log[tr.chain[1]]]))
  {
    KeptNext(tr, tr.chain[1] - 1);
    assert tr.chain[1] in tr.chain;
  }

  lemma TakeKeeps(s: State)
    requires Inv(s) && Enabled(s, Take)
    ensures Inv(TakeStep(s))
  {
    TakeShape(s);
    TakeParties(s);
    TakeTrace(s.tr);
    assert Place(s.nodes, s.tr.chain, s.tr.log, 1);
  }

  // ---------------------------------------------------------------- removing

  /** A handle's node that may be unlinked stands inside the list, linked on both sides. */
  lemma UnlinkPlace(s: State, n: nat) returns (k: nat)
    requires Shape(s.nodes, s.tr.chain, s.tr.log, s.pcs) && Unlinks(s, n) && s.nodes[n].joined
    ensures k == IndexOf(s.tr.chain, n) && 0 < k < |s.tr.chain| - 1 && s.tr.chain[k] == n
    ensures s.nodes[n].prev == s.tr.chain[k - 1] && s.nodes[n].next == s.tr.chain[k + 1] && s.nodes[s.tr.chain[k + 1]].joined
    ensures s.nodes[n].value == Some(s.tr.log[n])
  {
    assert n in s.tr.chain;
    k := IndexOf(s.tr.chain, n);
    assert Place(s.nodes, s.tr.chain, s.tr.log, k);
  }

  lemma UnlinkIncreasing(nodes: seq<Node>, chain: seq<nat>, k: nat)
    requires Increasing(nodes, chain) && 0 < k < |chain| - 1
    ensures Increasing(nodes, chain[..k] + chain[k + 1..])
    ensures forall m :: m in chain <==> m == chain[k] || m in chain[..k] + chain[k + 1..]
    ensures chain[k] !in chain[..k] + chain[k + 1..]
  {
    assert chain == chain[..k] + [chain[k]] + chain[k + 1..];
  }

  ghost predicate Inside(nodes: seq<Node>, chain: seq<nat>, k: nat)
    requires Increasing(nodes, chain)
  {
    && 0 < k < |chain| - 1 && nodes[chain[k]].prev == chain[k - 1] && nodes[chain[k]].next == chain[k + 1]
    && nodes[chain[k]].joined && nodes[chain[k + 1]].joined
  }

  lemma UnlinkChain(nodes: seq<Node>, chain: seq<nat>, log: seq<int>, k: nat)
    requires ChainOk(nodes, chain, log) && Inside(nodes, chain, k)
    ensures ChainOk(UnlinkNode(nodes, chain[k]), chain[..k] + chain[k + 1..], log)
  {
    var after, rest := UnlinkNode(nodes, chain[k]), chain[..k] + chain[k + 1..];
    UnlinkIncreasing(nodes, chain, k);
    forall j | 0 <= j < |rest|
      ensures Place(after, rest, log, j)
    {
      assert rest[j] == chain[if j < k then j else j + 1];
      assert Place(nodes, chain, log, if j < k then j else j + 1);
    }
  }

  lemma UnlinkAwaited(nodes: seq<Node>, chain: seq<nat>, pcs: seq<Pusher>, k: nat)
    requires Increasing(nodes, chain) && Inside(nodes, chain, k) && Awaited(nodes, chain, pcs) && Counts(nodes, chain)
    requires Increasing(UnlinkNode(nodes, chain[k]), chain[..k] + chain[k + 1..])
    ensures Awaited(UnlinkNode(nodes, chain[k]), chain[..k] + chain[k + 1..], pcs)
    ensures Counts(UnlinkNode(nodes, chain[k]), chain[..k] + chain[k + 1..])
  {
    var after, rest := UnlinkNode(nodes, chain[k]), chain[..k] + chain[k + 1..];
    UnlinkIncreasing(nodes, chain, k);
    forall j | 0 < j < |rest|
      ensures AwaitedAt(after, rest, pcs, j)
    {
      assert AwaitedAt(nodes, chain, pcs, if j < k then j else j + 1);
    }
    forall n | 0 <= n < |after|
      ensures NodeOk(after[n]) && (after[n].linkBit ==> n in rest)
    {
      assert NodeOk(nodes[n]);
    }
  }

  lemma UnlinkPcs(nodes: seq<Node>, chain: seq<nat>, pcs: seq<Pusher>, k: nat)
    requires Increasing(nodes, chain) && Inside(nodes, chain, k) && PcsOk(nodes, chain, pcs)
    ensures PcsOk(UnlinkNode(nodes, chain[k]), chain[..k] + chain[k + 1..], pcs)
  {
    var after, rest := UnlinkNode(nodes, chain[k]), chain[..k] + chain[k + 1..];
    UnlinkIncreasing(nodes, chain, k);
    forall i | 0 <= i < |pcs|
      ensures PcOk(after, rest, i, pcs[i])
    {
      assert PcOk(nodes, chain, i, pcs[i]);
    }
  }

  lemma UnlinkParties(s: State, n: nat, k: nat)
    requires Inv(s) && Enabled(s, Remove(n)) && Unlinks(s, n)
    requires k == IndexOf(s.tr.chain, n) && k < |s.tr.chain| && s.tr.chain[k] == n && Inside(s.nodes, s.tr.chain, k)
    ensures Parties(UnlinkStep(s, n))
  {
    var t := UnlinkStep(s, n);
    UnlinkPcs(s.nodes, s.tr.chain, s.pcs, k);
    UnlinkIncreasing(s.nodes, s.tr.chain, k);
    assert NodeOk(s.nodes[n]);
    forall h | h in t.handles + {n}
      ensures HandleOk(t.nodes, t.pcs, h)
    {
      assert HandleOk(s.nodes, s.pcs, h);
    }
  }

  lemma {:induction false} KeptRemoved(log: seq<int>, removed: map<nat, int>, m: nat, v: int, n: nat)
    requires n < |log| && n < m
    ensures Kept(log, removed[m := v], n) == Kept(log, removed, n)
  {
    if n > 0 { KeptRemoved(log, removed, m, v, n - 1); }
  }

  lemma UnlinkTrace(nodes: seq<Node>, tr: Trace, k: nat)
    requires TraceOk(tr) && Increasing(nodes, tr.chain) && |tr.log| == |nodes| && 0 < k < |tr.chain| - 1
    ensures TraceOk(tr.(chain := tr.chain[..k] + tr.chain[k + 1..], removed := tr.removed[tr.chain[k] := tr.log[tr.chain[k]]]))
  {
    UnlinkIncreasing(nodes, tr.chain, k);
    KeptRemoved(tr.log, tr.removed, tr.chain[k], tr.log[tr.chain[k]], tr.chain[0]);
  }

  lemma UnlinkKeeps(s: State, n: nat)
    requires Inv(s) && Enabled(s, Remove(n)) && Unlinks(s, n)
    ensures Inv(UnlinkStep(s, n))
  {
    assert HandleOk(s.nodes, s.pcs, n);
    var k := UnlinkPlace(s, n);
    UnlinkChain(s.nodes, s.tr.chain, s.tr.log, k);
    UnlinkAwaited(s.nodes, s.tr.chain, s.pcs, k);
    UnlinkParties(s, n, k);
    UnlinkTrace(s.nodes, s.tr, k);
  }

  lemma RefuseKeeps(s: State, n: nat)
    requires Inv(s) && Enabled(s, Remove(n)) && !Unlinks(s, n)
    ensures Inv(Next(s, Remove(n)))
  {
    assert HandleOk(s.nodes, s.pcs, n);
  }

  lemma InvStep(s: State, a: Action)
    requires Inv(s) && Enabled(s, a)
    ensures Inv(Next(s, a))
  {
    match a
    case Push(i, v) => PushStep(s, i, v);
    case SetPrev(i) => SetPrevStep(s, i);
    case Link(i) => LinkStep(s, i);
    case Return(i) => ReturnStep(s, i);
    case Drop(n) => DropStep(s, n);
    case Clear => ClearStep(s);
    case Take => TakeKeeps(s);
    case Remove(n) => if Unlinks(s, n) { UnlinkKeeps(s, n); } else { RefuseKeeps(s, n); }
    case Let => LetKeeps(s);
    case _ => LocalStep(s, a);
  }

  // ---------------------------------------------------------------- who holds a node

  /** The list's reference to node `n` is not dropped yet. */
  predicate Listed(s: State, n: nat) { n in s.tr.chain || s.cp == Release(n) || s.cp == Unlinked(n) }

  predicate HasNode(p: Pusher, n: nat) { !p.Idle? && p.node == n }

  /** The handle's reference to node `n` is not dropped yet: a handle, its pusher, or a removal has it. */
  predicate Handled(s: State, n: nat) {
    || n in s.handles || s.cp == Unlinked(n) || s.cp == Dropping(n)
    || (exists i :: 0 <= i < |s.pcs| && HasNode(s.pcs[i], n))
  }

  predicate HolderOk(s: State, n: nat)
    requires n < |s.nodes|
  {
    (s.nodes[n].inList ==> Listed(s, n)) && (s.nodes[n].held ==> Handled(s, n))
  }

  ghost predicate Holders(s: State) { forall n :: 0 <= n < |s.nodes| ==> HolderOk(s, n) }

  lemma ListedLocal(s: State, a: Action, n: nat)
    requires Enabled(s, a) && n < |s.nodes| && HolderOk(s, n) && !a.Push? && !a.Take? && !a.Remove?
    ensures n < |Next(s, a).nodes| && (Next(s, a).nodes[n].inList ==> Listed(Next(s, a), n))
  {
  }

  lemma ListedTake(s: State, n: nat)
    requires Enabled(s, Take) && n < |s.nodes| && HolderOk(s, n) && s.tr.chain != [] && s.tail == s.tr.chain[0]
    ensures n < |TakeStep(s).nodes| && (TakeStep(s).nodes[n].inList ==> Listed(TakeStep(s), n))
  {
    assert s.tr.chain == [s.tail] + s.tr.chain[1..];
  }

  lemma ListedRemove(s: State, m: nat, n: nat)
    requires Inv(s) && Enabled(s, Remove(m)) && Unlinks(s, m) && n < |s.nodes| && HolderOk(s, n)
    ensures n < |UnlinkStep(s, m).nodes| && (UnlinkStep(s, m).nodes[n].inList ==> Listed(UnlinkStep(s, m), n))
  {
    assert HandleOk(s.nodes, s.pcs, m);
    var k := UnlinkPlace(s, m);
    UnlinkIncreasing(s.nodes, s.tr.chain, k);
  }

  lemma ListedStep(s: State, a: Action, n: nat)
    requires Inv(s) && Enabled(s, a) && n < |Next(s, a).nodes| && (n < |s.nodes| ==> HolderOk(s, n))
    ensures Next(s, a).nodes[n].inList ==> Listed(Next(s, a), n)
  {
    match a
    case Push(_, _) => assert Next(s, a).tr.chain[|s.tr.chain|] == |s.nodes|;
    case Take => ListedTake(s, n);
    case Remove(m) => if Unlinks(s, m) { ListedRemove(s, m, n); }
    case _ => ListedLocal(s, a, n);
  }

  lemma HandledStep(s: State, a: Action, n: nat)
    requires Enabled(s, a) && n < |Next(s, a).nodes| && (n < |s.nodes| ==> HolderOk(s, n))
    ensures Next(s, a).nodes[n].held ==> Handled(Next(s, a), n)
  {
    var t := Next(s, a);
    if t.nodes[n].held && n < |s.nodes| {
      if i :| 0 <= i < |s.pcs| && HasNode(s.pcs[i], n) {
        assert HasNode(t.pcs[i], n) || n in t.handles;
      }
    } else if n == |s.nodes| {
      assert HasNode(t.pcs[a.i], n);
    }
  }

  lemma HoldersStep(s: State, a: Action)
    requires Inv(s) && Holders(s) && Enabled(s, a)
    ensures Holders(Next(s, a))
  {
    forall n | 0 <= n < |Next(s, a).nodes| ensures HolderOk(Next(s, a), n) {
      assert n < |s.nodes| ==> HolderOk(s, n);
      ListedStep(s, a, n);
      HandledStep(s, a, n);
    }
  }

  // ---------------------------------------------------------------- every run

  ghost predicate Safe(s: State) { Inv(s) && Holders(s) }

  lemma StartInv(threads: nat)
    ensures Safe(Start(threads))
  {
    assert Place(Start(threads).nodes, [0], [0], 0);
  }

  ghost predicate Initial(s: State) { exists threads: nat :: s == Start(threads) }

  ghost predicate Step(s: State, t: State) { exists a: Action :: Enabled(s, a) && t == Next(s, a) }

  ghost predicate Reachable(s: State) { Reached(Initial, Step, s) }

  lemma ReachableInv(s: State)
    requires Reachable(s)
    ensures Inv(s) && Holders(s)
  {
    forall s0 | Initial(s0) ensures Safe(s0) {
      var threads: nat :| s0 == Start(threads);
      StartInv(threads);
    }
    forall s1, s2 | Safe(s1) && Step(s1, s2) ensures Safe(s2) {
      var a: Action :| Enabled(s1, a) && s2 == Next(s1, a);
      InvStep(s1, a);
      HoldersStep(s1, a);
    }
    InvariantHolds(Initial, Step, Safe, s);
  }

  /**
   * Every pushed value is at one place. What pops returned is, in push order, what was pushed up to the
   * tail and not removed; a removal returned the node's own value; the rest is in the list.
   */
  lemma LeavesOnceInOrder(s: State)
    requires Reachable(s)
    ensures |s.tr.log| == |s.nodes| && s.tail < |s.tr.log| && s.tr.out == Kept(s.tr.log, s.tr.removed, s.tail)
    ensures forall n :: n in s.tr.removed ==> 0 < n < |s.tr.log| && s.tr.removed[n] == s.tr.log[n] && n !in s.tr.chain
    ensures forall n :: s.tail < n < |s.nodes| ==> (n in s.tr.chain <==> n !in s.tr.removed)
    ensures forall n :: n in s.tr.chain && n != s.tail ==> s.tail < n < |s.nodes| && s.nodes[n].value == Some(s.tr.log[n])
  {
    ReachableInv(s);
    forall n | n in s.tr.chain && n != s.tail
      ensures s.tail < n < |s.nodes| && s.nodes[n].value == Some(s.tr.log[n])
    {
      var k :| 0 <= k < |s.tr.chain| && s.tr.chain[k] == n;
      assert Place(s.nodes, s.tr.chain, s.tr.log, k);
    }
  }

  /**
   * A node is freed exactly when everybody has let go of it: it is not in the list nor on its way
   * out, and no handle, no pusher and no removal has it.
   */
  lemma FreedWhenLetGo(s: State, n: nat)
    requires Reachable(s) && n < |s.nodes|
    ensures s.nodes[n].freed <==> !Listed(s, n) && !Handled(s, n)
  {
    ReachableInv(s);
    assert NodeOk(s.nodes[n]) && HolderOk(s, n);
    if n in s.tr.chain { InChain(s, n); }
    if n in s.handles { assert HandleOk(s.nodes, s.pcs, n); }
    if i :| 0 <= i < |s.pcs| && HasNode(s.pcs[i], n) { assert PcOk(s.nodes, s.tr.chain, i, s.pcs[i]); }
  }

  lemma InChain(s: State, n: nat)
    requires Inv(s) && n in s.tr.chain
    ensures n < |s.nodes| && s.nodes[n].inList && !s.nodes[n].freed
  {
    var k :| 0 <= k < |s.tr.chain| && s.tr.chain[k] == n;
    assert Place(s.nodes, s.tr.chain, s.tr.log, k);
    assert NodeOk(s.nodes[n]);
  }

  /** While a pusher still has to link from a node, that node is not freed, nor is its own. */
  lemma LinkTargetAlive(s: State, i: nat)
    requires Reachable(s) && i < |s.pcs| && (s.pcs[i].Swapped? || s.pcs[i].PrevSet?)
    ensures s.pcs[i].prev < |s.nodes| && !s.nodes[s.pcs[i].prev].freed
    ensures s.pcs[i].node < |s.nodes| && !s.nodes[s.pcs[i].node].freed
  {
    ReachableInv(s);
    var k := Where(s.nodes, s.tr.chain, s.tr.log, s.pcs, i);
    InChain(s, s.tr.chain[k - 1]);
    InChain(s, s.tr.chain[k]);
  }

  /** No step follows a pointer to a freed node. */
  lemma NoUseAfterFree(s: State, a: Action, n: nat)
    requires Reachable(s) && Enabled(s, a) && n in Touches(s, a)
    ensures n < |s.nodes| && !s.nodes[n].freed
  {
    ReachableInv(s);
    assert NodeOk(s.nodes[n]);
    match a {
      case SetPrev(i) => LinkTargetAlive(s, i);
      case Link(i) => LinkTargetAlive(s, i);
      case Drop(_) => assert HandleOk(s.nodes, s.pcs, n);
      case Remove(m) => RemoveTouches(s, m, n);
      case Let => {}
      case _ => InChain(s, n);
    }
  }

  lemma RemoveTouches(s: State, m: nat, n: nat)
    requires Inv(s) && m in s.handles && n in Touches(s, Remove(m)) && n < |s.nodes|
    ensures !s.nodes[n].freed
  {
    assert HandleOk(s.nodes, s.pcs, m) && NodeOk(s.nodes[m]);
    if Unlinks(s, m) {
      var k := UnlinkPlace(s, m);
      InChain(s, n);
    }
  }

  /** A freed node never changes again, so it is freed once. */
  lemma FreedOnce(s: State, a: Action, n: nat)
    requires Reachable(s) && Enabled(s, a) && n < |s.nodes| && s.nodes[n].freed
    ensures n < |Next(s, a).nodes| && Next(s, a).nodes[n] == s.nodes[n]
  {
    ReachableInv(s);
    if n in Touches(s, a) { NoUseAfterFree(s, a, n); }
    if a.Link? { LinkTargetAlive(s, a.i); }
  }

  /** `Entry::remove` takes the value out exactly when the node is inside the list and its successor is linked. */
  lemma RemoveExact(s: State, n: nat)
    requires Reachable(s) && n in s.handles
    ensures Unlinks(s, n) <==>
      exists k :: 0 < k < |s.tr.chain| - 1 && s.tr.chain[k] == n
                  && s.tr.chain[k + 1] < |s.nodes| && s.nodes[s.tr.chain[k + 1]].joined
  {
    ReachableInv(s);
    assert HandleOk(s.nodes, s.pcs, n);
    if Unlinks(s, n) {
      var k := UnlinkPlace(s, n);
    }
    if k :| 0 < k < |s.tr.chain| - 1 && s.tr.chain[k] == n && s.tr.chain[k + 1] < |s.nodes| && s.nodes[s.tr.chain[k + 1]].joined {
      assert Place(s.nodes, s.tr.chain, s.tr.log, k);
    }
  }

  /** The consumer's assertions hold: the tail's value is gone, the next node's is there. */
  lemma AssertionsHold(s: State)
    requires Reachable(s)
    ensures s.tail < |s.nodes| && s.nodes[s.tail].value.None? && s.nodes[s.tail].refs > 0
    ensures s.cp.Move? ==> Enabled(s, Take)
    ensures s.cp.IfClear? ==> Enabled(s, Clear) && s.cp.next < |s.nodes| && s.nodes[s.cp.next].value.Some?
    ensures s.cp.Ready? ==> forall n :: n in s.handles ==> Enabled(s, Remove(n))
    ensures s.cp.PopClear? ==> Enabled(s, Clear)
    ensures s.cp.Release? || s.cp.Unlinked? || s.cp.Dropping? ==> Enabled(s, Let)
  {
    ReachableInv(s);
    assert Place(s.nodes, s.tr.chain, s.tr.log, 0) && NodeOk(s.nodes[s.tail]);
    if |s.tr.chain| > 1 { assert Place(s.nodes, s.tr.chain, s.tr.log, 1); }
    if s.cp.Ready? {
      forall n | n in s.handles
        ensures Enabled(s, Remove(n))
      {
        assert HandleOk(s.nodes, s.pcs, n);
        if Unlinks(s, n) { var k := UnlinkPlace(s, n); }
      }
    }
  }

  /** A consumer waiting for a link waits for a pusher that is about to store it. */
  lemma SpinHasPusher(s: State)
    requires Reachable(s) && (s.cp.PopSpin? || s.cp.IfSpin?) && !Enabled(s, Spin)
    ensures exists i :: 0 <= i < |s.pcs| && (s.pcs[i].Swapped? || s.pcs[i].PrevSet?) && s.pcs[i].prev == s.tail
  {
    ReachableInv(s);
    assert Place(s.nodes, s.tr.chain, s.tr.log, 0);
    assert AwaitedAt(s.nodes, s.tr.chain, s.pcs, 1);
    assert s.nodes[s.tail].next < 0;
    var i := s.nodes[s.tr.chain[1]].owner;
    assert s.pcs[i].prev == s.tail;
  }
}
