/**
 * The timer thread of src/timeout_list.rs and the threads that add and delete timers, as a step
 * machine: one step per atomic operation, per heap-lock section and per push on the removal queue.
 *
 * An adder reads the clock for its deadline in one step and pushes its timer in a later one, so the
 * deadlines of a list need not be in order. It may file its timer under any list of its interval, or
 * create one, whatever the interval hash says.
 */
module TimerThread {
  import opened Counting
  import opened Traces

  /** `chain[0]` is the queue's `tail` (a node whose value is gone), the last one its `head`. */
  datatype TimerList = TimerList(interval: nat, chain: seq<nat>, inUse: nat)

  datatype Entry = Entry(l: nat, time: nat)

  datatype Pc =
    | Idle
    | Adding(read: nat, interval: nat)       // add_timer: read the clock, about to push in a list
    | Linking(l: nat, prev: nat, time: nat)  // Queue::push: swapped `head`, about to compare `prev` with `tail`
    | Installing(l: nat, time: nat)          // install_timer_bh: about to increment `in_use`
    | Pushing(l: nat, time: nat)             // found it zero: about to push on the heap
    | Taking                                 // about to take the timer thread's handle
    | Waking                                 // has the handle, about to unpark

  datatype Tm =
    | Removing                    // run: emptying the removal queue
    | Checking                    // registered its handle, about to look at the removal queue again
    | SelfTaking | SelfWaking
    | Looking                     // schedule_timer: about to look at the heap
    | Popped(l: nat)              // has an entry, about to clear `in_use`
    | Draining(l: nat)
    | Rechecking(l: nat)          // the list looked empty
    | Returning(l: nat)           // the list has a node: about to increment `in_use`
    | Repushing(l: nat)           // found it zero: about to push on the heap with the head's deadline
    | Parked

  /**
   * The timer thread's handle, its park token and the removal requests. `now` is the time it schedules
   * for, `until` the deadline it chose to sleep for (-1 for none), `seen` the length of the heap then.
   */
  datatype Sleep = Sleep(slot: bool, token: bool, requests: nat, now: nat, until: int, seen: nat)

  /** A node of list `l`: the clock its adder read for the deadline, and the clock when it pushed the node. */
  datatype Node = Node(l: nat, interval: nat, read: nat, pushed: nat)

  /** What became of a node's timer. The node a list is made with has none. */
  datatype Fate = NoTimer | Pending | Fired(at: nat) | Removed

  /** `nodes` and `fates` have every node ever made. */
  datatype State = State(
    lists: seq<TimerList>, nodes: seq<Node>, fates: seq<Fate>, clock: nat, heap: seq<Entry>, pcs: seq<Pc>, tm: Tm, sleep: Sleep)

  datatype Action =
    | Stamp(i: nat, interval: nat) | AddTo(i: nat, l: nat) | AddNew(i: nat) | Delete(i: nat) | Client(i: nat) | Tick
    | Remove(l: nat, k: nat) | PopEntry(k: nat) | PopNode | Park(until: int) | Timer | TimedOut

  function Start(threads: nat): State {
    State([], [], [], 0, [], seq(threads, _ => Idle), Removing, Sleep(false, false, 0, 0, -1, 0))
  }

  // ---------------------------------------------------------------- reading and writing the lists

  function Chain(lists: seq<TimerList>, l: nat): seq<nat> { if l < |lists| then lists[l].chain else [] }

  function InUse(lists: seq<TimerList>, l: nat): nat { if l < |lists| then lists[l].inUse else 0 }

  /** The nodes that hold a timer. */
  function Timers(chain: seq<nat>): seq<nat> { if chain == [] then [] else chain[1..] }

  /** A node's deadline. */
  function Due(nodes: seq<Node>, n: nat): nat { if n < |nodes| then nodes[n].read + nodes[n].interval else 0 }

  /** What the deadline would be, had the adder read the clock as it pushed. */
  function Late(nodes: seq<Node>, n: nat): nat { if n < |nodes| then nodes[n].pushed + nodes[n].interval else 0 }

  /** The deadline of the first timer in the list. */
  function HeadDue(nodes: seq<Node>, chain: seq<nat>): nat { if |chain| > 1 then Due(nodes, chain[1]) else 0 }

  function SetChain(lists: seq<TimerList>, l: nat, chain: seq<nat>): seq<TimerList> {
    if l < |lists| then lists[l := lists[l].(chain := chain)] else lists
  }

  function SetInUse(lists: seq<TimerList>, l: nat, n: nat): seq<TimerList> {
    if l < |lists| then lists[l := lists[l].(inUse := n)] else lists
  }

  function Bump(lists: seq<TimerList>, l: nat): seq<TimerList> { SetInUse(lists, l, InUse(lists, l) + 1) }

  // ---------------------------------------------------------------- the steps

  predicate Enabled(s: State, a: Action) {
    match a
    case Stamp(i, _) => i < |s.pcs| && s.pcs[i].Idle?
    case AddTo(i, l) =>
      && i < |s.pcs| && s.pcs[i].Adding?
      && l < |s.lists| && s.lists[l].chain != [] && s.lists[l].interval == s.pcs[i].interval
    case AddNew(i) => i < |s.pcs| && s.pcs[i].Adding?
    case Delete(i) => i < |s.pcs| && s.pcs[i].Idle?
    case Client(i) => i < |s.pcs| && InCall(s.pcs[i])
    case Tick => true
    case Remove(l, k) => s.tm.Removing? && s.sleep.requests > 0
    case PopEntry(k) => s.tm.Looking? && Least(s.heap, k) && s.heap[k].time <= s.sleep.now
    case PopNode => s.tm.Draining? && |Chain(s.lists, s.tm.l)| > 1 && HeadDue(s.nodes, Chain(s.lists, s.tm.l)) <= s.sleep.now
    // nothing is due: sleep until the least time in the heap, or for good
    case Park(until) =>
      && s.tm.Looking? && (until == -1 <==> s.heap == [])
      && Before(s.heap, |s.heap|, s.sleep.now, until)
      && (s.heap != [] ==> exists k :: 0 <= k < |s.heap| && s.heap[k].time == until)
    case Timer => TimerCan(s)
    case TimedOut => s.tm.Parked?
  }

  /** In a call, and past the clock reading if it is an add. */
  predicate InCall(p: Pc) { !p.Idle? && !p.Adding? }

  predicate Least(heap: seq<Entry>, k: nat) { k < |heap| && forall j :: 0 <= j < |heap| ==> heap[k].time <= heap[j].time }

  /** `until` is after `now` and not after any of the first `n` entries. */
  predicate Before(heap: seq<Entry>, n: nat, now: nat, until: int) {
    n <= |heap| && (n > 0 ==> now < until) && forall k :: 0 <= k < n ==> until <= heap[k].time
  }

  /** The steps of the timer thread that have one outcome; asleep, it goes on when it has a token. */
  predicate TimerCan(s: State) {
    match s.tm
    case Removing => s.sleep.requests == 0
    case Looking => false
    case Draining(l) => |Chain(s.lists, l)| <= 1 || HeadDue(s.nodes, Chain(s.lists, l)) > s.sleep.now
    case Parked => s.sleep.token
    case _ => true
  }

  /** The node that an adder pushes in list `l`. */
  function Added(s: State, i: nat, l: nat): Node
    requires i < |s.pcs| && s.pcs[i].Adding?
  {
    Node(l, s.pcs[i].interval, s.pcs[i].read, s.clock)
  }

  function AddStep(s: State, i: nat, l: nat): State
    requires Enabled(s, AddTo(i, l))
  {
    var c, p := s.lists[l].chain, s.pcs[i];
    s.(lists := SetChain(s.lists, l, c + [|s.nodes|]), nodes := s.nodes + [Added(s, i, l)], fates := s.fates + [Pending],
       pcs := s.pcs[i := Linking(l, c[|c| - 1], p.read + p.interval)])
  }

  function NewStep(s: State, i: nat): State
    requires Enabled(s, AddNew(i))
  {
    var l, n, p := |s.lists|, |s.nodes|, s.pcs[i];
    s.(lists := s.lists + [TimerList(p.interval, [n, n + 1], 0)],
       nodes := s.nodes + [Node(l, p.interval, 0, 0), Added(s, i, l)],
       fates := s.fates + [NoTimer, Pending], pcs := s.pcs[i := Installing(l, p.read + p.interval)])
  }

  function Settle(fates: seq<Fate>, n: nat, fate: Fate): seq<Fate> { if n < |fates| then fates[n := fate] else fates }

  function Next(s: State, a: Action): State
    requires Enabled(s, a)
  {
    match a
    case AddTo(i, l) => AddStep(s, i, l)
    case AddNew(i) => NewStep(s, i)
    case Stamp(i, interval) => s.(pcs := s.pcs[i := Adding(s.clock, interval)])
    case Delete(i) => s.(sleep := s.sleep.(requests := s.sleep.requests + 1), pcs := s.pcs[i := Taking])
    case Client(i) => ClientStep(s, i)
    case Tick => s.(clock := s.clock + 1)
    case Remove(l, k) =>
      var c, t := Chain(s.lists, l), s.(sleep := s.sleep.(requests := s.sleep.requests - 1));
      if 0 < k < |c| - 1
      then t.(lists := SetChain(s.lists, l, Without(c, k)), fates := Settle(s.fates, c[k], Removed))
      else t
    case PopEntry(k) => s.(heap := s.heap[..k] + s.heap[k + 1..], tm := Popped(s.heap[k].l))
    case PopNode =>
      var c := Chain(s.lists, s.tm.l);
      s.(lists := SetChain(s.lists, s.tm.l, c[1..]), fates := Settle(s.fates, c[1], Fired(s.clock)))
    case Park(until) => s.(tm := Parked, sleep := s.sleep.(until := until, seen := |s.heap|))
    case Timer => TimerStep(s)
    case TimedOut => s.(tm := Removing)
  }

  function ClientStep(s: State, i: nat): State
    requires i < |s.pcs| && InCall(s.pcs[i])
  {
    match s.pcs[i]
    case Linking(l, prev, time) =>
      var c := Chain(s.lists, l);
      s.(pcs := s.pcs[i := if c != [] && c[0] == prev then Installing(l, time) else Idle])
    case Installing(l, time) =>
      s.(lists := Bump(s.lists, l), pcs := s.pcs[i := if InUse(s.lists, l) == 0 then Pushing(l, time) else Taking])
    case Pushing(l, time) => s.(heap := s.heap + [Entry(l, time)], pcs := s.pcs[i := Taking])
    case Taking => s.(sleep := s.sleep.(slot := false), pcs := s.pcs[i := if s.sleep.slot then Waking else Idle])
    case Waking => s.(sleep := s.sleep.(token := true), pcs := s.pcs[i := Idle])
  }

  /** `schedule_timer(now())` begins. */
  function Begin(s: State): State { s.(tm := Looking, sleep := s.sleep.(now := s.clock)) }

  function TimerStep(s: State): State
    requires TimerCan(s)
  {
    match s.tm
    case Removing => s.(tm := Checking, sleep := s.sleep.(slot := true))
    case Checking => if s.sleep.requests > 0 then s.(tm := SelfTaking) else Begin(s)
    case SelfTaking =>
      var t := s.(sleep := s.sleep.(slot := false));
      if s.sleep.slot then t.(tm := SelfWaking) else Begin(t)
    case SelfWaking => Begin(s.(sleep := s.sleep.(token := true)))
    case Popped(l) => s.(tm := Draining(l), lists := SetInUse(s.lists, l, 0))
    case Draining(l) => s.(tm := if |Chain(s.lists, l)| > 1 then Returning(l) else Rechecking(l))
    case Rechecking(l) => s.(tm := if |Chain(s.lists, l)| > 1 then Returning(l) else Looking)
    case Returning(l) => s.(tm := if InUse(s.lists, l) == 0 then Repushing(l) else Looking, lists := Bump(s.lists, l))
    case Repushing(l) => s.(tm := Looking, heap := s.heap + [Entry(l, HeadDue(s.nodes, Chain(s.lists, l)))])
    case Parked => s.(tm := Removing, sleep := s.sleep.(token := false))
  }

  // ---------------------------------------------------------------- the invariant: entries

  function Of(l: nat): Entry -> nat { (e: Entry) => if e.l == l then 1 else 0 }

  function Pushes(l: nat): Pc -> nat { (p: Pc) => if p.Pushing? && p.l == l then 1 else 0 }

  function Owes(l: nat, front: nat): Pc -> nat {
    (p: Pc) => if (p.Installing? && p.l == l) || (p.Linking? && p.l == l && p.prev == front) then 1 else 0
  }

  function Takes(p: Pc): nat { if p.Taking? then 1 else 0 }

  function Wakes(p: Pc): nat { if p.Waking? then 1 else 0 }

  /** The right to be list `l`'s heap entry: in the heap, about to be pushed, or just popped. */
  function Entries(s: State, l: nat): nat {
    Total(Of(l), s.heap) + Total(Pushes(l), s.pcs) + (if s.tm == Popped(l) || s.tm == Repushing(l) then 1 else 0)
  }

  predicate Working(tm: Tm, l: nat) { tm == Popped(l) || tm == Draining(l) || tm == Rechecking(l) || tm == Returning(l) }

  ghost predicate ListInv(s: State, l: nat) {
    && Entries(s, l) == (if InUse(s.lists, l) > 0 then 1 else 0)
    && (l < |s.lists| ==> s.lists[l].chain != [])
    && (|Chain(s.lists, l)| > 1 ==> InUse(s.lists, l) > 0 || Working(s.tm, l) || Total(Owes(l, Chain(s.lists, l)[0]), s.pcs) > 0)
    && (s.tm == Returning(l) || s.tm == Repushing(l) ==> |Chain(s.lists, l)| > 1)
  }

  predicate InRange(p: Pc, n: nat) { (p.Linking? || p.Installing? || p.Pushing?) ==> p.l < n }

  predicate TmInRange(tm: Tm, n: nat) {
    (tm.Popped? || tm.Draining? || tm.Rechecking? || tm.Returning? || tm.Repushing?) ==> tm.l < n
  }

  ghost predicate Ranges(s: State) {
    && TmInRange(s.tm, |s.lists|)
    && (forall i :: 0 <= i < |s.pcs| ==> InRange(s.pcs[i], |s.lists|))
    && (forall k :: 0 <= k < |s.heap| ==> s.heap[k].l < |s.lists|)
  }

  // ---------------------------------------------------------------- the invariant: sleep

  /** Somebody is about to give the timer thread a token, or it has one. */
  predicate WakeDue(s: State) { s.sleep.token || s.tm.SelfWaking? || Total(Wakes, s.pcs) > 0 }

  predicate LookDue(s: State) { WakeDue(s) || Total(Takes, s.pcs) > 0 }

  ghost predicate SleepInv(s: State) {
    && (!s.tm.Removing? ==> s.sleep.slot || WakeDue(s))
    && (s.tm.Parked? ==> s.sleep.seen <= |s.heap| && (s.sleep.seen == |s.heap| || LookDue(s)))
    && (s.tm.Parked? ==> Before(s.heap, s.sleep.seen, s.sleep.now, s.sleep.until))
    && (!s.tm.Removing? && !s.tm.Checking? && !s.tm.SelfTaking? && s.sleep.requests > 0 ==> LookDue(s))
  }

  // ---------------------------------------------------------------- the invariant: deadlines

  /** Nodes are in the order of their pushes; a deadline is never later than the push makes it. */
  ghost predicate Sorted(list: TimerList, nodes: seq<Node>, clock: nat) {
    && (forall k :: 0 <= k < |list.chain| ==> list.chain[k] < |nodes|)
    && (forall j, k :: 0 <= j < k < |list.chain| ==> list.chain[j] < list.chain[k])
    && (forall j, k :: 1 <= j < k < |list.chain| ==> Late(nodes, list.chain[j]) <= Late(nodes, list.chain[k]))
    && (forall k :: 1 <= k < |list.chain| ==> Due(nodes, list.chain[k]) <= Late(nodes, list.chain[k]) <= clock + list.interval)
  }

  /** No timer in the list was pushed too early for `time`, nor can a later one be. */
  ghost predicate Low(list: TimerList, nodes: seq<Node>, clock: nat, time: nat) {
    time <= clock + list.interval && forall n :: n in Timers(list.chain) ==> time <= Late(nodes, n)
  }

  /** No node behind `prev` was pushed too early for `time`. */
  ghost predicate LowAfter(list: TimerList, nodes: seq<Node>, clock: nat, prev: nat, time: nat) {
    time <= clock + list.interval && forall n :: n in list.chain && n > prev ==> time <= Late(nodes, n)
  }

  ghost predicate PcTime(s: State, p: Pc) {
    && ((p.Installing? || p.Pushing?) && p.l < |s.lists| ==> Low(s.lists[p.l], s.nodes, s.clock, p.time))
    && (p.Adding? ==> p.read <= s.clock)
    && (p.Linking? && p.l < |s.lists| ==> LowAfter(s.lists[p.l], s.nodes, s.clock, p.prev, p.time))
  }

  ghost predicate EntryTime(s: State, e: Entry) { e.l < |s.lists| ==> Low(s.lists[e.l], s.nodes, s.clock, e.time) }

  ghost predicate TimesOk(s: State) {
    && (forall l :: 0 <= l < |s.lists| ==> Sorted(s.lists[l], s.nodes, s.clock))
    && (forall i :: 0 <= i < |s.pcs| ==> PcTime(s, s.pcs[i]))
    && (forall k :: 0 <= k < |s.heap| ==> EntryTime(s, s.heap[k]))
  }

  // ---------------------------------------------------------------- the invariant: what became of every timer

  /** The nodes of a list were pushed on that list. */
  ghost predicate AtHome(chain: seq<nat>, nodes: seq<Node>, l: nat) {
    forall n :: n in chain ==> n < |nodes| && nodes[n].l == l
  }

  /** A timer is pending exactly while its list holds it, and one that fired was due. */
  ghost predicate FateOk(s: State, n: nat) {
    && n < |s.nodes| && n < |s.fates|
    && s.nodes[n].l < |s.lists| && s.nodes[n].read <= s.nodes[n].pushed <= s.clock
    && (s.fates[n].Pending? <==> n in Timers(s.lists[s.nodes[n].l].chain))
    && (s.fates[n].Fired? ==> Due(s.nodes, n) <= s.fates[n].at <= s.clock)
  }

  ghost predicate FatesOk(s: State) {
    && |s.fates| == |s.nodes| && s.sleep.now <= s.clock
    && (forall l :: 0 <= l < |s.lists| ==> AtHome(s.lists[l].chain, s.nodes, l))
    && (forall n :: 0 <= n < |s.nodes| ==> FateOk(s, n))
  }

  // ---------------------------------------------------------------- the invariant: where entry times come from

  /** `time` is the deadline of a timer that was pushed in list `l`. */
  ghost predicate Dated(nodes: seq<Node>, fates: seq<Fate>, l: nat, time: nat) {
    exists n: nat :: IsDue(nodes, fates, l, time, n)
  }

  predicate IsDue(nodes: seq<Node>, fates: seq<Fate>, l: nat, time: nat, n: nat) {
    n < |nodes| && n < |fates| && nodes[n].l == l && Due(nodes, n) == time && !fates[n].NoTimer?
  }

  ghost predicate PcDated(nodes: seq<Node>, fates: seq<Fate>, p: Pc) {
    p.Linking? || p.Installing? || p.Pushing? ==> Dated(nodes, fates, p.l, p.time)
  }

  ghost predicate DatesOk(s: State) {
    && (forall i :: 0 <= i < |s.pcs| ==> PcDated(s.nodes, s.fates, s.pcs[i]))
    && (forall k :: 0 <= k < |s.heap| ==> Dated(s.nodes, s.fates, s.heap[k].l, s.heap[k].time))
  }

  ghost predicate Inv(s: State) {
    (forall l: nat :: ListInv(s, l)) && Ranges(s) && SleepInv(s) && TimesOk(s) && FatesOk(s) && DatesOk(s)
  }

  lemma StartInv(threads: nat)
    ensures Inv(Start(threads))
  {
    forall l: nat ensures ListInv(Start(threads), l) {
      TotalZero(Pushes(l), Start(threads).pcs);
    }
  }

  // ---------------------------------------------------------------- entries are kept

  predicate ByClient(a: Action) { a.Stamp? || a.AddTo? || a.AddNew? || a.Delete? || a.Client? }

  lemma ClientTotals(s: State, a: Action, w: Pc -> nat)
    requires Enabled(s, a) && ByClient(a)
    ensures |Next(s, a).pcs| == |s.pcs|
    ensures Total(w, Next(s, a).pcs) + w(s.pcs[a.i]) == Total(w, s.pcs) + w(Next(s, a).pcs[a.i])
  {
    TotalUpdate(w, s.pcs, a.i, Next(s, a).pcs[a.i]);
    assert Next(s, a).pcs == s.pcs[a.i := Next(s, a).pcs[a.i]];
  }

  lemma AddList(s: State, a: Action, l: nat)
    requires Enabled(s, a) && (a.AddTo? || a.AddNew?) && ListInv(s, l) && TmInRange(s.tm, |s.lists|)
    ensures ListInv(Next(s, a), l)
  {
    var t := Next(s, a);
    ClientTotals(s, a, Pushes(l));
    if Chain(s.lists, l) != [] { ClientTotals(s, a, Owes(l, Chain(s.lists, l)[0])); }
    if Chain(t.lists, l) != [] { TotalAtLeast(Owes(l, Chain(t.lists, l)[0]), t.pcs, a.i); }
  }

  lemma ClientList(s: State, a: Action, l: nat)
    requires Enabled(s, a) && (a.Client? || a.Delete? || a.Stamp?) && ListInv(s, l) && InRange(s.pcs[a.i], |s.lists|)
    ensures ListInv(Next(s, a), l)
  {
    ClientTotals(s, a, Pushes(l));
    if Chain(s.lists, l) != [] { ClientTotals(s, a, Owes(l, Chain(s.lists, l)[0])); }
    if a.Client? && s.pcs[a.i].Pushing? { TotalAppend(Of(l), s.heap, Entry(s.pcs[a.i].l, s.pcs[a.i].time)); }
  }

  lemma OwnList(s: State, l: nat)
    requires TimerCan(s) && ListInv(s, l) && TmInRange(s.tm, |s.lists|)
    ensures ListInv(TimerStep(s), l)
  {
    if s.tm.Repushing? { TotalAppend(Of(l), s.heap, Entry(s.tm.l, HeadDue(s.nodes, Chain(s.lists, s.tm.l)))); }
  }

  lemma TimerListStep(s: State, a: Action, l: nat)
    requires Enabled(s, a) && !ByClient(a) && ListInv(s, l) && TmInRange(s.tm, |s.lists|)
    ensures ListInv(Next(s, a), l)
  {
    if a.Timer? { OwnList(s, l); }
    if a.PopEntry? { TotalRemove(Of(l), s.heap, a.k); }
  }

  lemma ListStep(s: State, a: Action, l: nat)
    requires Enabled(s, a) && ListInv(s, l) && Ranges(s)
    ensures ListInv(Next(s, a), l)
  {
    if a.AddTo? || a.AddNew? { AddList(s, a, l); }
    else if ByClient(a) { ClientList(s, a, l); }
    else { TimerListStep(s, a, l); }
  }

  lemma ClientRanges(s: State, a: Action)
    requires Ranges(s) && Enabled(s, a) && ByClient(a)
    ensures Ranges(Next(s, a))
  {
    assert InRange(s.pcs[a.i], |s.lists|);
  }

  lemma TimerRanges(s: State, a: Action)
    requires Ranges(s) && Enabled(s, a) && !ByClient(a)
    ensures Ranges(Next(s, a))
  {
    assert Next(s, a).pcs == s.pcs && |Next(s, a).lists| == |s.lists|;
  }

  lemma RangeStep(s: State, a: Action)
    requires Ranges(s) && Enabled(s, a)
    ensures Ranges(Next(s, a))
  {
    if ByClient(a) { ClientRanges(s, a); } else { TimerRanges(s, a); }
  }

  // ---------------------------------------------------------------- the sleep protocol is kept

  lemma ClientSleep(s: State, a: Action)
    requires Enabled(s, a) && ByClient(a) && SleepInv(s)
    ensures SleepInv(Next(s, a))
  {
    ClientTotals(s, a, Takes);
    ClientTotals(s, a, Wakes);
    if s.tm.Parked? { BeforeGrows(s.heap, Next(s, a).heap, s.sleep.seen, s.sleep.now, s.sleep.until); }
  }

  lemma BeforeGrows(heap: seq<Entry>, more: seq<Entry>, n: nat, now: nat, until: int)
    requires Before(heap, n, now, until) && heap <= more
    ensures Before(more, n, now, until)
  {
    forall k | 0 <= k < n ensures until <= more[k].time {
      assert more[k] == heap[k];
    }
  }

  lemma TimerSleep(s: State, a: Action)
    requires Enabled(s, a) && !ByClient(a) && SleepInv(s)
    ensures SleepInv(Next(s, a))
  {
    assert Next(s, a).pcs == s.pcs;
    if a.Park? { assert Before(s.heap, |s.heap|, s.sleep.now, a.until); }
  }

  // ---------------------------------------------------------------- deadlines are kept

  /** A list may lose nodes, and get nodes whose deadlines count from now. */
  ghost predicate Later(list: TimerList, nodes: seq<Node>, clock: nat, list2: TimerList, nodes2: seq<Node>, clock2: nat) {
    && list2.interval == list.interval && clock <= clock2
    && (forall n :: n in list2.chain ==>
          (n in list.chain && Late(nodes2, n) == Late(nodes, n)) || Late(nodes2, n) >= clock + list.interval)
    && (forall n :: n in Timers(list2.chain) ==>
          (n in Timers(list.chain) && Late(nodes2, n) == Late(nodes, n)) || Late(nodes2, n) >= clock + list.interval)
  }

  lemma LowKept(list: TimerList, nodes: seq<Node>, clock: nat, list2: TimerList, nodes2: seq<Node>, clock2: nat,
                prev: nat, time: nat)
    requires Later(list, nodes, clock, list2, nodes2, clock2)
    ensures Low(list, nodes, clock, time) ==> Low(list2, nodes2, clock2, time)
    ensures LowAfter(list, nodes, clock, prev, time) ==> LowAfter(list2, nodes2, clock2, prev, time)
  {
  }

  /** What a step does to list `m`. */
  ghost predicate ListLater(s: State, t: State, m: nat) {
    && m < |s.lists| <= |t.lists|
    && Later(s.lists[m], s.nodes, s.clock, t.lists[m], t.nodes, t.clock) && Sorted(t.lists[m], t.nodes, t.clock)
  }

  /** The lists that were there are later versions of themselves. */
  ghost predicate AllLater(s: State, t: State) {
    s.clock <= t.clock && |s.lists| <= |t.lists| && forall l :: 0 <= l < |s.lists| ==> ListLater(s, t, l)
  }

  lemma TimesKept(s: State, t: State)
    requires AllLater(s, t)
    ensures forall m :: 0 <= m < |s.lists| ==> Sorted(t.lists[m], t.nodes, t.clock)
    ensures forall p: Pc :: InRange(p, |s.lists|) && PcTime(s, p) ==> PcTime(t, p)
    ensures forall e: Entry :: e.l < |s.lists| && EntryTime(s, e) ==> EntryTime(t, e)
  {
    forall m | 0 <= m < |s.lists| ensures Sorted(t.lists[m], t.nodes, t.clock) {
      assert ListLater(s, t, m);
    }
    forall p: Pc | InRange(p, |s.lists|) && PcTime(s, p) ensures PcTime(t, p) {
      if p.Linking? || p.Installing? || p.Pushing? {
        assert ListLater(s, t, p.l);
        LowKept(s.lists[p.l], s.nodes, s.clock, t.lists[p.l], t.nodes, t.clock, if p.Linking? then p.prev else 0, p.time);
      }
    }
    forall e: Entry | e.l < |s.lists| && EntryTime(s, e) ensures EntryTime(t, e) {
      assert ListLater(s, t, e.l);
      LowKept(s.lists[e.l], s.nodes, s.clock, t.lists[e.l], t.nodes, t.clock, 0, e.time);
    }
  }

  /** Deadlines of nodes that exist do not change. */
  lemma SameLates(list: TimerList, nodes: seq<Node>, clock: nat, nodes2: seq<Node>)
    requires Sorted(list, nodes, clock) && nodes <= nodes2
    ensures forall k :: 0 <= k < |list.chain| ==>
              Late(nodes2, list.chain[k]) == Late(nodes, list.chain[k]) && Due(nodes2, list.chain[k]) == Due(nodes, list.chain[k])
  {
  }

  lemma SameSorted(list: TimerList, nodes: seq<Node>, clock: nat, list2: TimerList, nodes2: seq<Node>, clock2: nat)
    requires Sorted(list, nodes, clock) && nodes <= nodes2 && clock <= clock2
    requires list2.chain == list.chain && list2.interval == list.interval
    ensures Sorted(list2, nodes2, clock2)
  {
    SameLates(list, nodes, clock, nodes2);
  }

  lemma SameLater(list: TimerList, nodes: seq<Node>, clock: nat, list2: TimerList, nodes2: seq<Node>, clock2: nat)
    requires Sorted(list, nodes, clock) && nodes <= nodes2 && clock <= clock2
    requires list2.chain == list.chain && list2.interval == list.interval
    ensures Later(list, nodes, clock, list2, nodes2, clock2) && Sorted(list2, nodes2, clock2)
  {
    SameSorted(list, nodes, clock, list2, nodes2, clock2);
    SameLates(list, nodes, clock, nodes2);
    forall n | n in list.chain ensures Late(nodes2, n) == Late(nodes, n) {
      var k :| 0 <= k < |list.chain| && list.chain[k] == n;
    }
    assert forall n :: n in Timers(list.chain) ==> n in list.chain;
  }

  function Grown(list: TimerList, n: nat): TimerList { list.(chain := list.chain + [n]) }

  /** The node an adder pushes behind the others. */
  predicate NewNode(list: TimerList, node: Node, clock: nat) {
    node.interval == list.interval && node.read <= node.pushed == clock
  }

  lemma LateKept(list: TimerList, nodes: seq<Node>, clock: nat, node: Node)
    requires Sorted(list, nodes, clock)
    ensures forall n :: n in list.chain ==> n < |nodes| && Late(nodes + [node], n) == Late(nodes, n)
  {
    forall n | n in list.chain ensures n < |nodes| && Late(nodes + [node], n) == Late(nodes, n) {
      var k :| 0 <= k < |list.chain| && list.chain[k] == n;
    }
  }

  lemma GrowSorted(list: TimerList, nodes: seq<Node>, clock: nat, node: Node)
    requires Sorted(list, nodes, clock) && list.chain != [] && NewNode(list, node, clock)
    ensures Sorted(Grown(list, |nodes|), nodes + [node], clock)
  {
    LateKept(list, nodes, clock, node);
  }

  lemma GrowLater(list: TimerList, nodes: seq<Node>, clock: nat, node: Node)
    requires Sorted(list, nodes, clock) && list.chain != [] && NewNode(list, node, clock)
    ensures Later(list, nodes, clock, Grown(list, |nodes|), nodes + [node], clock)
  {
    LateKept(list, nodes, clock, node);
    assert Timers(Grown(list, |nodes|).chain) == Timers(list.chain) + [|nodes|];
  }

  lemma GrowLow(list: TimerList, nodes: seq<Node>, clock: nat, node: Node)
    requires Sorted(list, nodes, clock) && list.chain != [] && NewNode(list, node, clock)
    ensures LowAfter(Grown(list, |nodes|), nodes + [node], clock, list.chain[|list.chain| - 1], node.read + node.interval)
  {
    forall n | n in list.chain ensures n <= list.chain[|list.chain| - 1] {
      var k :| 0 <= k < |list.chain| && list.chain[k] == n;
    }
  }

  function Without(c: seq<nat>, k: nat): seq<nat>
    requires k < |c|
  {
    c[..k] + c[k + 1..]
  }

  lemma UnlinkSorted(list: TimerList, nodes: seq<Node>, clock: nat, k: nat)
    requires Sorted(list, nodes, clock) && 0 < k < |list.chain|
    ensures Sorted(list.(chain := Without(list.chain, k)), nodes, clock)
  {
    var c := Without(list.chain, k);
    assert forall j :: 0 <= j < |c| ==> c[j] == list.chain[if j < k then j else j + 1];
  }

  lemma UnlinkLater(list: TimerList, nodes: seq<Node>, clock: nat, k: nat)
    requires 0 < k < |list.chain|
    ensures Later(list, nodes, clock, list.(chain := Without(list.chain, k)), nodes, clock)
  {
    assert Timers(Without(list.chain, k)) == list.chain[1..k] + list.chain[k + 1..];
  }

  lemma PopLater(list: TimerList, nodes: seq<Node>, clock: nat)
    requires Sorted(list, nodes, clock) && |list.chain| > 1
    ensures var list2 := list.(chain := list.chain[1..]);
            Later(list, nodes, clock, list2, nodes, clock) && Sorted(list2, nodes, clock)
  {
  }

  lemma AddSorted(s: State, i: nat, l: nat)
    requires Enabled(s, AddTo(i, l)) && Sorted(s.lists[l], s.nodes, s.clock) && s.pcs[i].read <= s.clock
    ensures Sorted(AddStep(s, i, l).lists[l], AddStep(s, i, l).nodes, s.clock)
  {
    GrowSorted(s.lists[l], s.nodes, s.clock, Added(s, i, l));
  }

  lemma AddLater(s: State, i: nat, l: nat)
    requires Enabled(s, AddTo(i, l)) && Sorted(s.lists[l], s.nodes, s.clock) && s.pcs[i].read <= s.clock
    ensures Later(s.lists[l], s.nodes, s.clock, AddStep(s, i, l).lists[l], AddStep(s, i, l).nodes, s.clock)
  {
    GrowLater(s.lists[l], s.nodes, s.clock, Added(s, i, l));
  }

  lemma AddOther(s: State, i: nat, l: nat, m: nat)
    requires Enabled(s, AddTo(i, l)) && m < |s.lists| && m != l && Sorted(s.lists[m], s.nodes, s.clock)
    ensures ListLater(s, AddStep(s, i, l), m)
  {
    SameLater(s.lists[m], s.nodes, s.clock, s.lists[m], AddStep(s, i, l).nodes, s.clock);
  }

  lemma AddLists(s: State, i: nat, l: nat)
    requires Enabled(s, AddTo(i, l)) && s.pcs[i].read <= s.clock
    requires forall m :: 0 <= m < |s.lists| ==> Sorted(s.lists[m], s.nodes, s.clock)
    ensures AllLater(s, AddStep(s, i, l))
  {
    forall m | 0 <= m < |s.lists| ensures ListLater(s, AddStep(s, i, l), m) {
      if m == l {
        AddSorted(s, i, l);
        AddLater(s, i, l);
      } else {
        AddOther(s, i, l, m);
      }
    }
  }

  lemma AddTimes(s: State, i: nat, l: nat)
    requires Ranges(s) && TimesOk(s) && Enabled(s, AddTo(i, l))
    ensures TimesOk(AddStep(s, i, l))
  {
    assert PcTime(s, s.pcs[i]);
    AddLists(s, i, l);
    GrowLow(s.lists[l], s.nodes, s.clock, Added(s, i, l));
    TimesKept(s, AddStep(s, i, l));
  }

  lemma NewTimes(s: State, i: nat)
    requires Ranges(s) && TimesOk(s) && Enabled(s, AddNew(i))
    ensures TimesOk(NewStep(s, i))
  {
    var t := NewStep(s, i);
    assert PcTime(s, s.pcs[i]);
    forall m | 0 <= m < |s.lists| ensures ListLater(s, t, m) {
      SameLater(s.lists[m], s.nodes, s.clock, t.lists[m], t.nodes, t.clock);
    }
    TimesKept(s, t);
    assert Timers(t.lists[|s.lists|].chain) == [|s.nodes| + 1];
  }

  /** A step that leaves nodes and lists as they are. */
  ghost predicate SameLists(s: State, t: State) {
    && t.nodes == s.nodes && s.clock <= t.clock && |t.lists| == |s.lists|
    && (forall l :: 0 <= l < |s.lists| ==> t.lists[l].chain == s.lists[l].chain && t.lists[l].interval == s.lists[l].interval)
  }

  lemma SameListsKept(s: State, t: State)
    requires SameLists(s, t) && Ranges(s) && TimesOk(s)
    ensures forall l :: 0 <= l < |t.lists| ==> Sorted(t.lists[l], t.nodes, t.clock)
    ensures forall p: Pc :: InRange(p, |s.lists|) && PcTime(s, p) ==> PcTime(t, p)
    ensures forall e: Entry :: e.l < |s.lists| && EntryTime(s, e) ==> EntryTime(t, e)
  {
    forall m | 0 <= m < |s.lists| ensures ListLater(s, t, m) {
      SameLater(s.lists[m], s.nodes, s.clock, t.lists[m], t.nodes, t.clock);
    }
    TimesKept(s, t);
  }

  /** An adder that finds its predecessor at the front has the first timer. */
  lemma FrontIsLow(list: TimerList, nodes: seq<Node>, clock: nat, time: nat)
    requires Sorted(list, nodes, clock) && list.chain != [] && LowAfter(list, nodes, clock, list.chain[0], time)
    ensures Low(list, nodes, clock, time)
  {
    forall n | n in Timers(list.chain) ensures n in list.chain && n > list.chain[0] {
      var k :| 0 <= k < |list.chain| - 1 && list.chain[1..][k] == n;
      assert list.chain[k + 1] == n;
    }
  }

  lemma ClientTimes(s: State, a: Action)
    requires Ranges(s) && TimesOk(s) && Enabled(s, a) && (a.Client? || a.Delete? || a.Stamp?)
    ensures TimesOk(Next(s, a))
  {
    var t, p := Next(s, a), s.pcs[a.i];
    SameListsKept(s, t);
    assert InRange(p, |s.lists|) && PcTime(s, p);
    if p.Linking? && t.pcs[a.i].Installing? { FrontIsLow(s.lists[p.l], s.nodes, s.clock, p.time); }
  }

  lemma HeadIsLow(list: TimerList, nodes: seq<Node>, clock: nat)
    requires Sorted(list, nodes, clock) && |list.chain| > 1
    ensures Low(list, nodes, clock, HeadDue(nodes, list.chain))
  {
    forall n | n in Timers(list.chain) ensures HeadDue(nodes, list.chain) <= Late(nodes, n) {
      var k :| 0 <= k < |list.chain| - 1 && list.chain[1..][k] == n;
      assert list.chain[k + 1] == n;
    }
  }

  /** The lists stay as they are; a list put back gets the deadline of its head. */
  lemma TimerTimes(s: State, a: Action)
    requires Ranges(s) && TimesOk(s) && Enabled(s, a) && (a.Tick? || a.PopEntry? || a.Park? || a.Timer? || a.TimedOut?)
    requires s.tm.Repushing? ==> |Chain(s.lists, s.tm.l)| > 1
    ensures TimesOk(Next(s, a))
  {
    var t := Next(s, a);
    assert SameLists(s, t) && t.pcs == s.pcs;
    SameListsKept(s, t);
    forall k | 0 <= k < |t.heap| ensures EntryTime(t, t.heap[k]) {
      if a.Timer? && s.tm.Repushing? && k == |s.heap| {
        HeadIsLow(s.lists[s.tm.l], s.nodes, s.clock);
      } else {
        assert t.heap[k] in s.heap;
      }
    }
  }

  lemma RemoveLater(s: State, a: Action, m: nat)
    requires Enabled(s, a) && a.Remove? && m < |s.lists| && Sorted(s.lists[m], s.nodes, s.clock)
    ensures ListLater(s, Next(s, a), m)
  {
    var t := Next(s, a);
    if t.lists[m] == s.lists[m] {
      SameLater(s.lists[m], s.nodes, s.clock, s.lists[m], s.nodes, s.clock);
    } else {
      UnlinkSorted(s.lists[m], s.nodes, s.clock, a.k);
      UnlinkLater(s.lists[m], s.nodes, s.clock, a.k);
    }
  }

  lemma PopNodeLater(s: State, m: nat)
    requires Enabled(s, PopNode) && m < |s.lists| && Sorted(s.lists[m], s.nodes, s.clock)
    ensures ListLater(s, Next(s, PopNode), m)
  {
    if m == s.tm.l {
      PopLater(s.lists[m], s.nodes, s.clock);
    } else {
      SameLater(s.lists[m], s.nodes, s.clock, s.lists[m], s.nodes, s.clock);
    }
  }

  lemma ShrinkTimes(s: State, a: Action)
    requires Ranges(s) && TimesOk(s) && Enabled(s, a) && (a.Remove? || a.PopNode?)
    ensures TimesOk(Next(s, a))
  {
    var t := Next(s, a);
    forall m | 0 <= m < |s.lists| ensures ListLater(s, t, m) {
      if a.Remove? { RemoveLater(s, a, m); } else { PopNodeLater(s, m); }
    }
    TimesKept(s, t);
    assert |t.lists| == |s.lists| && t.pcs == s.pcs && t.heap == s.heap;
  }

  lemma TimesStep(s: State, a: Action)
    requires Ranges(s) && TimesOk(s) && Enabled(s, a) && (s.tm.Repushing? ==> |Chain(s.lists, s.tm.l)| > 1)
    ensures TimesOk(Next(s, a))
  {
    match a
    case AddTo(i, l) => AddTimes(s, i, l);
    case AddNew(i) => NewTimes(s, i);
    case Stamp(_, _) => ClientTimes(s, a);
    case Delete(_) => ClientTimes(s, a);
    case Client(_) => ClientTimes(s, a);
    case Remove(_, _) => ShrinkTimes(s, a);
    case PopNode => ShrinkTimes(s, a);
    case _ => TimerTimes(s, a);
  }

  // ---------------------------------------------------------------- what became of every timer is kept

  lemma AddFates(s: State, i: nat, l: nat)
    requires FatesOk(s) && Enabled(s, AddTo(i, l)) && s.pcs[i].read <= s.clock
    ensures FatesOk(AddStep(s, i, l))
  {
    var t, c := AddStep(s, i, l), s.lists[l].chain;
    assert AtHome(c, s.nodes, l);
    assert Timers(t.lists[l].chain) == Timers(c) + [|s.nodes|];
    forall m | 0 <= m < |t.lists| ensures AtHome(t.lists[m].chain, t.nodes, m) {
      assert AtHome(s.lists[m].chain, s.nodes, m);
    }
    forall n | 0 <= n < |t.nodes| ensures FateOk(t, n) {
      if n < |s.nodes| { assert FateOk(s, n); }
    }
  }

  lemma NewFates(s: State, i: nat)
    requires FatesOk(s) && Enabled(s, AddNew(i)) && s.pcs[i].read <= s.clock
    ensures FatesOk(NewStep(s, i))
  {
    var t, l := NewStep(s, i), |s.lists|;
    assert Timers(t.lists[l].chain) == [|s.nodes| + 1];
    forall m | 0 <= m < |t.lists| ensures AtHome(t.lists[m].chain, t.nodes, m) {
      if m < l { assert AtHome(s.lists[m].chain, s.nodes, m); }
    }
    forall n | 0 <= n < |t.nodes| ensures FateOk(t, n) {
      if n < |s.nodes| { assert FateOk(s, n); }
    }
  }

  lemma SameFates(s: State, t: State)
    requires FatesOk(s) && SameLists(s, t) && t.fates == s.fates && t.sleep.now <= t.clock
    ensures FatesOk(t)
  {
    forall m | 0 <= m < |t.lists| ensures AtHome(t.lists[m].chain, t.nodes, m) {
      assert AtHome(s.lists[m].chain, s.nodes, m);
    }
    forall n | 0 <= n < |t.nodes| ensures FateOk(t, n) { assert FateOk(s, n); }
  }

  /** The timers of a list but the one at position `k`. */
  ghost predicate LosesOne(chain: seq<nat>, k: nat, rest: seq<nat>) {
    && 0 < k < |chain|
    && (forall n :: n in rest ==> n in chain)
    && (forall n :: n in Timers(rest) <==> n in Timers(chain) && n != chain[k])
  }

  lemma LeaveFates(s: State, t: State, l: nat, k: nat, rest: seq<nat>, fate: Fate)
    requires FatesOk(s) && l < |s.lists| && LosesOne(s.lists[l].chain, k, rest)
    requires var n := s.lists[l].chain[k];
             && n < |s.fates| && t.lists == SetChain(s.lists, l, rest) && t.fates == s.fates[n := fate]
             && (fate == Removed || (fate == Fired(s.clock) && Due(s.nodes, n) <= s.clock))
    requires t.nodes == s.nodes && t.clock == s.clock && t.sleep.now == s.sleep.now
    ensures FatesOk(t)
  {
    var c := s.lists[l].chain;
    assert AtHome(c, s.nodes, l);
    forall m | 0 <= m < |t.lists| ensures AtHome(t.lists[m].chain, t.nodes, m) {
      assert AtHome(s.lists[m].chain, s.nodes, m);
    }
    forall n | 0 <= n < |t.nodes| ensures FateOk(t, n) {
      assert FateOk(s, n);
      assert n == c[k] ==> s.nodes[n].l == l;
    }
  }

  lemma UnlinkLoses(chain: seq<nat>, k: nat)
    requires 0 < k < |chain| && forall i, j :: 0 <= i < j < |chain| ==> chain[i] < chain[j]
    ensures LosesOne(chain, k, Without(chain, k))
  {
    var rest := Without(chain, k);
    assert Timers(rest) == chain[1..k] + chain[k + 1..] && Timers(chain) == chain[1..k] + [chain[k]] + chain[k + 1..];
  }

  lemma PopLoses(chain: seq<nat>)
    requires |chain| > 1 && forall i, j :: 0 <= i < j < |chain| ==> chain[i] < chain[j]
    ensures LosesOne(chain, 1, chain[1..])
  {
    assert chain[1..] == [chain[1]] + chain[1..][1..];
  }

  lemma RemoveFates(s: State, a: Action)
    requires FatesOk(s) && TimesOk(s) && Enabled(s, a) && a.Remove?
    ensures FatesOk(Next(s, a))
  {
    var t, c := Next(s, a), Chain(s.lists, a.l);
    if 0 < a.k < |c| - 1 {
      assert Sorted(s.lists[a.l], s.nodes, s.clock);
      UnlinkLoses(c, a.k);
      LeaveFates(s, t, a.l, a.k, Without(c, a.k), Removed);
    } else {
      SameFates(s, t);
    }
  }

  lemma PopFates(s: State)
    requires FatesOk(s) && TimesOk(s) && Enabled(s, PopNode)
    ensures FatesOk(Next(s, PopNode))
  {
    var l := s.tm.l;
    assert Sorted(s.lists[l], s.nodes, s.clock);
    PopLoses(s.lists[l].chain);
    LeaveFates(s, Next(s, PopNode), l, 1, s.lists[l].chain[1..], Fired(s.clock));
  }

  lemma FatesStep(s: State, a: Action)
    requires FatesOk(s) && TimesOk(s) && Enabled(s, a)
    ensures FatesOk(Next(s, a))
  {
    if a.AddTo? || a.AddNew? { assert PcTime(s, s.pcs[a.i]); }
    match a
    case AddTo(i, l) => AddFates(s, i, l);
    case AddNew(i) => NewFates(s, i);
    case Remove(_, _) => RemoveFates(s, a);
    case PopNode => PopFates(s);
    case _ => SameFates(s, Next(s, a));
  }

  // ---------------------------------------------------------------- entry times stay deadlines

  /** Nodes stay, and so does which of them have a timer. */
  ghost predicate NodesStay(s: State, t: State) {
    && s.nodes <= t.nodes && |s.fates| <= |t.fates|
    && forall n :: 0 <= n < |s.fates| && !s.fates[n].NoTimer? ==> !t.fates[n].NoTimer?
  }

  lemma StayStep(s: State, a: Action)
    requires Enabled(s, a)
    ensures NodesStay(s, Next(s, a))
  {
  }

  lemma DatedStays(s: State, t: State, l: nat, time: nat)
    requires NodesStay(s, t) && Dated(s.nodes, s.fates, l, time)
    ensures Dated(t.nodes, t.fates, l, time)
  {
    var n: nat :| IsDue(s.nodes, s.fates, l, time, n);
    assert t.nodes[n] == s.nodes[n];
    assert IsDue(t.nodes, t.fates, l, time, n);
  }

  lemma PcDatedStays(s: State, t: State, p: Pc)
    requires NodesStay(s, t) && PcDated(s.nodes, s.fates, p)
    ensures PcDated(t.nodes, t.fates, p)
  {
    if p.Linking? || p.Installing? || p.Pushing? { DatedStays(s, t, p.l, p.time); }
  }

  /** The client that moves: a new timer's deadline is its node's. */
  lemma ClientDated(s: State, a: Action)
    requires Enabled(s, a) && ByClient(a) && PcDated(s.nodes, s.fates, s.pcs[a.i]) && |s.fates| == |s.nodes|
    ensures var t := Next(s, a); a.i < |t.pcs| && PcDated(t.nodes, t.fates, t.pcs[a.i])
  {
    var t := Next(s, a);
    StayStep(s, a);
    PcDatedStays(s, t, s.pcs[a.i]);
    if a.AddTo? { assert IsDue(t.nodes, t.fates, a.l, t.pcs[a.i].time, |s.nodes|); }
    if a.AddNew? { assert IsDue(t.nodes, t.fates, |s.lists|, t.pcs[a.i].time, |s.nodes| + 1); }
  }

  /** The heap's new entry, if any. */
  lemma EntryDated(s: State, a: Action)
    requires Enabled(s, a) && FatesOk(s) && (ByClient(a) ==> PcDated(s.nodes, s.fates, s.pcs[a.i]))
    requires a.Timer? && s.tm.Repushing? ==> s.tm.l < |s.lists| && |s.lists[s.tm.l].chain| > 1
    ensures var t := Next(s, a);
            |t.heap| > |s.heap| ==>
              && t.heap == s.heap + [t.heap[|s.heap|]]
              && Dated(s.nodes, s.fates, t.heap[|s.heap|].l, t.heap[|s.heap|].time)
  {
    if a.Timer? && s.tm.Repushing? {
      var c := s.lists[s.tm.l].chain;
      assert AtHome(c, s.nodes, s.tm.l) && c[1] in c && c[1] == c[1..][0] && FateOk(s, c[1]);
      assert IsDue(s.nodes, s.fates, s.tm.l, HeadDue(s.nodes, c), c[1]);
    }
  }

  lemma DatesStep(s: State, a: Action)
    requires DatesOk(s) && FatesOk(s) && Enabled(s, a)
    requires a.Timer? && s.tm.Repushing? ==> s.tm.l < |s.lists| && |s.lists[s.tm.l].chain| > 1
    ensures DatesOk(Next(s, a))
  {
    var t := Next(s, a);
    StayStep(s, a);
    if ByClient(a) { ClientDated(s, a); }
    EntryDated(s, a);
    forall i | 0 <= i < |t.pcs| ensures PcDated(t.nodes, t.fates, t.pcs[i]) {
      if !ByClient(a) || i != a.i { PcDatedStays(s, t, s.pcs[i]); }
    }
    forall k | 0 <= k < |t.heap| ensures Dated(t.nodes, t.fates, t.heap[k].l, t.heap[k].time) {
      if |t.heap| > |s.heap| && k == |s.heap| {
        DatedStays(s, t, t.heap[k].l, t.heap[k].time);
      } else {
        assert t.heap[k] in s.heap;
        var j :| 0 <= j < |s.heap| && s.heap[j] == t.heap[k];
        DatedStays(s, t, s.heap[j].l, s.heap[j].time);
      }
    }
  }

  lemma InvStep(s: State, a: Action)
    requires Inv(s) && Enabled(s, a)
    ensures Inv(Next(s, a))
  {
    forall l: nat ensures ListInv(Next(s, a), l) {
      assert ListInv(s, l);
      ListStep(s, a, l);
    }
    RangeStep(s, a);
    if ByClient(a) { ClientSleep(s, a); } else { TimerSleep(s, a); }
    if s.tm.Repushing? { assert ListInv(s, s.tm.l); }
    TimesStep(s, a);
    FatesStep(s, a);
    DatesStep(s, a);
  }

  // ---------------------------------------------------------------- every run

  ghost predicate Initial(s: State) { exists threads: nat :: s == Start(threads) }

  ghost predicate Step(s: State, t: State) { exists a: Action :: Enabled(s, a) && t == Next(s, a) }

  ghost predicate Reachable(s: State) { Reached(Initial, Step, s) }

  lemma ReachableInv(s: State)
    requires Reachable(s)
    ensures Inv(s)
  {
    forall s0 | Initial(s0) ensures Inv(s0) {
      var threads: nat :| s0 == Start(threads);
      StartInv(threads);
    }
    forall s1, s2 | Inv(s1) && Step(s1, s2) ensures Inv(s2) {
      var a: Action :| Enabled(s1, a) && s2 == Next(s1, a);
      InvStep(s1, a);
    }
    InvariantHolds(Initial, Step, Inv, s);
  }

  /** Some entry has a weight that counts. */
  lemma {:induction false} SomeEntry<T>(w: T -> nat, s: seq<T>) returns (i: nat)
    requires Total(w, s) > 0
    ensures i < |s| && w(s[i]) > 0
  {
    if w(s[0]) > 0 {
      i := 0;
    } else {
      i := SomeEntry(w, s[1..]);
      i := i + 1;
    }
  }

  /** An adder that has still to make sure that list `l` gets its heap entry. */
  predicate OwesInstall(s: State, l: nat, p: Pc)
    requires l < |s.lists| && s.lists[l].chain != []
  {
    || ((p.Pushing? || p.Installing?) && p.l == l)
    || (p.Linking? && p.l == l && p.prev == s.lists[l].chain[0])
  }

  /**
   * No timer is orphaned: a list that holds a timer has its heap entry or a thread about to push
   * it, or the timer thread is at work on the list, or an adder still owes the install.
   */
  lemma NoTimerOrphaned(s: State, l: nat)
    requires Reachable(s) && l < |s.lists| && |s.lists[l].chain| > 1
    ensures || (exists k :: 0 <= k < |s.heap| && s.heap[k].l == l) || s.tm == Repushing(l) || Working(s.tm, l)
            || (exists i :: 0 <= i < |s.pcs| && OwesInstall(s, l, s.pcs[i]))
  {
    ReachableInv(s);
    assert ListInv(s, l);
    if Total(Of(l), s.heap) > 0 {
      var k := SomeEntry(Of(l), s.heap);
    } else if Total(Pushes(l), s.pcs) > 0 {
      var i := SomeEntry(Pushes(l), s.pcs);
      assert OwesInstall(s, l, s.pcs[i]);
    } else if Total(Owes(l, s.lists[l].chain[0]), s.pcs) > 0 {
      var i := SomeEntry(Owes(l, s.lists[l].chain[0]), s.pcs);
      assert OwesInstall(s, l, s.pcs[i]);
    }
  }

  /** No list ever has two heap entries, nor one in the heap and another on its way there. */
  lemma OneEntryPerList(s: State, l: nat)
    requires Reachable(s)
    ensures forall j, k :: 0 <= j < k < |s.heap| && s.heap[j].l == l ==> s.heap[k].l != l
    ensures forall k :: 0 <= k < |s.heap| && s.heap[k].l == l ==>
              s.tm != Popped(l) && s.tm != Repushing(l) && forall i :: 0 <= i < |s.pcs| ==> Pushes(l)(s.pcs[i]) == 0
    ensures forall i, j :: 0 <= i < j < |s.pcs| && Pushes(l)(s.pcs[i]) == 1 ==> Pushes(l)(s.pcs[j]) == 0
  {
    ReachableInv(s);
    assert ListInv(s, l);
    forall j, k | 0 <= j < k < |s.heap| && s.heap[j].l == l ensures s.heap[k].l != l {
      TotalOfTwo(Of(l), s.heap, j, k);
    }
    forall k | 0 <= k < |s.heap| && s.heap[k].l == l
      ensures s.tm != Popped(l) && s.tm != Repushing(l) && forall i :: 0 <= i < |s.pcs| ==> Pushes(l)(s.pcs[i]) == 0
    {
      TotalAtLeast(Of(l), s.heap, k);
      forall i | 0 <= i < |s.pcs| ensures Pushes(l)(s.pcs[i]) == 0 { TotalAtLeast(Pushes(l), s.pcs, i); }
    }
    forall i, j | 0 <= i < j < |s.pcs| && Pushes(l)(s.pcs[i]) == 1 ensures Pushes(l)(s.pcs[j]) == 0 {
      TotalOfTwo(Pushes(l), s.pcs, i, j);
    }
  }

  /** The timer thread re-pushes only a list that has a head, so reading its deadline never fails. */
  lemma RepushHasHead(s: State)
    requires Reachable(s) && (s.tm.Returning? || s.tm.Repushing?)
    ensures s.tm.l < |s.lists| && |s.lists[s.tm.l].chain| > 1
  {
    ReachableInv(s);
    assert ListInv(s, s.tm.l);
  }

  // ---------------------------------------------------------------- what became of every timer

  /** A timer is in its list and pending, or it was removed, or it has fired: once, and not before its deadline. */
  lemma EveryTimerAccounted(s: State, n: nat)
    requires Reachable(s) && n < |s.nodes|
    ensures |s.fates| == |s.nodes| && s.nodes[n].l < |s.lists|
    ensures s.fates[n].Pending? <==> n in Timers(s.lists[s.nodes[n].l].chain)
    ensures s.fates[n].Fired? ==> s.nodes[n].read + s.nodes[n].interval <= s.fates[n].at <= s.clock
    ensures forall l :: 0 <= l < |s.lists| && n in s.lists[l].chain ==> l == s.nodes[n].l
  {
    ReachableInv(s);
    assert FateOk(s, n);
    forall l | 0 <= l < |s.lists| && n in s.lists[l].chain ensures l == s.nodes[n].l {
      assert AtHome(s.lists[l].chain, s.nodes, l);
    }
  }

  /** What an add shows for itself, its reading and the timer it pushes, and a deletion its request. */
  predicate Arrives(s: State, t: State, a: Action)
    requires Enabled(s, a)
  {
    && (a.Stamp? ==> a.i < |t.pcs| && t.pcs[a.i] == Adding(s.clock, a.interval))
    && t.sleep.requests == s.sleep.requests + (if a.Delete? then 1 else if a.Remove? then -1 else 0)
    && (a.Delete? ==> a.i < |t.pcs| && t.pcs[a.i].Taking?)
    && (forall i :: 0 <= i < |s.pcs| && s.pcs[i].Adding? ==>
          i < |t.pcs| && (t.pcs[i] == s.pcs[i] || ((a.AddTo? || a.AddNew?) && a.i == i)))
    && (if a.AddTo? || a.AddNew? then
          var p, n := s.pcs[a.i], |t.nodes| - 1;
          && 0 <= n < |t.fates| && t.fates[n] == Pending
          && t.nodes[n].l < |t.lists| && t.nodes[n] == Node(t.nodes[n].l, p.interval, p.read, s.clock)
          && t.lists[t.nodes[n].l].interval == p.interval
          && var c := t.lists[t.nodes[n].l].chain; |c| > 1 && c[|c| - 1] == n
          else t.nodes == s.nodes)
  }

  /**
   * An add reads the clock when it begins, and what it pushes has that reading and the interval it was called
   * with: one timer, pending, behind all others of a list of that interval. A deletion leaves one request, and
   * the timer thread takes them one by one.
   */
  lemma CallsArrive(s: State, a: Action)
    requires Reachable(s) && Enabled(s, a)
    ensures Arrives(s, Next(s, a), a)
  {
    assert |s.fates| == |s.nodes| by { ReachableInv(s); }
    ArriveStep(s, a);
  }

  lemma ArriveStep(s: State, a: Action)
    requires Enabled(s, a) && |s.fates| == |s.nodes|
    ensures Arrives(s, Next(s, a), a)
  {
  }

  /** What a step does to the fate of node `n`. */
  predicate LeavesWell(s: State, t: State, a: Action, n: nat)
    requires n < |s.nodes|
  {
    && n < |s.fates| && n < |t.fates| && n < |t.nodes| && t.nodes[n] == s.nodes[n]
    && (t.fates[n] != s.fates[n] ==>
          && s.fates[n] == Pending
          && ((a.PopNode? && t.fates[n] == Fired(s.clock) && s.nodes[n].read + s.nodes[n].interval <= s.sleep.now)
              || (a.Remove? && t.fates[n] == Removed)))
  }

  /** The node that a removal or a pop takes out was pending. */
  lemma TakenPending(s: State, l: nat, k: nat)
    requires FatesOk(s) && l < |s.lists| && 0 < k < |s.lists[l].chain|
    ensures var n := s.lists[l].chain[k]; n < |s.fates| && s.fates[n] == Pending
  {
    var c := s.lists[l].chain;
    assert AtHome(c, s.nodes, l);
    assert c[k] in c && c[k] == c[1..][k - 1] && FateOk(s, c[k]);
  }

  lemma LeaveStep(s: State, a: Action, n: nat)
    requires Enabled(s, a) && n < |s.nodes| == |s.fates|
    requires a.Remove? ==> var c := Chain(s.lists, a.l); 0 < a.k < |c| - 1 && c[a.k] < |s.fates| ==> s.fates[c[a.k]] == Pending
    requires a.PopNode? ==> var c := Chain(s.lists, s.tm.l); c[1] < |s.fates| ==> s.fates[c[1]] == Pending
    ensures LeavesWell(s, Next(s, a), a, n)
  {
  }

  /** A timer that left its list stays as it left; one leaves by firing, when it is due, or by a removal. */
  lemma LeavesOnce(s: State, a: Action, n: nat)
    requires Reachable(s) && Enabled(s, a) && n < |s.nodes|
    ensures LeavesWell(s, Next(s, a), a, n)
  {
    assert FatesOk(s) by { ReachableInv(s); }
    if a.Remove? && 0 < a.k < |Chain(s.lists, a.l)| { TakenPending(s, a.l, a.k); }
    if a.PopNode? { TakenPending(s, s.tm.l, 1); }
    LeaveStep(s, a, n);
  }

  /** The steps that are the timer thread's own. */
  predicate ByTimer(a: Action) { a.Remove? || a.PopEntry? || a.PopNode? || a.Park? || a.Timer? }

  lemma {:induction false} LeastEntry(heap: seq<Entry>) returns (k: nat)
    requires heap != []
    ensures Least(heap, k)
  {
    if |heap| == 1 {
      k := 0;
    } else {
      var j := LeastEntry(heap[1..]);
      k := if heap[0].time <= heap[j + 1].time then 0 else j + 1;
      forall i | 0 <= i < |heap| ensures heap[k].time <= heap[i].time {
        assert i > 0 ==> heap[i] == heap[1..][i - 1];
      }
    }
  }

  /** The timer thread always has a step of its own, unless it is asleep without a token. */
  lemma NeverBlocked(s: State)
    requires !(s.tm.Parked? && !s.sleep.token)
    ensures exists a :: ByTimer(a) && Enabled(s, a)
  {
    if s.tm.Looking? {
      if s.heap == [] {
        assert Enabled(s, Park(-1));
      } else {
        var k := LeastEntry(s.heap);
        if s.heap[k].time <= s.sleep.now {
          assert Enabled(s, PopEntry(k));
        } else {
          assert Before(s.heap, |s.heap|, s.sleep.now, s.heap[k].time);
          assert Enabled(s, Park(s.heap[k].time));
        }
      }
    } else if s.tm.Removing? && s.sleep.requests > 0 {
      assert Enabled(s, Remove(0, 0));
    } else if TimerCan(s) {
      assert Enabled(s, Timer);
    } else {
      assert Enabled(s, PopNode);
    }
  }

  // ---------------------------------------------------------------- deadlines

  /** Every heap entry is the deadline of a timer that was pushed in its list, so the thread sleeps until no other time. */
  lemma EntriesAreDeadlines(s: State, k: nat)
    requires Reachable(s) && k < |s.heap|
    ensures exists n: nat :: IsDue(s.nodes, s.fates, s.heap[k].l, s.heap[k].time, n)
  {
    ReachableInv(s);
    assert Dated(s.nodes, s.fates, s.heap[k].l, s.heap[k].time);
  }

  /**
   * A heap entry is later than a timer of its list by no more than that timer's adder took from reading the
   * clock to pushing.
   */
  lemma EntriesAreEarly(s: State, k: nat, n: nat)
    requires Reachable(s) && k < |s.heap| && s.heap[k].l < |s.lists| && n in Timers(s.lists[s.heap[k].l].chain)
    ensures n < |s.nodes| && s.nodes[n].read <= s.nodes[n].pushed <= s.clock
    ensures s.heap[k].time <= Due(s.nodes, n) + (s.nodes[n].pushed - s.nodes[n].read)
  {
    ReachableInv(s);
    assert EntryTime(s, s.heap[k]);
    var c := s.lists[s.heap[k].l].chain;
    assert AtHome(c, s.nodes, s.heap[k].l) && n in c[1..];
    assert FateOk(s, n);
  }

  /** Asleep without a token, with every client's call over, or not past its clock reading. */
  ghost predicate Asleep(s: State) {
    s.tm.Parked? && !s.sleep.token && forall i :: 0 <= i < |s.pcs| ==> !InCall(s.pcs[i])
  }

  /**
   * Once the timer thread is asleep, no removal request is left, the heap is as it was when the thread chose
   * its sleep, and the sleep passes no pending timer's deadline by more than the timer's adder took
   * from reading the clock to pushing.
   */
  lemma NeverOversleeps(s: State)
    requires Reachable(s) && Asleep(s)
    ensures |s.heap| == s.sleep.seen && s.sleep.requests == 0 && |s.fates| == |s.nodes|
    ensures forall n :: 0 <= n < |s.nodes| && s.fates[n].Pending? ==>
              && s.nodes[n].read <= s.nodes[n].pushed
              && s.sleep.now < s.sleep.until <= Due(s.nodes, n) + (s.nodes[n].pushed - s.nodes[n].read)
  {
    ReachableInv(s);
    TotalZero(Wakes, s.pcs);
    TotalZero(Takes, s.pcs);
    forall n | 0 <= n < |s.nodes| && s.fates[n].Pending?
      ensures s.nodes[n].read <= s.nodes[n].pushed
      ensures s.sleep.now < s.sleep.until <= Due(s.nodes, n) + (s.nodes[n].pushed - s.nodes[n].read)
    {
      assert FateOk(s, n);
      var k := EntryAtRest(s, s.nodes[n].l);
      EntriesAreEarly(s, k, n);
    }
  }

  lemma EntryAtRest(s: State, l: nat) returns (k: nat)
    requires Inv(s) && Asleep(s) && l < |s.lists| && |s.lists[l].chain| > 1
    ensures k < |s.heap| && s.heap[k].l == l
  {
    assert ListInv(s, l);
    TotalZero(Pushes(l), s.pcs);
    TotalZero(Owes(l, s.lists[l].chain[0]), s.pcs);
    k := SomeEntry(Of(l), s.heap);
  }
}
