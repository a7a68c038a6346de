/**
 * The timer index of src/timeout_list.rs as the sequential object that the timer thread and its
 * clients use in turn: a hash from intervals to FIFO lists and a heap with one entry per
 * non-empty list. It is proved against the plain set of pending timers.
 */
module TimeoutList {
  import opened Options

  const U64_MAX: nat := 0xffff_ffff_ffff_ffff
  const HASH_CAP: nat := 1024

  /** The interval a timer is filed under and its deadline: both saturate, nothing overflows. */
  function TimeoutDeadline(now: nat, dur: nat): (r: (nat, nat))
    requires now <= U64_MAX
    ensures r.1 == now + r.0 <= U64_MAX && r.0 <= dur
    ensures r.0 == dur || r.1 == U64_MAX
  {
    var interval := if dur < U64_MAX - now then dur else U64_MAX - now;
    (interval, now + interval)
  }

  datatype Timer = Timer(id: nat, time: nat)

  datatype IntervalList = IntervalList(interval: nat, timers: seq<Timer>, inUse: nat)

  datatype Entry = Entry(time: nat, list: nat, interval: nat)

  // ---------------------------------------------------------------- what the lists and the heap keep

  /** Nodes stand in push order and in deadline order. */
  ghost predicate Sorted(ts: seq<Timer>) {
    forall j, k :: 0 <= j < k < |ts| ==> ts[j].id < ts[k].id && ts[j].time <= ts[k].time
  }

  ghost predicate ListOk(l: IntervalList, clock: nat) {
    && Sorted(l.timers) && l.inUse == (if l.timers == [] then 0 else 1)
    && (forall k :: 0 <= k < |l.timers| ==> l.timers[k].time <= clock + l.interval)
  }

  ghost predicate ListsOk(lists: seq<IntervalList>, clock: nat) {
    forall l :: 0 <= l < |lists| ==> ListOk(lists[l], clock)
  }

  /** Every linked node stands in the list it was pushed on, so none is in two places. */
  ghost predicate Homed(lists: seq<IntervalList>, homes: seq<nat>) {
    && (forall n :: 0 <= n < |homes| ==> homes[n] < |lists|)
    && (forall l, k :: 0 <= l < |lists| && 0 <= k < |lists[l].timers| ==>
          lists[l].timers[k].id < |homes| && homes[lists[l].timers[k].id] == l)
  }

  ghost predicate EntryOk(lists: seq<IntervalList>, e: Entry) {
    && e.list < |lists| && e.interval == lists[e.list].interval && lists[e.list].timers != []
    && e.time <= lists[e.list].timers[0].time
  }

  ghost predicate Listed(heap: seq<Entry>, l: nat) {
    exists k :: 0 <= k < |heap| && heap[k].list == l
  }

  /** One entry for every non-empty list, none for the others, and none later than its list's head. */
  ghost predicate HeapOk(lists: seq<IntervalList>, heap: seq<Entry>) {
    && (forall k :: 0 <= k < |heap| ==> EntryOk(lists, heap[k]))
    && (forall j, k :: 0 <= j < k < |heap| ==> heap[j].list != heap[k].list)
    && (forall l :: 0 <= l < |lists| && lists[l].timers != [] ==> Listed(heap, l))
  }

  ghost predicate MapOk(lists: seq<IntervalList>, intervals: map<nat, nat>) {
    forall i :: i in intervals ==> intervals[i] < |lists| && lists[intervals[i]].interval == i
  }

  ghost function Pending(lists: seq<IntervalList>): set<Timer> {
    set l, k | 0 <= l < |lists| && 0 <= k < |lists[l].timers| :: lists[l].timers[k]
  }

  // ---------------------------------------------------------------- one list changes

  /** Replacing one list's nodes by a part of them, or by more of them, changes the pending set by just that. */
  lemma PendingUpdate(lists: seq<IntervalList>, l: nat, v: IntervalList)
    requires l < |lists|
    ensures forall t :: t in Pending(lists[l := v]) <==>
              t in v.timers || (exists m :: 0 <= m < |lists| && m != l && t in lists[m].timers)
  {
    var after := lists[l := v];
    forall t
      ensures t in Pending(after) <==> t in v.timers || (exists m :: 0 <= m < |lists| && m != l && t in lists[m].timers)
    {
      if t in v.timers {
        var k :| 0 <= k < |v.timers| && v.timers[k] == t;
        assert after[l].timers[k] == t;
      }
      if m :| 0 <= m < |lists| && m != l && t in lists[m].timers {
        var k :| 0 <= k < |lists[m].timers| && lists[m].timers[k] == t;
        assert after[m].timers[k] == t;
      }
    }
  }

  lemma PendingIs(lists: seq<IntervalList>, l: nat)
    requires l < |lists|
    ensures forall t :: t in Pending(lists) <==>
              t in lists[l].timers || (exists m :: 0 <= m < |lists| && m != l && t in lists[m].timers)
  {
    PendingUpdate(lists, l, lists[l]);
    assert lists[l := lists[l]] == lists;
  }

  /** The nodes of one list are in no other. */
  lemma Apart(lists: seq<IntervalList>, homes: seq<nat>, l: nat, t: Timer)
    requires Homed(lists, homes) && l < |lists| && t in lists[l].timers
    ensures t.id < |homes| && homes[t.id] == l
    ensures forall m :: 0 <= m < |lists| && t in lists[m].timers ==> m == l
  {
  }

  /** Fewer nodes in list `l`: the pending set loses exactly those that went. */
  lemma PendingShrinks(lists: seq<IntervalList>, homes: seq<nat>, l: nat, v: IntervalList, gone: seq<Timer>)
    requires Homed(lists, homes) && l < |lists|
    requires forall t :: t in lists[l].timers <==> t in v.timers || t in gone
    requires forall t :: t in gone ==> t !in v.timers
    ensures Pending(lists[l := v]) == Pending(lists) - (set t | t in gone)
    ensures forall t :: t in gone ==> t in Pending(lists)
  {
    PendingUpdate(lists, l, v);
    PendingIs(lists, l);
    forall t | t in gone
      ensures t !in Pending(lists[l := v]) && t in Pending(lists)
    {
      Apart(lists, homes, l, t);
    }
  }

  /** How many heap entries are due. */
  function DueEntries(heap: seq<Entry>, now: nat): nat {
    if heap == [] then 0 else (if heap[0].time <= now then 1 else 0) + DueEntries(heap[1..], now)
  }

  lemma {:induction false} DueSplit(a: seq<Entry>, b: seq<Entry>, now: nat)
    ensures DueEntries(a + b, now) == DueEntries(a, now) + DueEntries(b, now)
  {
    if a == [] {
      assert a + b == b;
    } else {
      DueSplit(a[1..], b, now);
      assert (a + b)[1..] == a[1..] + b;
    }
  }

  function Without(heap: seq<Entry>, k: nat): seq<Entry>
    requires k < |heap|
  {
    heap[..k] + heap[k + 1..]
  }

  lemma DueWithout(heap: seq<Entry>, k: nat, now: nat)
    requires k < |heap|
    ensures DueEntries(heap, now) == DueEntries(Without(heap, k), now) + (if heap[k].time <= now then 1 else 0)
  {
    assert heap == heap[..k] + [heap[k]] + heap[k + 1..];
    DueSplit(heap[..k] + [heap[k]], heap[k + 1..], now);
    DueSplit(heap[..k], [heap[k]], now);
    DueSplit(heap[..k], heap[k + 1..], now);
  }

  /** `BinaryHeap::peek`: the index of an entry with the least time. */
  method MinIndex(heap: seq<Entry>) returns (k: nat)
    requires heap != []
    ensures k < |heap| && forall j :: 0 <= j < |heap| ==> heap[k].time <= heap[j].time
  {
    k := 0;
    for j := 1 to |heap|
      invariant k < |heap| && forall n :: 0 <= n < j ==> heap[k].time <= heap[n].time
    {
      if heap[j].time < heap[k].time { k := j; }
    }
  }

  // ---------------------------------------------------------------- adding

  function Push(list: IntervalList, t: Timer): IntervalList {
    list.(timers := list.timers + [t], inUse := if list.timers == [] then list.inUse + 1 else list.inUse)
  }

  function Installed(lists: seq<IntervalList>, heap: seq<Entry>, l: nat, t: Timer): seq<Entry>
    requires l < |lists|
  {
    if lists[l].timers == [] then heap + [Entry(t.time, l, lists[l].interval)] else heap
  }

  lemma PushLists(lists: seq<IntervalList>, homes: seq<nat>, clock: nat, now: nat, l: nat, t: Timer)
    requires ListsOk(lists, clock) && Homed(lists, homes) && clock <= now && l < |lists|
    requires t == Timer(|homes|, now + lists[l].interval)
    ensures ListsOk(lists[l := Push(lists[l], t)], now) && Homed(lists[l := Push(lists[l], t)], homes + [l])
  {
    assert ListOk(lists[l], clock);
  }

  lemma PushPending(lists: seq<IntervalList>, homes: seq<nat>, l: nat, t: Timer)
    requires Homed(lists, homes) && l < |lists| && t.id == |homes|
    ensures Pending(lists[l := Push(lists[l], t)]) == Pending(lists) + {t} && t !in Pending(lists)
  {
    PendingUpdate(lists, l, Push(lists[l], t));
    PendingIs(lists, l);
    var after := lists[l := Push(lists[l], t)];
    assert Push(lists[l], t).timers[|lists[l].timers|] == t;
    forall u
      ensures u in Pending(after) <==> u in Pending(lists) || u == t
    {
      assert u in Push(lists[l], t).timers <==> u in lists[l].timers || u == t;
    }
  }

  lemma PushHeap(lists: seq<IntervalList>, heap: seq<Entry>, l: nat, t: Timer)
    requires HeapOk(lists, heap) && l < |lists|
    ensures HeapOk(lists[l := Push(lists[l], t)], Installed(lists, heap, l, t))
  {
    var after, more := lists[l := Push(lists[l], t)], Installed(lists, heap, l, t);
    forall k | 0 <= k < |heap|
      ensures EntryOk(after, heap[k])
    {
      assert EntryOk(lists, heap[k]);
    }
    forall m | 0 <= m < |after| && after[m].timers != []
      ensures Listed(more, m)
    {
      if lists[m].timers == [] {
        assert more[|heap|].list == m;
      } else {
        var k :| 0 <= k < |heap| && heap[k].list == m;
        assert more[k].list == m;
      }
    }
  }

  lemma NewList(lists: seq<IntervalList>, heap: seq<Entry>, homes: seq<nat>, clock: nat, interval: nat)
    requires ListsOk(lists, clock) && Homed(lists, homes) && HeapOk(lists, heap)
    ensures var more := lists + [IntervalList(interval, [], 0)];
            && ListsOk(more, clock) && Homed(more, homes) && HeapOk(more, heap)
            && Pending(more) == Pending(lists)
  {
    var more := lists + [IntervalList(interval, [], 0)];
    forall k | 0 <= k < |heap|
      ensures EntryOk(more, heap[k])
    {
      assert EntryOk(lists, heap[k]);
    }
    forall t | t in Pending(lists)
      ensures t in Pending(more)
    {
      var l, k :| 0 <= l < |lists| && 0 <= k < |lists[l].timers| && t == lists[l].timers[k];
      assert more[l].timers[k] == t;
    }
  }

  // ---------------------------------------------------------------- unlinking and firing

  function Unlink(list: IntervalList, k: nat): IntervalList
    requires k < |list.timers|
  {
    list.(timers := list.timers[..k] + list.timers[k + 1..])
  }

  lemma UnlinkLists(lists: seq<IntervalList>, homes: seq<nat>, clock: nat, l: nat, k: nat)
    requires ListsOk(lists, clock) && Homed(lists, homes) && l < |lists| && k + 1 < |lists[l].timers|
    ensures ListsOk(lists[l := Unlink(lists[l], k)], clock) && Homed(lists[l := Unlink(lists[l], k)], homes)
  {
    assert ListOk(lists[l], clock);
  }

  /** Unlinking a node that has a successor can only make the list's head later. */
  lemma UnlinkHeap(lists: seq<IntervalList>, heap: seq<Entry>, l: nat, k: nat)
    requires HeapOk(lists, heap) && l < |lists| && k + 1 < |lists[l].timers| && Sorted(lists[l].timers)
    ensures HeapOk(lists[l := Unlink(lists[l], k)], heap)
  {
    forall j | 0 <= j < |heap|
      ensures EntryOk(lists[l := Unlink(lists[l], k)], heap[j])
    {
      assert EntryOk(lists, heap[j]);
    }
  }

  lemma UnlinkPending(lists: seq<IntervalList>, homes: seq<nat>, clock: nat, l: nat, k: nat)
    requires ListsOk(lists, clock) && Homed(lists, homes) && l < |lists| && k < |lists[l].timers|
    ensures Pending(lists[l := Unlink(lists[l], k)]) == Pending(lists) - {lists[l].timers[k]}
  {
    var ts := lists[l].timers;
    assert ListOk(lists[l], clock);
    assert ts == ts[..k] + [ts[k]] + ts[k + 1..];
    PendingShrinks(lists, homes, l, Unlink(lists[l], k), [ts[k]]);
  }

  /** The list after the timer thread took its first `k` nodes, and the heap after it put the list back. */
  function Drained(list: IntervalList, k: nat): IntervalList
    requires k <= |list.timers|
  {
    list.(timers := list.timers[k..], inUse := if k < |list.timers| then 1 else 0)
  }

  function Repushed(lists: seq<IntervalList>, heap: seq<Entry>, top: nat, k: nat): seq<Entry>
    requires top < |heap| && heap[top].list < |lists| && k <= |lists[heap[top].list].timers|
  {
    var list := lists[heap[top].list];
    if k < |list.timers| then Without(heap, top) + [heap[top].(time := list.timers[k].time)] else Without(heap, top)
  }

  lemma DrainLists(lists: seq<IntervalList>, homes: seq<nat>, clock: nat, l: nat, k: nat)
    requires ListsOk(lists, clock) && Homed(lists, homes) && l < |lists| && k <= |lists[l].timers|
    ensures ListsOk(lists[l := Drained(lists[l], k)], clock) && Homed(lists[l := Drained(lists[l], k)], homes)
  {
    assert ListOk(lists[l], clock);
  }

  lemma DrainPending(lists: seq<IntervalList>, homes: seq<nat>, clock: nat, l: nat, k: nat)
    requires ListsOk(lists, clock) && Homed(lists, homes) && l < |lists| && k <= |lists[l].timers|
    ensures var gone := lists[l].timers[..k];
            && Pending(lists[l := Drained(lists[l], k)]) == Pending(lists) - (set t | t in gone)
            && (forall i, j :: 0 <= i < j < k ==> gone[i] != gone[j])
            && (forall t :: t in gone ==> t in Pending(lists))
  {
    var ts := lists[l].timers;
    assert ListOk(lists[l], clock);
    assert ts == ts[..k] + ts[k..];
    PendingShrinks(lists, homes, l, Drained(lists[l], k), ts[..k]);
  }

  /** The entries other than the popped one are of other lists. */
  lemma OtherEntries(lists: seq<IntervalList>, heap: seq<Entry>, top: nat, v: IntervalList)
    requires HeapOk(lists, heap) && top < |heap| && EntryOk(lists, heap[top])
    ensures var rest := Without(heap, top);
            && (forall j :: 0 <= j < |rest| ==> EntryOk(lists[heap[top].list := v], rest[j]) && rest[j].list != heap[top].list)
            && (forall i, j :: 0 <= i < j < |rest| ==> rest[i].list != rest[j].list)
  {
    var rest := Without(heap, top);
    forall j | 0 <= j < |rest|
      ensures EntryOk(lists[heap[top].list := v], rest[j]) && rest[j].list != heap[top].list
    {
      assert rest[j] == heap[if j < top then j else j + 1];
      assert EntryOk(lists, rest[j]);
    }
    forall i, j | 0 <= i < j < |rest|
      ensures rest[i].list != rest[j].list
    {
      assert rest[i] == heap[if i < top then i else i + 1] && rest[j] == heap[if j < top then j else j + 1];
    }
  }

  lemma StillListed(heap: seq<Entry>, top: nat, more: seq<Entry>, m: nat)
    requires top < |heap| && Listed(heap, m) && m != heap[top].list && Without(heap, top) <= more
    ensures Listed(more, m)
  {
    var j :| 0 <= j < |heap| && heap[j].list == m;
    assert more[if j < top then j else j - 1] == Without(heap, top)[if j < top then j else j - 1];
  }

  lemma DrainHeap(lists: seq<IntervalList>, heap: seq<Entry>, top: nat, k: nat)
    requires HeapOk(lists, heap) && top < |heap| && EntryOk(lists, heap[top])
    requires k <= |lists[heap[top].list].timers|
    ensures var l := heap[top].list; HeapOk(lists[l := Drained(lists[l], k)], Repushed(lists, heap, top, k))
  {
    var l := heap[top].list;
    var after, more := lists[l := Drained(lists[l], k)], Repushed(lists, heap, top, k);
    OtherEntries(lists, heap, top, Drained(lists[l], k));
    forall m | 0 <= m < |after| && after[m].timers != []
      ensures Listed(more, m)
    {
      if m == l {
        assert more[|heap| - 1].list == m;
      } else {
        StillListed(heap, top, more, m);
      }
    }
  }

  /** Re-pushing a list whose head is later than `now` leaves one due entry less. */
  lemma DrainDue(lists: seq<IntervalList>, heap: seq<Entry>, top: nat, k: nat, now: nat)
    requires top < |heap| && heap[top].list < |lists| && k <= |lists[heap[top].list].timers| && heap[top].time <= now
    requires k < |lists[heap[top].list].timers| ==> now < lists[heap[top].list].timers[k].time
    ensures DueEntries(Repushed(lists, heap, top, k), now) == DueEntries(heap, now) - 1
  {
    DueWithout(heap, top, now);
    if k < |lists[heap[top].list].timers| {
      DueSplit(Without(heap, top), [heap[top].(time := lists[heap[top].list].timers[k].time)], now);
    }
  }

  /** What one round of the scheduling loop does to the index and to the pending set. */
  lemma RoundKeeps(lists: seq<IntervalList>, heap: seq<Entry>, homes: seq<nat>, clock: nat, top: nat, more: seq<Timer>, now: nat)
    requires ListsOk(lists, clock) && Homed(lists, homes) && HeapOk(lists, heap)
    requires top < |heap| && EntryOk(lists, heap[top]) && heap[top].time <= now
    requires |more| <= |lists[heap[top].list].timers| && more == lists[heap[top].list].timers[..|more|]
    requires |more| < |lists[heap[top].list].timers| ==> now < lists[heap[top].list].timers[|more|].time
    ensures var l := heap[top].list;
            var after, left := lists[l := Drained(lists[l], |more|)], Repushed(lists, heap, top, |more|);
            && ListsOk(after, clock) && Homed(after, homes) && HeapOk(after, left)
            && DueEntries(left, now) == DueEntries(heap, now) - 1
            && Pending(after) == Pending(lists) - (set t | t in more)
            && (forall t :: t in more ==> t in Pending(lists))
            && (forall i, j :: 0 <= i < j < |more| ==> more[i] != more[j])
  {
    var l := heap[top].list;
    DrainLists(lists, homes, clock, l, |more|);
    DrainPending(lists, homes, clock, l, |more|);
    DrainHeap(lists, heap, top, |more|);
    DrainDue(lists, heap, top, |more|, now);
  }

  /** `fired` has, each once, due timers of `was`, and the lists have all the others. */
  ghost predicate Fires(was: set<Timer>, lists: seq<IntervalList>, fired: seq<Timer>, now: nat) {
    && Pending(lists) == was - (set t | t in fired)
    && (forall t :: t in fired ==> t in was && t.time <= now)
    && (forall i, j :: 0 <= i < j < |fired| ==> fired[i] != fired[j])
  }

  lemma FiresMore(was: set<Timer>, lists: seq<IntervalList>, after: seq<IntervalList>,
                  fired: seq<Timer>, more: seq<Timer>, now: nat)
    requires Fires(was, lists, fired, now) && Fires(Pending(lists), after, more, now)
    ensures Fires(was, after, fired + more, now)
  {
  }

  /** Every pending deadline is at least the least time in the heap. */
  lemma HeapCovers(lists: seq<IntervalList>, heap: seq<Entry>, clock: nat, least: nat)
    requires ListsOk(lists, clock) && HeapOk(lists, heap)
    requires forall k :: 0 <= k < |heap| ==> least <= heap[k].time
    ensures forall t :: t in Pending(lists) ==> least <= t.time
    ensures Pending(lists) == {} <==> heap == []
  {
    forall t | t in Pending(lists)
      ensures least <= t.time && heap != []
    {
      var l, k :| 0 <= l < |lists| && 0 <= k < |lists[l].timers| && t == lists[l].timers[k];
      assert ListOk(lists[l], clock) && Listed(heap, l);
      var j :| 0 <= j < |heap| && heap[j].list == l;
      assert EntryOk(lists, heap[j]);
    }
    if heap != [] {
      assert EntryOk(lists, heap[0]);
      assert lists[heap[0].list].timers[0] in Pending(lists);
    }
  }

  function Last(ts: seq<Timer>): Option<Timer> {
    if ts == [] then None else Some(ts[|ts| - 1])
  }

  // ---------------------------------------------------------------- the object

  class TimeOutList {
    var intervals: map<nat, nat>     // interval_map: interval to list
    var lists: seq<IntervalList>     // every list ever created
    var heap: seq<Entry>             // timer_bh
    var homes: seq<nat>              // for every node ever created, the list it was pushed on
    ghost var clock: nat             // the latest `now()` an add used

    ghost predicate Valid()
      reads this
    {
      ListsOk(lists, clock) && Homed(lists, homes) && HeapOk(lists, heap) && MapOk(lists, intervals)
    }

    constructor ()
      ensures Valid() && Pending(lists) == {} && homes == [] && clock == 0
    {
      intervals, lists, heap, homes := map[], [], [], [];
      clock := 0;
    }

    /** The list filed under `interval`, created when it is missing. */
    method ListFor(interval: nat) returns (l: nat)
      requires Valid()
      modifies this`lists, this`intervals
      ensures Valid() && Pending(lists) == old(Pending(lists))
      ensures l < |lists| && lists[l].interval == interval && interval in intervals && intervals[interval] == l
      ensures |lists| == |old(lists)| + (if interval in old(intervals) then 0 else 1)
    {
      if interval in intervals {
        l := intervals[interval];
      } else {
        NewList(lists, heap, homes, clock, interval);
        l := |lists|;
        lists := lists + [IntervalList(interval, [], 0)];
        intervals := intervals[interval := l];
      }
    }

    /**
     * `add_timer` at clock reading `now`. `recall` asks the timer thread to look again; without it
     * some pending timer is due no later, so the wait the thread has computed still holds.
     */
    method AddTimer(now: nat, dur: nat) returns (t: Timer, recall: bool)
      requires Valid() && clock <= now <= U64_MAX
      modifies this
      ensures Valid() && clock == now
      ensures t.id == |old(homes)| && |homes| == |old(homes)| + 1 && t.time == TimeoutDeadline(now, dur).1
      ensures t !in old(Pending(lists)) && Pending(lists) == old(Pending(lists)) + {t}
      ensures !recall ==> exists u :: u in old(Pending(lists)) && u.time <= t.time
      ensures |lists| == |old(lists)| + (if TimeoutDeadline(now, dur).0 in old(intervals) then 0 else 1)
      ensures recall ==> exists l :: 0 <= l < |lists| && lists[l].timers == [t]
    {
      var (interval, time) := TimeoutDeadline(now, dur);
      t := Timer(|homes|, time);
      var l := ListFor(interval);
      assert ListOk(lists[l], clock);
      assert lists[l].timers != [] ==> lists[l].timers[0] in Pending(lists) && lists[l].timers[0].time <= time;
      PushLists(lists, homes, clock, now, l, t);
      PushPending(lists, homes, l, t);
      PushHeap(lists, heap, l, t);
      recall := PushAt(l, t);
      clock := now;
    }

    /** The push, and the install of a heap entry when it made the list non-empty. */
    method PushAt(l: nat, t: Timer) returns (isHead: bool)
      requires l < |lists| && lists[l].inUse == (if lists[l].timers == [] then 0 else 1)
      modifies this`lists, this`heap, this`homes
      ensures lists == old(lists)[l := Push(old(lists)[l], t)] && heap == Installed(old(lists), old(heap), l, t)
      ensures homes == old(homes) + [l] && isHead == (old(lists)[l].timers == [])
    {
      var list := lists[l];
      isHead := list.timers == [];
      lists := lists[l := Push(list, t)];
      if isHead && list.inUse == 0 {
        heap := heap + [Entry(t.time, l, list.interval)];
      }
      homes := homes + [l];
    }

    /** The place of node `id` in list `l`, or the list's length when it is not linked there. */
    method Find(l: nat, id: nat) returns (k: nat)
      requires l < |lists|
      ensures k <= |lists[l].timers| && (forall j :: 0 <= j < k ==> lists[l].timers[j].id != id)
      ensures k < |lists[l].timers| ==> lists[l].timers[k].id == id
    {
      k := 0;
      while k < |lists[l].timers| && lists[l].timers[k].id != id
        invariant k <= |lists[l].timers| && (forall j :: 0 <= j < k ==> lists[l].timers[j].id != id)
      {
        k := k + 1;
      }
    }

    /** `Entry::remove`: no effect on a node that left its list or that is the last one there. */
    method Remove(id: nat) returns (r: Option<Timer>)
      requires Valid() && id < |homes|
      modifies this`lists
      ensures Valid()
      ensures r.Some? ==> r.value.id == id && r.value in old(Pending(lists)) && Pending(lists) == old(Pending(lists)) - {r.value}
      ensures r.None? ==> lists == old(lists)
      ensures r.None? <==> forall t :: t in old(Pending(lists)) && t.id == id ==> Some(t) == Last(old(lists)[homes[id]].timers)
    {
      var l := homes[id];
      var k := Find(l, id);
      ghost var was := lists;
      assert ListOk(was[l], clock);
      forall t | t in Pending(was) && t.id == id
        ensures k < |was[l].timers| && t == was[l].timers[k]
      {
        var m, n :| 0 <= m < |was| && 0 <= n < |was[m].timers| && t == was[m].timers[n];
      }
      if k + 1 < |lists[l].timers| {
        r := Some(lists[l].timers[k]);
        UnlinkLists(lists, homes, clock, l, k);
        UnlinkHeap(lists, heap, l, k);
        UnlinkPending(lists, homes, clock, l, k);
        lists := lists[l := Unlink(lists[l], k)];
      } else {
        r := None;
      }
    }

    /** `pop_timeout`'s loop: take the nodes of list `l` from the front as long as they are due. */
    method Drain(l: nat, now: nat) returns (more: seq<Timer>)
      requires l < |lists| && Sorted(lists[l].timers)
      modifies this`lists
      ensures |more| <= |old(lists)[l].timers| && more == old(lists)[l].timers[..|more|]
      ensures lists == old(lists)[l := old(lists)[l].(timers := old(lists)[l].timers[|more|..])]
      ensures forall t :: t in more ==> t.time <= now
      ensures lists[l].timers != [] ==> now < lists[l].timers[0].time
    {
      more := [];
      ghost var ts := lists[l].timers;
      while lists[l].timers != [] && lists[l].timers[0].time <= now
        invariant |more| <= |ts| && more == ts[..|more|]
        invariant lists == old(lists)[l := old(lists)[l].(timers := ts[|more|..])]
        invariant forall t :: t in more ==> t.time <= now
        decreases |ts| - |more|
      {
        more := more + [lists[l].timers[0]];
        lists := lists[l := lists[l].(timers := lists[l].timers[1..])];
      }
    }

    /** One round of `schedule_timer`'s loop: pop an entry, fire what is due in its list, put it back. */
    method Round(top: nat, now: nat) returns (more: seq<Timer>)
      requires Valid() && top < |heap| && heap[top].time <= now
      modifies this`lists, this`heap, this`intervals
      ensures Valid() && DueEntries(heap, now) == DueEntries(old(heap), now) - 1
      ensures Fires(old(Pending(lists)), lists, more, now)
    {
      ghost var was, heapWas := lists, heap;
      assert EntryOk(lists, heap[top]) && ListOk(lists[heap[top].list], clock);
      more := FireTop(top, now);
      RoundKeeps(was, heapWas, homes, clock, top, more, now);
    }

    /** The entry leaves the heap, its list is drained, and what is left of the list is put back. */
    method FireTop(top: nat, now: nat) returns (more: seq<Timer>)
      requires top < |heap| && heap[top].list < |lists| && Sorted(lists[heap[top].list].timers)
      modifies this`lists, this`heap, this`intervals
      ensures var l := old(heap[top].list); var ts := old(lists)[l].timers;
              && |more| <= |ts| && more == ts[..|more|] && (forall t :: t in more ==> t.time <= now)
              && (|more| < |ts| ==> now < ts[|more|].time)
              && lists == old(lists)[l := Drained(old(lists)[l], |more|)]
              && heap == Repushed(old(lists), old(heap), top, |more|)
      ensures forall i :: i in intervals ==> i in old(intervals) && intervals[i] == old(intervals)[i]
    {
      var entry := heap[top];
      var l := entry.list;
      heap := Without(heap, top);
      lists := lists[l := lists[l].(inUse := 0)];
      more := Drain(l, now);
      PutBack(entry);
      assert lists[l] == Drained(old(lists)[l], |more|);
    }

    /** A list that still has nodes gets its heap entry back; an empty one may leave the hash. */
    method PutBack(entry: Entry)
      requires entry.list < |lists| && lists[entry.list].inUse == 0
      modifies this`lists, this`heap, this`intervals
      ensures lists == old(lists)[entry.list := Drained(old(lists)[entry.list], 0)]
      ensures heap == if lists[entry.list].timers == [] then old(heap)
                      else old(heap) + [entry.(time := lists[entry.list].timers[0].time)]
      ensures forall i :: i in intervals ==> i in old(intervals) && intervals[i] == old(intervals)[i]
    {
      var l := entry.list;
      if lists[l].timers != [] {
        var inUse := lists[l].inUse;
        lists := lists[l := lists[l].(inUse := inUse + 1)];
        if inUse == 0 {
          heap := heap + [entry.(time := lists[l].timers[0].time)];
        }
      } else if |intervals| > HASH_CAP {
        intervals := intervals - {entry.interval};
      }
    }

    /**
     * `schedule_timer`: fires every pending timer that is due, each once and none early; what is
     * left is exactly the rest, and the wait it returns passes no pending deadline and ends at the least
     * time in the heap.
     */
    method ScheduleTimer(now: nat) returns (fired: seq<Timer>, wait: Option<nat>)
      requires Valid()
      modifies this`lists, this`heap, this`intervals
      ensures Valid()
      ensures forall t :: t in fired <==> t in old(Pending(lists)) && t.time <= now
      ensures forall i, j :: 0 <= i < j < |fired| ==> fired[i] != fired[j]
      ensures forall t :: t in Pending(lists) <==> t in old(Pending(lists)) && now < t.time
      ensures wait.None? <==> Pending(lists) == {}
      ensures wait.Some? ==> 0 < wait.value && forall t :: t in Pending(lists) ==> now + wait.value <= t.time
      ensures wait.Some? ==> exists k :: 0 <= k < |heap| && heap[k].time == now + wait.value
    {
      fired := [];
      ghost var was := Pending(lists);
      while true
        invariant Valid() && Fires(was, lists, fired, now)
        decreases DueEntries(heap, now)
      {
        if heap == [] {
          HeapCovers(lists, heap, clock, now + 1);
          return fired, None;
        }
        var top := MinIndex(heap);
        HeapCovers(lists, heap, clock, heap[top].time);
        if heap[top].time > now {
          return fired, Some(heap[top].time - now);
        }
        ghost var before := lists;
        var more := Round(top, now);
        FiresMore(was, before, lists, fired, more, now);
        fired := fired + more;
      }
    }
  }
}
