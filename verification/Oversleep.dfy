/**
 * The timer thread of src/timeout_list.rs can sleep past a timer's deadline. `add_timer` reads the clock first
 * and pushes second; an adder that is overtaken in between by one that read a later clock is not the
 * head of its list, and wakes nobody.
 */
module Oversleep {
  import opened Traces
  import opened TimerThread

  lemma Go(s: State, a: Action, t: State)
    requires Reachable(s) && Enabled(s, a) && t == Next(s, a)
    ensures Reachable(t)
  {
    OneMore(Initial, Step, s, t);
  }

  lemma {:induction false} Wait(s: State, clock: nat)
    requires Reachable(s) && s.clock <= clock
    ensures Reachable(s.(clock := clock))
    decreases clock - s.clock
  {
    if s.clock < clock {
      var t := s.(clock := s.clock + 1);
      Go(s, Tick, t);
      Wait(t, clock);
      assert t.(clock := clock) == s.(clock := clock);
    } else {
      assert s.(clock := clock) == s;
    }
  }

  /** Two adders have read the clock for timers of interval `d`: adder 0 at `r`, adder 1 at `p`. */
  function BothRead(r: nat, p: nat, d: nat): State {
    Start(2).(clock := p, pcs := [Adding(r, d), Adding(p, d)])
  }

  lemma BothReadIsReachable(r: nat, p: nat, d: nat)
    requires r <= p
    ensures Reachable(BothRead(r, p, d))
  {
    var s := Start(2);
    StartIsReached(Initial, Step, s);
    assert s.pcs == [Idle, Idle];
    Wait(s, r);
    var s1 := s.(clock := r);
    var s2 := s1.(pcs := [Adding(r, d), Idle]);
    Go(s1, Stamp(0, d), s2);
    Wait(s2, p);
    Go(s2.(clock := p), Stamp(1, d), BothRead(r, p, d));
  }

  /** Adder 1 creates the list and makes its way to `pc`; the list has `inUse` and the heap is `heap`. */
  function Creating(r: nat, p: nat, d: nat, inUse: nat, heap: seq<Entry>, pc: Pc): State {
    BothRead(r, p, d).(
      lists := [TimerList(d, [0, 1], inUse)], nodes := [Node(0, d, 0, 0), Node(0, d, p, p)], fates := [NoTimer, Pending],
      heap := heap, pcs := [Adding(r, d), pc])
  }

  lemma CreateStep(r: nat, p: nat, d: nat)
    ensures var s := BothRead(r, p, d);
            Enabled(s, AddNew(1)) && Next(s, AddNew(1)) == Creating(r, p, d, 0, [], Installing(0, p + d))
  {
  }

  lemma InstallStep(r: nat, p: nat, d: nat)
    ensures var s := Creating(r, p, d, 0, [], Installing(0, p + d));
            Enabled(s, Client(1)) && Next(s, Client(1)) == Creating(r, p, d, 1, [], Pushing(0, p + d))
  {
  }

  lemma PushStep(r: nat, p: nat, d: nat)
    ensures var s := Creating(r, p, d, 1, [], Pushing(0, p + d));
            Enabled(s, Client(1)) && Next(s, Client(1)) == Creating(r, p, d, 1, [Entry(0, p + d)], Taking)
  {
  }

  lemma TakeStep(r: nat, p: nat, d: nat)
    ensures var s := Creating(r, p, d, 1, [Entry(0, p + d)], Taking);
            Enabled(s, Client(1)) && Next(s, Client(1)) == Creating(r, p, d, 1, [Entry(0, p + d)], Idle)
  {
  }

  lemma CreatedIsReachable(r: nat, p: nat, d: nat)
    requires r <= p
    ensures Reachable(Creating(r, p, d, 1, [Entry(0, p + d)], Idle))
  {
    BothReadIsReachable(r, p, d);
    CreateStep(r, p, d);
    Go(BothRead(r, p, d), AddNew(1), Creating(r, p, d, 0, [], Installing(0, p + d)));
    InstallStep(r, p, d);
    Go(Creating(r, p, d, 0, [], Installing(0, p + d)), Client(1), Creating(r, p, d, 1, [], Pushing(0, p + d)));
    PushStep(r, p, d);
    Go(Creating(r, p, d, 1, [], Pushing(0, p + d)), Client(1), Creating(r, p, d, 1, [Entry(0, p + d)], Taking));
    TakeStep(r, p, d);
    Go(Creating(r, p, d, 1, [Entry(0, p + d)], Taking), Client(1), Creating(r, p, d, 1, [Entry(0, p + d)], Idle));
  }

  /** Adder 0 has pushed behind adder 1 and is at `pc`; the timer thread is at `tm`. */
  function Behind(r: nat, p: nat, d: nat, pc: Pc, tm: Tm, sleep: Sleep): State {
    State([TimerList(d, [0, 1, 2], 1)], [Node(0, d, 0, 0), Node(0, d, p, p), Node(0, d, r, p)], [NoTimer, Pending, Pending],
      p, [Entry(0, p + d)], [pc, Idle], tm, sleep)
  }

  /** The timer thread sleeps until the only entry, and adder 0 was not the head. */
  function Overslept(r: nat, p: nat, d: nat): State { Behind(r, p, d, Idle, Parked, Sleep(true, false, 0, p, p + d, 1)) }

  lemma BehindStep(r: nat, p: nat, d: nat)
    ensures var s := Creating(r, p, d, 1, [Entry(0, p + d)], Idle);
            && Enabled(s, AddTo(0, 0))
            && Next(s, AddTo(0, 0)) == Behind(r, p, d, Linking(0, 1, r + d), Removing, Sleep(false, false, 0, 0, -1, 0))
  {
    assert [0, 1] + [2] == [0, 1, 2];
    assert [Node(0, d, 0, 0), Node(0, d, p, p)] + [Node(0, d, r, p)] == [Node(0, d, 0, 0), Node(0, d, p, p), Node(0, d, r, p)];
    assert [NoTimer, Pending] + [Pending] == [NoTimer, Pending, Pending];
  }

  lemma ParkStep(r: nat, p: nat, d: nat)
    requires d > 0
    ensures var s := Behind(r, p, d, Idle, Looking, Sleep(true, false, 0, p, -1, 0));
            Enabled(s, Park(p + d)) && Next(s, Park(p + d)) == Overslept(r, p, d)
  {
    var s := Behind(r, p, d, Idle, Looking, Sleep(true, false, 0, p, -1, 0));
    assert |s.heap| == 1 && s.heap[0].time == p + d && Before(s.heap, 1, p, p + d);
  }

  lemma OversleptIsReachable(r: nat, p: nat, d: nat)
    requires r <= p && d > 0
    ensures Reachable(Overslept(r, p, d))
  {
    CreatedIsReachable(r, p, d);
    var first := Sleep(false, false, 0, 0, -1, 0);
    var s0 := Behind(r, p, d, Linking(0, 1, r + d), Removing, first);
    BehindStep(r, p, d);
    Go(Creating(r, p, d, 1, [Entry(0, p + d)], Idle), AddTo(0, 0), s0);
    var s1 := Behind(r, p, d, Idle, Removing, first);
    Go(s0, Client(0), s1);
    var s2 := Behind(r, p, d, Idle, Checking, first.(slot := true));
    Go(s1, Timer, s2);
    var s3 := Behind(r, p, d, Idle, Looking, Sleep(true, false, 0, p, -1, 0));
    Go(s2, Timer, s3);
    ParkStep(r, p, d);
    Go(s3, Park(p + d), Overslept(r, p, d));
  }

  /** However long the adder takes, all the time from its reading to its push can be overslept. */
  lemma CanOversleep(r: nat, p: nat, d: nat)
    requires r <= p && d > 0
    ensures var s := Overslept(r, p, d);
            && Reachable(s) && Asleep(s) && s.fates[2] == Pending && s.nodes[2] == Node(0, d, r, p)
            && s.sleep.until == Due(s.nodes, 2) + (p - r)
  {
    OversleptIsReachable(r, p, d);
  }

  /** Node `n` is a pending timer whose adder read the clock at `r` and pushed at `p`. */
  ghost predicate PendingSince(s: State, n: nat, r: nat, p: nat) {
    && n < |s.nodes| && n < |s.fates|
    && s.fates[n].Pending? && s.nodes[n].read == r && s.nodes[n].pushed == p
  }

  /** No sleep passes the deadline of a timer read at `r` and pushed at `p`. */
  ghost predicate WokenInTime(r: nat, p: nat) {
    forall s: State, n: nat :: Reachable(s) && Asleep(s) && PendingSince(s, n, r, p) ==> s.sleep.until <= Due(s.nodes, n)
  }

  /**
   * A timer is sure to be woken for in time if and only if the push comes no later than the reading: at the clock
   * that was read, as a push never comes before its reading.
   */
  lemma WokenInTimeExact(r: nat, p: nat)
    ensures WokenInTime(r, p) <==> p <= r
  {
    if p <= r {
      forall s: State, n: nat | Reachable(s) && Asleep(s) && PendingSince(s, n, r, p) ensures s.sleep.until <= Due(s.nodes, n) {
        NeverOversleeps(s);
      }
    } else {
      CanOversleep(r, p, 1);
      assert PendingSince(Overslept(r, p, 1), 2, r, p);
    }
  }
}
