/**
 * The calls of the mpmc channel as their callers see them: what was sent, what was received, and what each call
 * may answer. A run of the `Mpmc` machine is watched from outside; what is written down comes from the calls.
 */
module MpmcCalls {
  import opened Traces
  import opened Mpmc
  import S = Semphore

  /**
   * `args` has the argument of each thread's last `send`, `waits` whether its last receive blocks; `pushed`
   * has the arguments in the order of their pushes, `received` the items handed out, in the order of their pops.
   */
  datatype Ledger = Ledger(args: seq<int>, waits: seq<bool>, pushed: seq<int>, received: seq<int>)

  datatype Watched = Watched(s: State, h: Ledger)

  function Begin(threads: nat): Watched {
    Watched(Start(threads), Ledger(seq(threads, _ => 0), seq(threads, _ => false), [], []))
  }

  predicate Fitting(s: State, h: Ledger) { |h.args| == |h.waits| == |s.pcs| == |s.sem.pcs| }

  /** What the step `a` of state `s` shows of its thread's call. */
  function Record(s: State, a: Action, h: Ledger): Ledger
    requires Enabled(s, a) && Fitting(s, h)
  {
    match a
    case CallSend(i, v) => h.(args := h.args[i := v])
    case CallRecv(i, blocking) => h.(waits := h.waits[i := blocking])
    case PushItem(i) => h.(pushed := h.pushed + [h.args[i]])
    case TakeItem(_) => if s.items != [] then h.(received := h.received + [s.items[0]]) else h
    case _ => h
  }

  ghost predicate First(w: Watched) { exists threads: nat :: w == Begin(threads) }

  ghost predicate Moves(w: Watched, x: Watched) {
    Fitting(w.s, w.h) && exists a: Action :: Enabled(w.s, a) && x == Watched(Next(w.s, a), Record(w.s, a, w.h))
  }

  ghost predicate Seen(w: Watched) { Reached(First, Moves, w) }

  // ---------------------------------------------------------------- what is kept

  predicate Told(q: S.Pc) { (q.InWait? && q.stopping) || q == S.Returned(S.Stopped) }

  /** A thread is in the call it asked for, and is told to stop only when the senders are gone. */
  predicate CallOk(tx: nat, p: Pc, q: S.Pc, arg: int, waits: bool) {
    && (p.Pushing? ==> p.v == arg)
    && (p.Trying? || p.LoadTx? ==> p.blocking == waits)
    && (p.Receiving? ==> waits)
    && (Told(q) ==> tx == 0)
  }

  /** While somebody can receive, what was received and what is queued are the sent arguments, in order. */
  predicate Delivered(s: State, h: Ledger) { s.rx > 0 ==> h.received + s.items == h.pushed }

  ghost predicate Kept(w: Watched) {
    && Reachable(w.s) && Fitting(w.s, w.h) && Delivered(w.s, w.h)
    && forall i :: 0 <= i < |w.s.pcs| ==> CallOk(w.s.tx, w.s.pcs[i], w.s.sem.pcs[i], w.h.args[i], w.h.waits[i])
  }

  lemma BeginKept(threads: nat)
    ensures Kept(Begin(threads))
  {
    StartIsReached(Initial, Step, Start(threads));
  }

  lemma ItemsStep(s: State, a: Action, h: Ledger)
    requires Enabled(s, a) && Fitting(s, h) && Delivered(s, h)
    requires (s.pcs[a.i].Pushing? ==> s.pcs[a.i].v == h.args[a.i]) && PcOk(s, a.i)
    ensures Delivered(Next(s, a), Record(s, a, h))
  {
    if a.PushItem? { assert h.received + (s.items + [h.args[a.i]]) == (h.received + s.items) + [h.args[a.i]]; }
    if a.TakeItem? && s.items != [] { assert (h.received + [s.items[0]]) + s.items[1..] == h.received + s.items; }
  }

  lemma InnerToldStep(sem: S.State, b: S.Action)
    requires S.Enabled(sem, b) && S.Internal(b) && S.PcOk(sem.wl, b.i, sem.pcs[b.i])
    ensures var t := S.Next(sem, b);
            b.i < |t.pcs| == |sem.pcs| && (Told(t.pcs[b.i]) ==> Told(sem.pcs[b.i]) || (b.AskStop? && b.stop))
  {
  }

  lemma OwnInner(s: State, a: Action, h: Ledger)
    requires Enabled(s, a) && a.Inner? && Fitting(s, h) && CallOk(s.tx, s.pcs[a.i], s.sem.pcs[a.i], h.args[a.i], h.waits[a.i])
    requires S.PcOk(s.sem.wl, a.i, s.sem.pcs[a.i])
    ensures var t := Next(s, a); Fitting(t, h) && CallOk(t.tx, t.pcs[a.i], t.sem.pcs[a.i], h.args[a.i], h.waits[a.i])
  {
    InnerToldStep(s.sem, a.a);
  }

  lemma OwnOutside(s: State, a: Action, h: Ledger)
    requires Enabled(s, a) && !a.Inner? && Fitting(s, h) && CallOk(s.tx, s.pcs[a.i], s.sem.pcs[a.i], h.args[a.i], h.waits[a.i])
    ensures var t, g := Next(s, a), Record(s, a, h);
            Fitting(t, g) && CallOk(t.tx, t.pcs[a.i], t.sem.pcs[a.i], g.args[a.i], g.waits[a.i])
  {
  }

  /** The thread that moves. */
  lemma OwnCall(s: State, a: Action, h: Ledger)
    requires Enabled(s, a) && Fitting(s, h) && CallOk(s.tx, s.pcs[a.i], s.sem.pcs[a.i], h.args[a.i], h.waits[a.i])
    requires S.PcOk(s.sem.wl, a.i, s.sem.pcs[a.i])
    ensures var t, g := Next(s, a), Record(s, a, h);
            Fitting(t, g) && CallOk(t.tx, t.pcs[a.i], t.sem.pcs[a.i], g.args[a.i], g.waits[a.i])
  {
    if a.Inner? { OwnInner(s, a, h); } else { OwnOutside(s, a, h); }
  }

  lemma OtherCall(s: State, a: Action, h: Ledger, j: nat)
    requires Enabled(s, a) && Fitting(s, h) && j < |s.pcs| && j != a.i && (s.tx == 0 ==> Next(s, a).tx == 0)
    requires CallOk(s.tx, s.pcs[j], s.sem.pcs[j], h.args[j], h.waits[j])
    ensures var t, g := Next(s, a), Record(s, a, h);
            Fitting(t, g) && CallOk(t.tx, t.pcs[j], t.sem.pcs[j], g.args[j], g.waits[j])
  {
  }

  lemma Facts(s: State, i: nat)
    requires Reachable(s) && i < |s.pcs|
    ensures |s.pcs| == |s.sem.pcs| && PcOk(s, i) && S.PcOk(s.sem.wl, i, s.sem.pcs[i])
    ensures s.pcs[i].Taking? && s.items == [] ==> s.tx == 0
  {
    ReachableInv(s);
    if s.pcs[i].Taking? { TakingFindsItem(s, i); }
  }

  lemma SendersStayGone(s: State, a: Action)
    requires Enabled(s, a) && s.tx == 0
    ensures Next(s, a).tx == 0
  {
  }

  lemma KeptStep(w: Watched, x: Watched)
    requires Kept(w) && Moves(w, x)
    ensures Kept(x)
  {
    var a: Action :| Enabled(w.s, a) && x == Watched(Next(w.s, a), Record(w.s, a, w.h));
    Facts(w.s, a.i);
    OneMore(Initial, Step, w.s, x.s);
    if w.s.tx == 0 { SendersStayGone(w.s, a); }
    assert CallOk(w.s.tx, w.s.pcs[a.i], w.s.sem.pcs[a.i], w.h.args[a.i], w.h.waits[a.i]);
    ItemsStep(w.s, a, w.h);
    OwnCall(w.s, a, w.h);
    forall j | 0 <= j < |x.s.pcs| ensures CallOk(x.s.tx, x.s.pcs[j], x.s.sem.pcs[j], x.h.args[j], x.h.waits[j]) {
      if j != a.i { OtherCall(w.s, a, w.h, j); }
    }
  }

  lemma SeenKept(w: Watched)
    requires Seen(w)
    ensures Kept(w)
  {
    forall w0 | First(w0) ensures Kept(w0) {
      var threads: nat :| w0 == Begin(threads);
      BeginKept(threads);
    }
    forall w1, w2 | Kept(w1) && Moves(w1, w2) ensures Kept(w2) {
      KeptStep(w1, w2);
    }
    InvariantHolds(First, Moves, Kept, w);
  }

  // ---------------------------------------------------------------- what the callers see

  /**
   * While somebody can receive, the values received, in the order of their pops, and then the queued items are
   * the arguments of the sends, in the order of their pushes: nothing is lost, made up, doubled or overtaken.
   */
  lemma ReceivedIsSent(w: Watched)
    requires Seen(w) && w.s.rx > 0
    ensures w.h.received + w.s.items == w.h.pushed
  {
    SeenKept(w);
  }

  /** How the call of a thread at `p` goes on in one step. */
  predicate PlainMove(s: State, t: State, a: Action, p: Pc, r: Pc, waits: bool)
    requires a.i < |s.sem.pcs|
  {
    match p
    // a send is refused only when nobody can receive
    case Out =>
      if a.CallSend? then (if s.rx == 0 then r.Out? else r.Pushing?)
      else if a.CallRecv? then r.Trying?
      else if a.DropTx? && s.tx == 1 then r.Asking?
      else if a.DropRx? && s.rx == 1 then r.Draining?
      else r.Out?
    case Pushing(_) => r.Sending? && |t.items| == |s.items| + 1
    case Sending => r.Sending? || (r.Sent? && t.sem.posts == s.sem.posts + 1) || r == Panicked(true)
    case Sent => r.Sent? || r.Out?
    case Trying(_) =>
      || r.Trying? || (r.LoadTx? && s.sem.pcs[a.i] == S.Returned(S.Refused))
      || (r.Granted? && t.sem.acquired == s.sem.acquired + 1)
    // without a permit: disconnected, empty, or on to wait
    case LoadTx(_) => if s.tx == 0 || !waits then r.Out? else r.Receiving?
    // a wait is over without a permit when it timed out, was canceled, or the senders are gone
    case Receiving =>
      || r.Receiving? || (r.Granted? && t.sem.acquired == s.sem.acquired + 1)
      || (r.Out? && (s.sem.pcs[a.i] == S.Returned(S.Left) || (s.sem.pcs[a.i] == S.Returned(S.Stopped) && s.tx == 0)))
    case Granted => r.Taking?
    // a permit is an item, or the senders are gone
    case Taking => if s.items != [] then r.Out? && t.items == s.items[1..] else r.FoundNone? && s.tx == 0
    case FoundNone => r.Out? && s.tx == 0
    case Asking => if s.sem.cnt < 0 then r.Waking? else r.Out? && t.closed
    case Waking => r.Waking? || (r.Woke? && t.sem.posts == s.sem.posts + 1) || r == Panicked(false)
    case Woke => r.Woke? || r.Asking?
    case Draining => if s.items != [] then r.Draining? && t.items == s.items[1..] else r.Out?
    case Panicked(_) => false
  }

  lemma InnerMove(s: State, a: Action, waits: bool)
    requires |s.pcs| == |s.sem.pcs| && Enabled(s, a) && a.Inner? && PcOk(s, a.i)
    ensures var t := Next(s, a); a.i < |t.pcs| && PlainMove(s, t, a, s.pcs[a.i], t.pcs[a.i], waits)
  {
    InnerFacts(s.sem, a.a, s.pcs[a.i]);
  }

  lemma LeaveMove(s: State, a: Action, waits: bool)
    requires |s.pcs| == |s.sem.pcs| && Enabled(s, a) && a.Leave? && PcOk(s, a.i) && (Told(s.sem.pcs[a.i]) ==> s.tx == 0)
    ensures var t := Next(s, a); a.i < |t.pcs| && PlainMove(s, t, a, s.pcs[a.i], t.pcs[a.i], waits)
  {
  }

  lemma OutsideMove(s: State, a: Action, waits: bool)
    requires |s.pcs| == |s.sem.pcs| && Enabled(s, a) && !a.Inner? && !a.Leave? && PcOk(s, a.i)
    requires (s.pcs[a.i].LoadTx? ==> s.pcs[a.i].blocking == waits) && (a.TakeItem? && s.items == [] ==> s.tx == 0)
    ensures var t := Next(s, a); a.i < |t.pcs| && PlainMove(s, t, a, s.pcs[a.i], t.pcs[a.i], waits)
  {
  }

  lemma AnyMove(s: State, a: Action, waits: bool)
    requires |s.pcs| == |s.sem.pcs| && Enabled(s, a) && PcOk(s, a.i)
    requires (s.pcs[a.i].LoadTx? ==> s.pcs[a.i].blocking == waits) && (a.TakeItem? && s.items == [] ==> s.tx == 0)
    requires Told(s.sem.pcs[a.i]) ==> s.tx == 0
    ensures var t := Next(s, a); a.i < |t.pcs| && PlainMove(s, t, a, s.pcs[a.i], t.pcs[a.i], waits)
  {
    if a.Inner? { InnerMove(s, a, waits); } else if a.Leave? { LeaveMove(s, a, waits); } else { OutsideMove(s, a, waits); }
  }

  /** The handles of either side, as the calls make and drop them. */
  predicate Ports(s: State, t: State, a: Action) {
    && t.tx == s.tx + (if a.CloneTx? then 1 else if a.DropTx? then -1 else 0)
    && t.rx == s.rx + (if a.CloneRx? then 1 else if a.DropRx? then -1 else 0)
  }

  /** Every call of every run goes like that. */
  lemma CallsAnswer(w: Watched, a: Action)
    requires Seen(w) && Enabled(w.s, a)
    ensures Fitting(w.s, w.h) && a.i < |Next(w.s, a).pcs|
    ensures PlainMove(w.s, Next(w.s, a), a, w.s.pcs[a.i], Next(w.s, a).pcs[a.i], w.h.waits[a.i])
    ensures Ports(w.s, Next(w.s, a), a)
    ensures forall j :: 0 <= j < |w.s.pcs| && j != a.i ==> j < |Next(w.s, a).pcs| && Next(w.s, a).pcs[j] == w.s.pcs[j]
  {
    assert Kept(w) by { SeenKept(w); }
    Facts(w.s, a.i);
    assert CallOk(w.s.tx, w.s.pcs[a.i], w.s.sem.pcs[a.i], w.h.args[a.i], w.h.waits[a.i]);
    AnyMove(w.s, a, w.h.waits[a.i]);
    OthersStay(w.s, a);
  }

  lemma OthersStay(s: State, a: Action)
    requires Enabled(s, a)
    ensures |Next(s, a).pcs| == |s.pcs| && forall j :: 0 <= j < |s.pcs| && j != a.i ==> Next(s, a).pcs[j] == s.pcs[j]
    ensures Ports(s, Next(s, a), a)
  {
  }

  /** Inside the semaphore a call goes as a plain semaphore's: so a `try_recv` finds nothing only when no permit is free. */
  lemma InsideSemaphore(s: State, a: Action)
    requires Reachable(s) && Enabled(s, a) && a.Inner?
    ensures a.i < |Next(s, a).sem.pcs|
    ensures S.PlainMove(s.sem, Next(s, a).sem, S.Seen(s.sem.pcs[a.i]), S.Seen(Next(s, a).sem.pcs[a.i]), a.a)
  {
    Facts(s, a.i);
    S.PlainAction(s.sem, a.a);
  }
}
