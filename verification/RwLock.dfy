/**
 * `RwLock` of src/sync/rwlock.rs as a step machine. Both locks inside it are run step by step on the
 * machine of `Mutex`: `g` is the global lock, whose waits leave on a cancel, and `r` the mutex around
 * the reader count.
 */
module RwLock {
  import opened Counting
  import opened Traces
  import opened WaitList
  import M = Mutex

  datatype Pc =
    | Idle
    | RLocking                 // read: in `rlock.lock()`
    | ReadTest(blocking: bool) // has `rlock`, about to test the reader count
    | ReadG                    // first reader: in the global `lock`, with `rlock`
    | ReadInc(first: bool)     // about to increment the reader count
    | Leave(guard: bool)       // about to unlock `rlock`
    | Exit(guard: bool)        // in that unlock
    | DropWant                 // read_unlock: about to lock `rlock`, or spinning on it
    | DropLocking              // in `rlock.lock()` with the cancel disabled
    | DropDec                  // has `rlock`, about to decrement the reader count
    | DropFree                 // last reader: about to unlock the global lock
    | DropUnlocking            // in that unlock
    | WLocking                 // write: in the global `lock`
    | WUnlocking               // write_unlock: in the global `unlock`

  datatype State = State(
    g: M.State, r: M.State, readers: int, pcs: seq<Pc>, readGuards: nat, writeGuards: nat)

  datatype Action =
    | CallRead(i: nat) | CallTryRead(i: nat) | DropRead(i: nat)
    | CallWrite(i: nat) | CallTryWrite(i: nat) | DropWrite(i: nat)
    | SpinR(i: nat) | LockR(i: nat) | Test(i: nat) | Inc(i: nat) | Dec(i: nat) | FreeG(i: nat) | LeaveR(i: nat)
    | RMove(i: nat, b: M.Action) | GMove(i: nat, b: M.Action)

  function Start(threads: nat): State {
    State(M.Start(threads), M.Start(threads), 0, seq(threads, _ => Idle), 0, 0)
  }

  predicate InR(p: Pc) { p.RLocking? || p.Exit? || p.DropLocking? }

  predicate InG(p: Pc) { p.ReadG? || p.DropUnlocking? || p.WLocking? || p.WUnlocking? }

  predicate Enabled(s: State, a: Action) {
    a.i < |s.pcs| && |s.g.pcs| == |s.r.pcs| == |s.pcs| &&
    var p := s.pcs[a.i];
    match a
    case CallRead(i) => p.Idle? && M.Enabled(s.r, M.CallLock(i))
    case CallTryRead(i) => p.Idle? && M.Enabled(s.r, M.CallTryLock(i))
    case DropRead(_) => p.Idle? && s.readGuards > 0
    case CallWrite(i) => p.Idle? && M.Enabled(s.g, M.CallLock(i))
    case CallTryWrite(i) => p.Idle? && M.Enabled(s.g, M.CallTryLock(i))
    case DropWrite(i) => p.Idle? && s.writeGuards > 0 && M.Enabled(s.g, M.CallUnlock(i))
    case SpinR(i) => p.DropWant? && M.Enabled(s.r, M.CallTryLock(i))
    case LockR(i) => p.DropWant? && M.Enabled(s.r, M.CallLock(i))
    case Test(i) => p.ReadTest? && M.Enabled(s.g, if p.blocking then M.CallLock(i) else M.CallTryLock(i))
    case Inc(_) => p.ReadInc?
    case Dec(_) => p.DropDec?
    case FreeG(i) => p.DropFree? && M.Enabled(s.g, M.CallUnlock(i))
    case LeaveR(i) => p.Leave? && M.Enabled(s.r, M.CallUnlock(i))
    // read_unlock disables the cancel, so every check of its `lock` ignores it
    case RMove(i, b) =>
      && InR(p) && b.i == i && M.Internal(b) && M.Enabled(s.r, b)
      && (p.DropLocking? ==> !(b.WaiterMove? && b.m.Check?))
    // the global lock has no ignoring check
    case GMove(i, b) =>
      InG(p) && b.i == i && M.Internal(b) && M.Enabled(s.g, b) && !(b.WaiterMove? && b.m.CheckIgnoring?)
  }

  predicate Over(m: M.State, i: nat) { i < |m.pcs| && m.pcs[i].Idle? }

  /** A step of thread `i` inside `rlock`. */
  function RNext(s: State, i: nat, b: M.Action): State
    requires i < |s.pcs| && M.Enabled(s.r, b)
  {
    var r := M.Next(s.r, b);
    var p := s.pcs[i];
    var s1 := s.(r := r);
    if r.guards > s.r.guards then s1.(pcs := s.pcs[i := if p.RLocking? then ReadTest(true) else DropDec])
    else if !Over(r, i) then s1
    else s1.(pcs := s.pcs[i := Idle], readGuards := if p.Exit? && p.guard then s.readGuards + 1 else s.readGuards)
  }

  /** A step of thread `i` inside the global lock. */
  function GNext(s: State, i: nat, b: M.Action): State
    requires i < |s.pcs| && M.Enabled(s.g, b)
  {
    var g := M.Next(s.g, b);
    var p := s.pcs[i];
    var s1 := s.(g := g);
    if g.guards > s.g.guards then
      if p.ReadG? then s1.(pcs := s.pcs[i := ReadInc(true)])
      else s1.(pcs := s.pcs[i := Idle], writeGuards := s.writeGuards + 1)
    else if !Over(g, i) then s1
    else s1.(pcs := s.pcs[i := if p.ReadG? || p.DropUnlocking? then Leave(false) else Idle])
  }

  function TestNext(s: State, i: nat): State
    requires Enabled(s, Test(i))
  {
    if s.readers > 0 then s.(pcs := s.pcs[i := ReadInc(false)])
    else if s.pcs[i].blocking then s.(g := M.Next(s.g, M.CallLock(i)), pcs := s.pcs[i := ReadG])
    else
      var g := M.Next(s.g, M.CallTryLock(i));
      s.(g := g, pcs := s.pcs[i := if g.guards > s.g.guards then ReadInc(true) else Leave(false)])
  }

  function TryR(s: State, i: nat, ok: Pc, refused: Pc): State
    requires i < |s.pcs| && M.Enabled(s.r, M.CallTryLock(i))
  {
    var r := M.Next(s.r, M.CallTryLock(i));
    s.(r := r, pcs := s.pcs[i := if r.guards > s.r.guards then ok else refused])
  }

  function Next(s: State, a: Action): State
    requires Enabled(s, a)
  {
    var i := a.i;
    match a
    case CallRead(_) => s.(r := M.Next(s.r, M.CallLock(i)), pcs := s.pcs[i := RLocking])
    case CallTryRead(_) => TryR(s, i, ReadTest(false), Idle)
    case DropRead(_) => s.(readGuards := s.readGuards - 1, pcs := s.pcs[i := DropWant])
    case CallWrite(_) => s.(g := M.Next(s.g, M.CallLock(i)), pcs := s.pcs[i := WLocking])
    case CallTryWrite(_) =>
      var g := M.Next(s.g, M.CallTryLock(i));
      s.(g := g, writeGuards := if g.guards > s.g.guards then s.writeGuards + 1 else s.writeGuards)
    case DropWrite(_) =>
      s.(g := M.Next(s.g, M.CallUnlock(i)), writeGuards := s.writeGuards - 1, pcs := s.pcs[i := WUnlocking])
    case SpinR(_) => TryR(s, i, DropDec, DropWant)
    case LockR(_) => s.(r := M.Next(s.r, M.CallLock(i)), pcs := s.pcs[i := DropLocking])
    case Test(_) => TestNext(s, i)
    case Inc(_) => s.(readers := s.readers + 1, pcs := s.pcs[i := Leave(true)])
    case Dec(_) => s.(readers := s.readers - 1, pcs := s.pcs[i := if s.readers == 1 then DropFree else Leave(false)])
    case FreeG(_) => s.(g := M.Next(s.g, M.CallUnlock(i)), pcs := s.pcs[i := DropUnlocking])
    case LeaveR(_) => s.(r := M.Next(s.r, M.CallUnlock(i)), pcs := s.pcs[i := Exit(s.pcs[i].guard)])
    case RMove(_, b) => RNext(s, i, b)
    case GMove(_, b) => GNext(s, i, b)
  }

  // ---------------------------------------------------------------- the invariant

  /** Has the guard of `rlock`. */
  function HasR(p: Pc): nat {
    if p.ReadTest? || p.ReadG? || p.ReadInc? || p.Leave? || p.DropDec? || p.DropFree? || p.DropUnlocking? then 1 else 0
  }

  /** Has the global lock for the readers while they are not counted. */
  function HasG(p: Pc): nat { if (p.ReadInc? && p.first) || p.DropFree? then 1 else 0 }

  /** A counted reader without a live guard: just counted, or dropped and not yet uncounted. */
  function Pending(p: Pc): nat {
    if ((p.Leave? || p.Exit?) && p.guard) || p.DropWant? || p.DropLocking? || p.DropDec? then 1 else 0
  }

  function One(b: bool): nat { if b then 1 else 0 }

  /** Where a thread is in the two locks. */
  predicate LockOk(g: M.State, r: M.State, i: nat, p: Pc) {
    && i < |g.pcs| && i < |r.pcs|
    && (match p
        case RLocking => M.InLock(r.pcs[i]) || M.InUnlock(r.pcs[i])
        case Exit(_) => M.InUnlock(r.pcs[i])
        case DropLocking => M.Ignoring(r, i)
        case _ => r.pcs[i].Idle?)
    && (match p
        case ReadG => M.InLock(g.pcs[i]) || M.InUnlock(g.pcs[i])
        case WLocking => M.InLock(g.pcs[i]) || M.InUnlock(g.pcs[i])
        case DropUnlocking => M.InUnlock(g.pcs[i])
        case WUnlocking => M.InUnlock(g.pcs[i])
        case _ => g.pcs[i].Idle?)
  }

  /** What a thread with `rlock` knows of the reader count. */
  predicate CountOk(readers: int, p: Pc) {
    && (p.ReadG? || (p.ReadInc? && p.first) || p.DropFree? ==> readers == 0)
    && (p.ReadInc? && !p.first ==> readers > 0)
  }

  /** The guards of both locks, and the count, are accounted for. */
  ghost predicate Balanced(s: State) {
    && s.r.guards == Total(HasR, s.pcs)
    && s.g.guards == s.writeGuards + One(s.readers > 0) + Total(HasG, s.pcs)
    && s.readers == s.readGuards + Total(Pending, s.pcs)
  }

  ghost predicate Places(s: State) {
    forall i :: 0 <= i < |s.pcs| ==> LockOk(s.g, s.r, i, s.pcs[i]) && CountOk(s.readers, s.pcs[i])
  }

  ghost predicate Inv(s: State) {
    && M.Inv(s.g) && M.Inv(s.r) && |s.g.pcs| == |s.r.pcs| == |s.pcs|
    && Balanced(s) && Places(s)
  }

  lemma StartInv(threads: nat)
    ensures Inv(Start(threads))
  {
    var s := Start(threads);
    M.StartInv(threads);
    TotalZero(HasR, s.pcs);
    TotalZero(HasG, s.pcs);
    TotalZero(Pending, s.pcs);
  }

  /** What a step does for its own thread, and to the guards and the count. */
  predicate Account(s: State, t: State, i: nat)
    requires i < |s.pcs| == |t.pcs|
  {
    && t.pcs == s.pcs[i := t.pcs[i]]
    && LockOk(t.g, t.r, i, t.pcs[i]) && CountOk(t.readers, t.pcs[i])
    && (t.readers != s.readers ==> HasR(s.pcs[i]) == 1)
    && t.r.guards - HasR(t.pcs[i]) == s.r.guards - HasR(s.pcs[i])
    && t.g.guards - t.writeGuards - One(t.readers > 0) - HasG(t.pcs[i])
       == s.g.guards - s.writeGuards - One(s.readers > 0) - HasG(s.pcs[i])
    && t.readers - t.readGuards - Pending(t.pcs[i]) == s.readers - s.readGuards - Pending(s.pcs[i])
  }

  /** Both locks stay in order, and only thread `i` moves in them. */
  ghost predicate LocksKept(s: State, t: State, i: nat) {
    M.Inv(t.g) && M.Inv(t.r) && M.Alone(s.g, t.g, i) && M.Alone(s.r, t.r, i)
  }

  /** Whoever changes the count is alone with `rlock`. */
  lemma OthersCount(s: State, i: nat, j: nat)
    requires Inv(s) && i < |s.pcs| && j < |s.pcs| && i != j && HasR(s.pcs[i]) == 1
    ensures HasR(s.pcs[j]) == 0
  {
    M.AtMostOneGuard(s.r);
    if i < j { TotalOfTwo(HasR, s.pcs, i, j); } else { TotalOfTwo(HasR, s.pcs, j, i); }
  }

  lemma StepKeeps(s: State, t: State, i: nat)
    requires Inv(s) && i < |s.pcs| == |t.pcs| && Account(s, t, i) && LocksKept(s, t, i)
    ensures Inv(t)
  {
    TotalUpdate(HasR, s.pcs, i, t.pcs[i]);
    TotalUpdate(HasG, s.pcs, i, t.pcs[i]);
    TotalUpdate(Pending, s.pcs, i, t.pcs[i]);
    forall j | 0 <= j < |t.pcs| ensures LockOk(t.g, t.r, j, t.pcs[j]) && CountOk(t.readers, t.pcs[j]) {
      if j != i {
        assert t.pcs[j] == s.pcs[j] && t.g.pcs[j] == s.g.pcs[j] && t.r.pcs[j] == s.r.pcs[j];
        if t.readers != s.readers { OthersCount(s, i, j); }
      }
    }
  }

  // ---------------------------------------------------------------- the steps

  predicate OnR(a: Action) { a.CallRead? || a.CallTryRead? || a.SpinR? || a.LockR? || a.LeaveR? || a.RMove? }

  predicate OnG(s: State, a: Action)
    requires Enabled(s, a)
  {
    a.CallWrite? || a.CallTryWrite? || a.DropWrite? || a.FreeG? || a.GMove? || (a.Test? && s.readers <= 0)
  }

  /** The step that the lock in question takes. */
  function Inner(s: State, a: Action): M.Action
    requires Enabled(s, a)
  {
    match a
    case RMove(_, b) => b
    case GMove(_, b) => b
    case CallTryRead(i) => M.CallTryLock(i)
    case CallTryWrite(i) => M.CallTryLock(i)
    case SpinR(i) => M.CallTryLock(i)
    case DropWrite(i) => M.CallUnlock(i)
    case FreeG(i) => M.CallUnlock(i)
    case LeaveR(i) => M.CallUnlock(i)
    case Test(i) => if s.pcs[i].blocking then M.CallLock(i) else M.CallTryLock(i)
    case _ => M.CallLock(a.i)
  }

  /** What that step does, as `Mutex` promises it. */
  predicate Goes(m: M.State, b: M.Action) {
    M.Enabled(m, b) &&
    var n := M.Next(m, b);
    && b.i < |m.pcs| == |n.pcs|
    && (if M.Internal(b) then M.CallGoesOn(m, n, b.i) else M.CallBegins(m, n, b))
  }

  predicate Promise(m: M.State, b: M.Action) {
    && Goes(m, b) && (m.cnt == 0 <==> M.Tokens(m) == 0)
    && (M.Internal(b) && !Cancels(m, b) ==> M.EndsWithGuard(m, M.Next(m, b), b.i))
  }

  /** A `lock` that is leaving, or begins to leave with this step, because a check heeded the cancel. */
  predicate Cancels(m: M.State, b: M.Action) { !M.Ignoring(m, b.i) || (b.WaiterMove? && b.m.Check?) }

  lemma Promised(m: M.State, b: M.Action)
    requires M.Inv(m) && M.Enabled(m, b)
    ensures Promise(m, b) && M.Inv(M.Next(m, b)) && M.Alone(m, M.Next(m, b), b.i)
  {
    if !M.Internal(b) { M.CallStep(m, b); }
    else {
      M.InternalStep(m, b);
      if !Cancels(m, b) { M.IgnoringLockAcquires(m, b); }
    }
  }

  // ---------------------------------------------------------------- a call, seen by its caller

  datatype View =
    | NoCall
    | Reading                // read, undecided
    | Trying                 // try_read with `rlock`, undecided
    | Granted                // either, with the right to read
    | Ending                 // either, or a drop, with nothing left to do but to unlock `rlock`
    | Dropping | Writing | WriteEnding

  function Seen(p: Pc): View {
    match p
    case Idle => NoCall
    case RLocking => Reading
    case ReadTest(blocking) => if blocking then Reading else Trying
    case ReadG => Reading
    case ReadInc(_) => Granted
    case Leave(guard) => if guard then Granted else Ending
    case Exit(guard) => if guard then Granted else Ending
    case WLocking => Writing
    case WUnlocking => WriteEnding
    case _ => Dropping
  }

  /** What a call may do in one step, and how it may end. */
  predicate PlainMove(s: State, v: View, w: View, a: Action) {
    match v
    case NoCall =>
      if a.CallTryRead? then w == (if M.Tokens(s.r) == 0 then Trying else NoCall)
      else w == (if a.CallRead? then Reading else if a.CallWrite? then Writing else if a.DropRead? then Dropping
                 else if a.DropWrite? then WriteEnding else NoCall)
    // readers inside let it in; it ends without a guard only by a cancel of the lock it is waiting for
    case Reading =>
      || (w == Reading && !(a.Test? && s.readers > 0)) || w == Granted
      || (w == NoCall && a.RMove? && Cancels(s.r, a.b)) || (w == Ending && a.GMove? && Cancels(s.g, a.b))
    case Trying => w == (if s.readers > 0 || M.Tokens(s.g) == 0 then Granted else Ending)
    case Granted => w == Granted || w == NoCall
    case Ending => w == Ending || w == NoCall
    case Dropping => w == Dropping || w == Ending
    case Writing => w == Writing || w == NoCall
    case WriteEnding => w == WriteEnding || w == NoCall
  }

  /** Guards are made and given up just where the calls say so. */
  predicate PlainGuards(s: State, t: State, v: View, w: View, a: Action) {
    && t.readGuards - s.readGuards == (if v == Granted && w == NoCall then 1 else if a.DropRead? then -1 else 0)
    && (a.DropWrite? ==> t.writeGuards == s.writeGuards - 1)
    && (a.CallTryWrite? ==> t.writeGuards == s.writeGuards + (if M.Tokens(s.g) == 0 then 1 else 0))
    && (v == Writing && w == NoCall ==>
          t.writeGuards == s.writeGuards + 1 || (t.writeGuards == s.writeGuards && a.GMove? && Cancels(s.g, a.b)))
    && (t.writeGuards != s.writeGuards ==> a.DropWrite? || a.CallTryWrite? || (v == Writing && w == NoCall))
  }

  predicate Plain(s: State, t: State, a: Action)
    requires Enabled(s, a)
  {
    && a.i < |t.pcs|
    && PlainMove(s, Seen(s.pcs[a.i]), Seen(t.pcs[a.i]), a)
    && PlainGuards(s, t, Seen(s.pcs[a.i]), Seen(t.pcs[a.i]), a)
  }

  // ---------------------------------------------------------------- the steps, one lock at a time

  lemma RCallAccount(s: State, a: Action)
    requires Enabled(s, a) && OnR(a) && !a.RMove? && LockOk(s.g, s.r, a.i, s.pcs[a.i]) && Goes(s.r, Inner(s, a))
    ensures |Next(s, a).pcs| == |s.pcs| && Account(s, Next(s, a), a.i)
  {
  }

  lemma RCallPlain(s: State, a: Action)
    requires Enabled(s, a) && OnR(a) && !a.RMove? && LockOk(s.g, s.r, a.i, s.pcs[a.i]) && Promise(s.r, Inner(s, a))
    ensures Plain(s, Next(s, a), a)
  {
  }

  lemma RMoveAccount(s: State, a: Action)
    requires Enabled(s, a) && a.RMove? && LockOk(s.g, s.r, a.i, s.pcs[a.i]) && Promise(s.r, a.b)
    ensures |Next(s, a).pcs| == |s.pcs| && Account(s, Next(s, a), a.i)
  {
  }

  lemma RMovePlain(s: State, a: Action)
    requires Enabled(s, a) && a.RMove? && LockOk(s.g, s.r, a.i, s.pcs[a.i]) && Promise(s.r, a.b)
    ensures Plain(s, Next(s, a), a)
  {
  }

  lemma GCallAccount(s: State, a: Action)
    requires Enabled(s, a) && OnG(s, a) && !a.GMove? && LockOk(s.g, s.r, a.i, s.pcs[a.i]) && CountOk(s.readers, s.pcs[a.i])
    requires s.readers >= 0 && Goes(s.g, Inner(s, a))
    ensures |Next(s, a).pcs| == |s.pcs| && Account(s, Next(s, a), a.i)
  {
  }

  lemma GCallPlain(s: State, a: Action)
    requires Enabled(s, a) && OnG(s, a) && !a.GMove? && LockOk(s.g, s.r, a.i, s.pcs[a.i]) && CountOk(s.readers, s.pcs[a.i])
    requires s.readers >= 0 && Promise(s.g, Inner(s, a))
    ensures Plain(s, Next(s, a), a)
  {
  }

  lemma GMoveAccount(s: State, a: Action)
    requires Enabled(s, a) && a.GMove? && LockOk(s.g, s.r, a.i, s.pcs[a.i]) && CountOk(s.readers, s.pcs[a.i])
    requires Goes(s.g, a.b)
    ensures |Next(s, a).pcs| == |s.pcs| && Account(s, Next(s, a), a.i)
  {
  }

  lemma GMovePlain(s: State, a: Action)
    requires Enabled(s, a) && a.GMove? && LockOk(s.g, s.r, a.i, s.pcs[a.i]) && CountOk(s.readers, s.pcs[a.i])
    requires Promise(s.g, a.b)
    ensures Plain(s, Next(s, a), a)
  {
  }

  lemma LocalAccount(s: State, a: Action)
    requires Enabled(s, a) && !OnR(a) && !OnG(s, a) && LockOk(s.g, s.r, a.i, s.pcs[a.i]) && CountOk(s.readers, s.pcs[a.i])
    requires s.readers >= Pending(s.pcs[a.i])
    ensures |Next(s, a).pcs| == |s.pcs| && Account(s, Next(s, a), a.i) && Plain(s, Next(s, a), a)
    ensures Next(s, a).g == s.g && Next(s, a).r == s.r
  {
  }

  /** Both locks in order and the thread that moves in its place. */
  ghost predicate Ready(s: State, i: nat) {
    && M.Inv(s.g) && M.Inv(s.r) && |s.g.pcs| == |s.r.pcs| == |s.pcs| && i < |s.pcs|
    && LockOk(s.g, s.r, i, s.pcs[i]) && CountOk(s.readers, s.pcs[i]) && s.readers >= Pending(s.pcs[i])
  }

  lemma InnerR(s: State, a: Action)
    requires Enabled(s, a) && OnR(a) && LockOk(s.g, s.r, a.i, s.pcs[a.i])
    ensures var b := Inner(s, a); b.i == a.i && M.Enabled(s.r, b) && Next(s, a).g == s.g && Next(s, a).r == M.Next(s.r, b)
    ensures a.RMove? && s.pcs[a.i].DropLocking? ==> M.Ignoring(s.r, a.i) && !(a.b.WaiterMove? && a.b.m.Check?)
  {
  }

  lemma InnerG(s: State, a: Action)
    requires Enabled(s, a) && OnG(s, a)
    ensures var b := Inner(s, a); b.i == a.i && M.Enabled(s.g, b) && Next(s, a).r == s.r && Next(s, a).g == M.Next(s.g, b)
  {
  }

  lemma Unmoved(m: M.State, i: nat)
    requires i < |m.pcs|
    ensures M.Alone(m, m, i)
  {
  }

  lemma RLocks(s: State, a: Action)
    requires Ready(s, a.i) && Enabled(s, a) && OnR(a)
    ensures LocksKept(s, Next(s, a), a.i) && Promise(s.r, Inner(s, a))
  {
    InnerR(s, a);
    Unmoved(s.g, a.i);
    Promised(s.r, Inner(s, a));
  }

  lemma GLocks(s: State, a: Action)
    requires Ready(s, a.i) && Enabled(s, a) && OnG(s, a)
    ensures LocksKept(s, Next(s, a), a.i) && Promise(s.g, Inner(s, a))
  {
    InnerG(s, a);
    Unmoved(s.r, a.i);
    Promised(s.g, Inner(s, a));
  }

  lemma StepR(s: State, a: Action)
    requires Ready(s, a.i) && Enabled(s, a) && OnR(a)
    ensures |Next(s, a).pcs| == |s.pcs| && Account(s, Next(s, a), a.i) && Plain(s, Next(s, a), a)
    ensures LocksKept(s, Next(s, a), a.i)
  {
    RLocks(s, a);
    if a.RMove? {
      RMoveAccount(s, a);
      RMovePlain(s, a);
    } else {
      RCallAccount(s, a);
      RCallPlain(s, a);
    }
  }

  lemma StepG(s: State, a: Action)
    requires Ready(s, a.i) && Enabled(s, a) && OnG(s, a)
    ensures |Next(s, a).pcs| == |s.pcs| && Account(s, Next(s, a), a.i) && Plain(s, Next(s, a), a)
    ensures LocksKept(s, Next(s, a), a.i)
  {
    GLocks(s, a);
    if a.GMove? {
      GMoveAccount(s, a);
      GMovePlain(s, a);
    } else {
      GCallAccount(s, a);
      GCallPlain(s, a);
    }
  }

  lemma OwnStep(s: State, a: Action)
    requires Ready(s, a.i) && Enabled(s, a)
    ensures |Next(s, a).pcs| == |s.pcs| && Account(s, Next(s, a), a.i) && Plain(s, Next(s, a), a)
    ensures LocksKept(s, Next(s, a), a.i)
  {
    if OnR(a) { StepR(s, a); } else if OnG(s, a) { StepG(s, a); } else { LocalAccount(s, a); }
  }

  lemma InvStep(s: State, a: Action)
    requires Inv(s) && Enabled(s, a)
    ensures Inv(Next(s, a)) && Plain(s, Next(s, a), a)
  {
    assert LockOk(s.g, s.r, a.i, s.pcs[a.i]) && CountOk(s.readers, s.pcs[a.i]);
    TotalAtLeast(Pending, s.pcs, a.i);
    OwnStep(s, a);
    StepKeeps(s, Next(s, a), a.i);
  }

  // ---------------------------------------------------------------- every run

  ghost predicate Initial(s: State) { exists threads: nat :: s == Start(threads) }

  ghost predicate Step(s: State, t: State) { exists a: Action :: Enabled(s, a) && t == Next(s, a) }

  ghost predicate Reachable(s: State) { Reached(Initial, Step, s) }

  lemma ReachableInv(s: State)
    requires Reachable(s)
    ensures Inv(s)
  {
    forall s0 | Initial(s0) ensures Inv(s0) {
      var threads: nat :| s0 == Start(threads);
      StartInv(threads);
    }
    forall s1, s2 | Inv(s1) && Step(s1, s2) ensures Inv(s2) {
      var a: Action :| Enabled(s1, a) && s2 == Next(s1, a);
      InvStep(s1, a);
    }
    InvariantHolds(Initial, Step, Inv, s);
  }

  /**
   * Seen by its callers the machine is a plain reader-writer lock. A `read` that finds readers inside gets
   * its guard; a `try_read` with `rlock` is refused only if there are none and the global lock's token is
   * somewhere; a blocking call ends without a guard only by a cancel of its own lock; and guards are made
   * and given up nowhere else.
   */
  lemma RefinesPlainRwLock(s: State, a: Action)
    requires Reachable(s) && Enabled(s, a)
    ensures Plain(s, Next(s, a), a)
  {
    ReachableInv(s);
    InvStep(s, a);
  }

  /** A write guard is the global lock's one guard, and excludes every other guard. */
  lemma WriterExcludes(s: State)
    requires Reachable(s)
    ensures s.writeGuards <= 1
    ensures s.writeGuards == 1 ==> s.readGuards == 0 && s.readers == 0 && s.g.guards == 1 && s.g.cnt > 0
  {
    ReachableInv(s);
    M.AtMostOneGuard(s.g);
  }

  /**
   * The reader count is the number of live read guards plus the calls between guard and count; while
   * nobody is inside such a call, the global lock's guard exists exactly for a writer or for the readers.
   */
  lemma ReaderCountIsExact(s: State)
    requires Reachable(s)
    ensures s.readers == s.readGuards + Total(Pending, s.pcs)
    ensures (forall i :: 0 <= i < |s.pcs| ==> s.pcs[i].Idle? || s.pcs[i].WLocking? || s.pcs[i].WUnlocking?) ==>
              s.readers == s.readGuards && s.g.guards == s.writeGuards + One(s.readGuards > 0)
  {
    ReachableInv(s);
    if forall i :: 0 <= i < |s.pcs| ==> s.pcs[i].Idle? || s.pcs[i].WLocking? || s.pcs[i].WUnlocking? { NobodyReads(s.pcs); }
  }

  lemma NobodyReads(pcs: seq<Pc>)
    requires forall i :: 0 <= i < |pcs| ==> pcs[i].Idle? || pcs[i].WLocking? || pcs[i].WUnlocking?
    ensures Total(Pending, pcs) == 0 && Total(HasG, pcs) == 0
  {
    TotalZero(Pending, pcs);
    TotalZero(HasG, pcs);
  }

  /**
   * A reader waits for the global lock only while no read guard exists and none is being
   * dropped: so whoever drops a read guard never finds `rlock` held by a parked thread.
   */
  lemma NoReaderParksOverGuards(s: State, i: nat, j: nat)
    requires Reachable(s) && i < |s.pcs| && s.pcs[i].ReadG?
    ensures s.readGuards == 0
    ensures j < |s.pcs| ==> !s.pcs[j].DropWant? && !s.pcs[j].DropLocking? && !s.pcs[j].DropDec?
  {
    ReachableInv(s);
    assert CountOk(s.readers, s.pcs[i]);
    if j < |s.pcs| { TotalAtLeast(Pending, s.pcs, j); }
  }

  /** The reader count is never decremented below zero. */
  lemma CountNeverUnderflows(s: State, i: nat)
    requires Reachable(s)
    ensures s.readers >= 0 && (i < |s.pcs| && s.pcs[i].DropDec? ==> s.readers > 0)
  {
    ReachableInv(s);
    if i < |s.pcs| { TotalAtLeast(Pending, s.pcs, i); }
  }

  // ---------------------------------------------------------------- progress and rest

  /** Parked inside `rlock` or inside the global lock. */
  predicate Asleep(s: State, i: nat) {
    i < |s.pcs| && i < |s.g.pcs| && i < |s.r.pcs| &&
    ((s.r.pcs[i].InWait? && Parked(s.r.wl, i)) || (s.g.pcs[i].InWait? && Parked(s.g.wl, i)))
  }

  lemma RCanMove(s: State, i: nat)
    requires Inv(s) && i < |s.pcs| && InR(s.pcs[i]) && !Asleep(s, i)
    ensures exists a: Action :: a.i == i && Enabled(s, a)
  {
    assert LockOk(s.g, s.r, i, s.pcs[i]);
    M.CanMove(s.r, i, s.pcs[i].DropLocking?);
    var b: M.Action :| b.i == i && M.Enabled(s.r, b) && M.Internal(b)
                       && (s.pcs[i].DropLocking? ==> b.WaiterMove? ==> !b.m.Check?);
    assert Enabled(s, RMove(i, b));
  }

  lemma GCanMove(s: State, i: nat)
    requires Inv(s) && i < |s.pcs| && InG(s.pcs[i]) && !Asleep(s, i)
    ensures exists a: Action :: a.i == i && Enabled(s, a)
  {
    assert LockOk(s.g, s.r, i, s.pcs[i]);
    M.CanMove(s.g, i, false);
    var b: M.Action :| b.i == i && M.Enabled(s.g, b) && M.Internal(b) && (b.WaiterMove? ==> !b.m.CheckIgnoring?);
    assert Enabled(s, GMove(i, b));
  }

  /** A thread inside a call can always take a step, unless it is parked in one of the two locks. */
  lemma NeverBlocked(s: State, i: nat)
    requires Reachable(s) && i < |s.pcs| && !s.pcs[i].Idle? && !Asleep(s, i)
    ensures exists a: Action :: a.i == i && Enabled(s, a)
  {
    ReachableInv(s);
    if InR(s.pcs[i]) { RCanMove(s, i); }
    else if InG(s.pcs[i]) { GCanMove(s, i); }
    else { OutsideCanMove(s, i); }
  }

  lemma OutsideCanMove(s: State, i: nat)
    requires Inv(s) && i < |s.pcs| && !s.pcs[i].Idle? && !InR(s.pcs[i]) && !InG(s.pcs[i])
    ensures exists a: Action :: a.i == i && Enabled(s, a)
  {
    assert LockOk(s.g, s.r, i, s.pcs[i]);
    TotalAtLeast(HasR, s.pcs, i);
    TotalAtLeast(HasG, s.pcs, i);
    match s.pcs[i]
    case ReadTest(_) => assert Enabled(s, Test(i));
    case ReadInc(_) => assert Enabled(s, Inc(i));
    case Leave(_) => assert Enabled(s, LeaveR(i));
    case DropWant => assert Enabled(s, LockR(i));
    case DropDec => assert Enabled(s, Dec(i));
    case DropFree => assert Enabled(s, FreeG(i));
  }

  /** A thread that has `rlock` and is asleep is the first reader, in the global lock. */
  lemma SleepingHolder(s: State)
    requires Inv(s) && (forall i :: 0 <= i < |s.pcs| ==> s.pcs[i].Idle? || Asleep(s, i)) && s.r.guards == 1
    ensures exists i :: 0 <= i < |s.pcs| && s.pcs[i].ReadG?
  {
    if forall i :: 0 <= i < |s.pcs| ==> !s.pcs[i].ReadG? {
      forall i | 0 <= i < |s.pcs| ensures HasR(s.pcs[i]) == 0 {
        assert LockOk(s.g, s.r, i, s.pcs[i]);
      }
      TotalZero(HasR, s.pcs);
    }
  }

  lemma LocksAtRest(s: State)
    requires Inv(s) && forall i :: 0 <= i < |s.pcs| ==> s.pcs[i].Idle? || Asleep(s, i)
    ensures (exists i :: 0 <= i < |s.pcs| && InR(s.pcs[i])) ==> s.r.guards == 1
    ensures (exists i :: 0 <= i < |s.pcs| && InG(s.pcs[i])) ==> s.g.guards == 1
  {
    forall i | 0 <= i < |s.pcs|
      ensures s.r.pcs[i].Idle? || (s.r.pcs[i].InWait? && Parked(s.r.wl, i))
      ensures s.g.pcs[i].Idle? || (s.g.pcs[i].InWait? && Parked(s.g.wl, i))
      ensures (InR(s.pcs[i]) ==> !s.r.pcs[i].Idle?) && (InG(s.pcs[i]) ==> !s.g.pcs[i].Idle?)
    {
      assert LockOk(s.g, s.r, i, s.pcs[i]);
    }
    M.Restful(s.r);
    M.Restful(s.g);
  }

  /** Once everybody is idle or parked, somebody parked means that a guard is live. */
  lemma SomebodyParkedMeansGuard(s: State, i: nat)
    requires Reachable(s) && forall j :: 0 <= j < |s.pcs| ==> s.pcs[j].Idle? || Asleep(s, j)
    requires i < |s.pcs| && !s.pcs[i].Idle?
    ensures s.readGuards > 0 || s.writeGuards > 0
  {
    ReachableInv(s);
    LocksAtRest(s);
    assert LockOk(s.g, s.r, i, s.pcs[i]);
    if s.r.guards == 1 {
      SleepingHolder(s);
      var h :| 0 <= h < |s.pcs| && s.pcs[h].ReadG?;
      assert CountOk(s.readers, s.pcs[h]) && InG(s.pcs[h]);
    } else {
      NobodyInR(s);
    }
    RestfulBalance(s);
  }

  lemma NobodyInR(s: State)
    requires Inv(s) && (forall j :: 0 <= j < |s.pcs| ==> s.pcs[j].Idle? || Asleep(s, j)) && s.r.guards != 1
    ensures Total(Pending, s.pcs) == 0
  {
    LocksAtRest(s);
    forall j | 0 <= j < |s.pcs| ensures Pending(s.pcs[j]) == 0 {
      assert LockOk(s.g, s.r, j, s.pcs[j]);
      assert !InR(s.pcs[j]);
    }
    TotalZero(Pending, s.pcs);
  }

  lemma RestfulBalance(s: State)
    requires Inv(s) && forall j :: 0 <= j < |s.pcs| ==> s.pcs[j].Idle? || Asleep(s, j)
    ensures s.g.guards == s.writeGuards + One(s.readers > 0)
  {
    forall j | 0 <= j < |s.pcs| ensures HasG(s.pcs[j]) == 0 {
      assert LockOk(s.g, s.r, j, s.pcs[j]);
    }
    TotalZero(HasG, s.pcs);
  }
}
