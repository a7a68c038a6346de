/**
 * `Park` of src/park.rs with one coroutine, the kernel that subscribes it, its timers, and any
 * number of threads that unpark or cancel it, as a step machine with one step per atomic access.
 */
module Park {
  import opened Counting
  import opened Traces

  datatype Co =
    | Running
    | Load(first: bool)       // check_park, before the yield or after it: about to load `state`
    | Clear(first: bool)      // found it set, about to clear it
    | Swap(first: bool)       // found it clear, about to swap
    | WaitKernel              // waiting for the previous kernel to finish
    | YieldCheck              // about to look for a cancel before yielding
    | Yielding                // given to the kernel
    | InSlot                  // in `wait_co`
    | Taken                   // taken out by somebody who resumes it
    | Disarm                  // about to give up its timer

  datatype Kernel =
    | Off | Arm | Guarding | Storing | Recheck | FastTake | SetReg | CancelCheck | Canceling | SlotTake | Unguard

  datatype Pc =
    | Idle
    | Waking                  // set the token, about to take from the slot
    | TakeReg                 // cancel: set the flag, about to take the registered slot
    | TakeSlot                // cancel: has the slot, about to take from it

  /**
   * `dur` is the timeout of the park, 0 for none; `mine` says that the timer of this suspension is armed,
   * `deadline` when it is due and `stored` when the coroutine went into the slot; `stale` counts the
   * timers of earlier suspensions.
   */
  datatype Timers = Timers(clock: nat, dur: nat, mine: bool, deadline: nat, stored: nat, stale: nat)

  /** `err` is the error a resume leaves for the coroutine; `oks` counts the parks that returned `Ok`. */
  datatype Calls = Calls(err: bool, oks: nat, unparks: nat)

  /**
   * History of the calls: how many parks began, the timeout the last one asked for, and of it how it ended so
   * far. `asked` says that somebody called `unpark` since a park last returned, `fired` that a timer fired since
   * the last park began, `armed` when its timer was armed; `errs` counts the parks that returned an error,
   * `arms` the timers that were armed and `spent` those that fired or were deleted.
   */
  datatype Past = Past(
    parks: nat, want: nat, asked: bool, fired: bool, armed: nat, errs: nat, arms: nat, spent: nat)

  /** `suspended` and `taken` count the stores into the slot and the takes that found something. */
  datatype State = State(
    token: bool, reg: bool, canceled: bool, guarded: bool, tm: Timers, calls: Calls, co: Co, k: Kernel, pcs: seq<Pc>,
    suspended: nat, taken: nat, past: Past)

  datatype Action =
    | ParkCall(dur: nat) | CoStep | KernelStep | Tick | Fire | FireStale | Forget
    | Unpark(i: nat) | Cancel(i: nat) | Party(i: nat)

  function Start(threads: nat): State {
    State(false, false, false, false, Timers(0, 0, false, 0, 0, 0), Calls(false, 0, 0), Running, Off,
          seq(threads, _ => Idle), 0, 0, Past(0, 0, false, false, 0, 0, 0, 0))
  }

  predicate Enabled(s: State, a: Action) {
    match a
    case ParkCall(_) => s.co.Running?
    case CoStep => !s.co.Running? && !s.co.Yielding? && !s.co.InSlot? && (s.co.WaitKernel? ==> !s.guarded)
    case KernelStep => !s.k.Off?
    case Tick => true
    case Fire => s.tm.mine && s.tm.deadline <= s.tm.clock
    case FireStale => s.tm.stale > 0
    case Forget => s.tm.stale > 0
    case Unpark(i) => i < |s.pcs| && s.pcs[i].Idle?
    case Cancel(i) => i < |s.pcs| && s.pcs[i].Idle?
    case Party(i) => i < |s.pcs| && !s.pcs[i].Idle?
  }

  /** `wait_co.take()`: whoever finds the coroutine there resumes it, a timer or a canceler with an error. */
  function Take(s: State, err: bool): State {
    if s.co.InSlot? then s.(co := Taken, taken := s.taken + 1, calls := s.calls.(err := err)) else s
  }

  function ReturnOk(c: Calls): Calls { c.(oks := c.oks + 1) }

  function CoNext(s: State): State {
    match s.co
    case Load(first) => s.(co := if s.token then Clear(first) else Swap(first))
    case Clear(first) =>
      s.(token := false, co := if first then Running else Disarm, calls := if first then ReturnOk(s.calls) else s.calls)
    case Swap(first) =>
      s.(token := false, co := if !first then Disarm else if s.token then Running else WaitKernel,
         calls := if first && s.token then ReturnOk(s.calls) else s.calls)
    case WaitKernel => s.(co := YieldCheck)
    case YieldCheck =>
      if s.canceled then s.(co := Load(false), calls := s.calls.(err := true)) else s.(co := Yielding, k := Arm)
    case Taken => s.(co := Load(false))
    case Disarm =>
      s.(co := Running, tm := s.tm.(mine := false, stale := if s.tm.mine then s.tm.stale + 1 else s.tm.stale),
         calls := if s.calls.err then s.calls.(err := false) else ReturnOk(s.calls))
    case _ => s
  }

  function KernelNext(s: State): State {
    match s.k
    case Off => s
    case Arm => s.(k := Guarding, tm := s.tm.(mine := s.tm.dur > 0, deadline := s.tm.clock + s.tm.dur))
    case Guarding => s.(k := Storing, guarded := true)
    case Storing => s.(k := Recheck, co := InSlot, suspended := s.suspended + 1, tm := s.tm.(stored := s.tm.clock))
    case Recheck => s.(k := if s.token then FastTake else SetReg)
    case FastTake => Take(s, false).(k := Unguard)
    case SetReg => s.(k := CancelCheck, reg := true)
    case CancelCheck => s.(k := if s.canceled then Canceling else Unguard)
    case Canceling => s.(k := if s.reg then SlotTake else Unguard, reg := false)
    case SlotTake => Take(s, true).(k := Unguard)
    case Unguard => s.(k := Off, guarded := false)
  }

  function PartyNext(s: State, i: nat): State
    requires i < |s.pcs|
  {
    match s.pcs[i]
    case Idle => s
    case Waking => Take(s, false).(pcs := s.pcs[i := Idle])
    case TakeReg => s.(reg := false, pcs := s.pcs[i := if s.reg then TakeSlot else Idle])
    case TakeSlot => Take(s, true).(pcs := s.pcs[i := Idle])
  }

  function Move(s: State, a: Action): State
    requires Enabled(s, a)
  {
    match a
    case ParkCall(dur) => s.(co := Load(true), tm := s.tm.(dur := dur), calls := s.calls.(err := false))
    case CoStep => CoNext(s)
    case KernelStep => KernelNext(s)
    case Tick => s.(tm := s.tm.(clock := s.tm.clock + 1))
    case Fire => Take(s, true).(tm := s.tm.(mine := false))
    case FireStale => Take(s, true).(tm := s.tm.(stale := s.tm.stale - 1))
    case Forget => s.(tm := s.tm.(stale := s.tm.stale - 1))
    case Unpark(i) =>
      s.(token := true, pcs := s.pcs[i := if s.token then Idle else Waking], calls := s.calls.(unparks := s.calls.unparks + 1))
    case Cancel(i) => s.(canceled := true, pcs := s.pcs[i := TakeReg])
    case Party(i) => PartyNext(s, i)
  }

  predicate Returns(s: State, t: State) { !s.co.Running? && t.co.Running? }

  /** What the step `a` from `s` to `t` adds to the history. */
  function Record(s: State, a: Action, t: State): Past {
    Past(if a.ParkCall? then s.past.parks + 1 else s.past.parks,
         if a.ParkCall? then a.dur else s.past.want,
         (a.Unpark? || s.past.asked) && !Returns(s, t),
         (a.Fire? || a.FireStale? || s.past.fired) && !a.ParkCall?,
         if a.KernelStep? && s.k.Arm? then s.tm.clock else s.past.armed,
         if Returns(s, t) && t.calls.oks == s.calls.oks then s.past.errs + 1 else s.past.errs,
         if a.KernelStep? && s.k.Arm? && s.past.want > 0 then s.past.arms + 1 else s.past.arms,
         if a.Fire? || a.FireStale? || a.Forget? then s.past.spent + 1 else s.past.spent)
  }

  function Next(s: State, a: Action): State
    requires Enabled(s, a)
  {
    Move(s, a).(past := Record(s, a, Move(s, a)))
  }

  // ---------------------------------------------------------------- the invariant

  function Wakers(p: Pc): nat { if p.Waking? then 1 else 0 }

  function RegTakers(p: Pc): nat { if p.TakeReg? then 1 else 0 }

  function SlotTakers(p: Pc): nat { if p.TakeSlot? then 1 else 0 }

  predicate BeforeStore(k: Kernel) { k.Arm? || k.Guarding? || k.Storing? }

  /** One kernel at a time, one coroutine in one place, and every store met by one take. */
  predicate Single(s: State) {
    && s.suspended == s.taken + (if s.co.InSlot? then 1 else 0)
    && (s.co.Yielding? <==> BeforeStore(s.k))
    && (s.guarded <==> !s.k.Off? && !s.k.Arm? && !s.k.Guarding?)
    && (s.co.YieldCheck? ==> s.k.Off?)
  }

  predicate WakeDue(s: State) { s.k.Recheck? || s.k.FastTake? || Total(Wakers, s.pcs) > 0 }

  predicate TokenInv(s: State) { s.token && s.co.InSlot? ==> WakeDue(s) }

  predicate Registered(k: Kernel) { k.CancelCheck? || k.Canceling? || k.Unguard? || k.Off? }

  predicate CancelInv(s: State) {
    && (!s.canceled ==> Total(RegTakers, s.pcs) == 0 && Total(SlotTakers, s.pcs) == 0 && !s.k.Canceling? && !s.k.SlotTake?)
    && (s.co.InSlot? && Registered(s.k) && !s.reg ==> Total(SlotTakers, s.pcs) > 0)
    && (s.co.InSlot? && (s.k.Unguard? || s.k.Off?) && s.canceled && s.reg ==> Total(RegTakers, s.pcs) > 0)
  }

  /** A timer that is not due yet is armed, and a store before the deadline keeps it. */
  predicate TimerInv(s: State) {
    && ((s.k.Guarding? || s.k.Storing?) && s.tm.dur > 0 && s.tm.clock < s.tm.deadline ==> s.tm.mine)
    && (s.co.InSlot? && s.tm.dur > 0 && s.tm.stored < s.tm.deadline ==> s.tm.mine)
  }

  /** On the way back from the yield. */
  predicate Resumed(co: Co) { co.Taken? || ((co.Load? || co.Clear? || co.Swap?) && !co.first) || co.Disarm? }

  /** Resumed, with the token still to be cleared. */
  predicate ToClear(co: Co) { Resumed(co) && !co.Disarm? }

  /** The parks that can still return `Ok`: by the token, by a party about to take, and by the resume under way. */
  function OksToCome(wakers: nat, token: bool, co: Co, err: bool): nat {
    wakers + (if token && !ToClear(co) then 1 else 0) + (if Resumed(co) && !err then 1 else 0)
  }

  /** An unpark is good for two: its token, and the take it goes on to. */
  predicate Balanced(wakers: nat, token: bool, co: Co, k: Kernel, calls: Calls) {
    && (co.Clear? || (co.InSlot? && k.FastTake?) ==> token)
    && calls.oks + OksToCome(wakers, token, co, calls.err) <= 2 * calls.unparks
  }

  predicate OkInv(s: State) { Balanced(Total(Wakers, s.pcs), s.token, s.co, s.k, s.calls) }

  /** An unpark since the last return is remembered by the token, until a resumed park clears it on its way to return. */
  predicate AskedInv(s: State) { s.past.asked && !Resumed(s.co) ==> s.token }

  /** An error comes from a cancel or a timer. */
  predicate ErrInv(s: State) { Resumed(s.co) && s.calls.err ==> s.canceled || s.past.fired }

  /** The timer of a suspension is due when the park asked for, counted from when it was armed. */
  predicate DueInv(s: State) {
    && (!s.co.Running? ==> s.tm.dur == s.past.want)
    && (s.k.Guarding? || s.k.Storing? || s.co.InSlot? ==> s.tm.deadline == s.past.armed + s.past.want)
  }

  /** Every park that began returned once, or is under way. */
  predicate ReturnInv(s: State) {
    s.past.parks == s.calls.oks + s.past.errs + (if s.co.Running? then 0 else 1)
  }

  /** Out of a park, or in one whose timer is not armed yet. */
  predicate Unarmed(co: Co, k: Kernel) {
    || co.Running? || ((co.Load? || co.Clear? || co.Swap?) && co.first) || co.WaitKernel? || co.YieldCheck? || k.Arm?
  }

  /** Every timer that was armed fired, was deleted, or can still fire, the last one as that of its park. */
  predicate ArmInv(s: State) {
    && s.past.arms == s.past.spent + s.tm.stale + (if s.tm.mine then 1 else 0)
    && (Unarmed(s.co, s.k) ==> !s.tm.mine)
  }

  predicate PastInv(s: State) { AskedInv(s) && ErrInv(s) && DueInv(s) && ReturnInv(s) && ArmInv(s) }

  predicate Core(s: State) { Single(s) && TokenInv(s) && CancelInv(s) && TimerInv(s) }

  predicate Inv(s: State) { Core(s) && OkInv(s) && PastInv(s) }

  lemma StartInv(threads: nat)
    ensures Inv(Start(threads))
  {
    TotalZero(Wakers, Start(threads).pcs);
    TotalZero(RegTakers, Start(threads).pcs);
    TotalZero(SlotTakers, Start(threads).pcs);
  }

  lemma CoSingle(s: State, a: Action)
    requires Single(s) && Enabled(s, a) && (a.ParkCall? || a.CoStep?)
    ensures Single(Move(s, a)) && !Move(s, a).co.InSlot?
    ensures Move(s, a).k == s.k || Move(s, a).k == Arm
  {
  }

  lemma CoKeeps(s: State, a: Action)
    requires Core(s) && Enabled(s, a) && (a.ParkCall? || a.CoStep?)
    ensures Core(Move(s, a))
  {
    CoSingle(s, a);
  }

  lemma KernelCancel(s: State)
    requires Single(s) && CancelInv(s) && !s.k.Off?
    ensures CancelInv(KernelNext(s))
  {
  }

  lemma SubscribeSingle(s: State)
    requires Single(s) && (BeforeStore(s.k) || s.k.Recheck? || s.k.FastTake?)
    ensures Single(KernelNext(s))
  {
  }

  lemma RegisterSingle(s: State)
    requires Single(s) && !s.k.Off? && !BeforeStore(s.k) && !s.k.Recheck? && !s.k.FastTake?
    ensures Single(KernelNext(s))
  {
  }

  lemma KernelToken(s: State)
    requires Single(s) && TokenInv(s) && !s.k.Off?
    ensures TokenInv(KernelNext(s))
  {
  }

  lemma KernelTimer(s: State)
    requires Single(s) && TimerInv(s) && !s.k.Off?
    ensures TimerInv(KernelNext(s))
  {
  }

  lemma TimerKeeps(s: State, a: Action)
    requires Core(s) && Enabled(s, a) && (a.Tick? || a.Fire? || a.FireStale? || a.Forget?)
    ensures Core(Move(s, a))
  {
  }

  lemma PartyTotals(s: State, a: Action, w: Pc -> nat)
    requires Enabled(s, a) && (a.Unpark? || a.Cancel? || a.Party?)
    ensures |Move(s, a).pcs| == |s.pcs|
    ensures Total(w, Move(s, a).pcs) + w(s.pcs[a.i]) == Total(w, s.pcs) + w(Move(s, a).pcs[a.i])
  {
    TotalUpdate(w, s.pcs, a.i, Move(s, a).pcs[a.i]);
    assert Move(s, a).pcs == s.pcs[a.i := Move(s, a).pcs[a.i]];
  }

  predicate ByParty(a: Action) { a.Unpark? || a.Cancel? || a.Party? }

  lemma PartySingle(s: State, a: Action)
    requires Single(s) && TimerInv(s) && Enabled(s, a) && ByParty(a)
    ensures Single(Move(s, a)) && TimerInv(Move(s, a))
  {
  }

  lemma PartyToken(s: State, a: Action)
    requires TokenInv(s) && Enabled(s, a) && ByParty(a)
    ensures TokenInv(Move(s, a))
  {
    PartyTotals(s, a, Wakers);
  }

  lemma PartyCancel(s: State, a: Action)
    requires CancelInv(s) && Enabled(s, a) && ByParty(a)
    ensures CancelInv(Move(s, a))
  {
    PartyTotals(s, a, RegTakers);
    PartyTotals(s, a, SlotTakers);
  }

  lemma CoreStep(s: State, a: Action)
    requires Core(s) && Enabled(s, a)
    ensures Core(Move(s, a))
  {
    match a
    case ParkCall(_) => CoKeeps(s, a);
    case CoStep => CoKeeps(s, a);
    case KernelStep =>
      KernelToken(s);
      KernelTimer(s);
      KernelCancel(s);
      if BeforeStore(s.k) || s.k.Recheck? || s.k.FastTake? { SubscribeSingle(s); } else { RegisterSingle(s); }
    case _ =>
      if ByParty(a) {
        PartySingle(s, a);
        PartyToken(s, a);
        PartyCancel(s, a);
      } else {
        TimerKeeps(s, a);
      }
  }

  lemma OkParty(s: State, a: Action)
    requires OkInv(s) && Enabled(s, a) && ByParty(a)
    ensures OkInv(Move(s, a))
  {
    PartyTotals(s, a, Wakers);
    TotalAtLeast(Wakers, s.pcs, a.i);
    OkPartyMove(s, a, Total(Wakers, s.pcs) - Wakers(s.pcs[a.i]));
  }

  /** A waker is done, whether it found the coroutine or not. */
  lemma OkWaked(s: State, others: nat)
    requires Balanced(others + 1, s.token, s.co, s.k, s.calls)
    ensures var t := Take(s, false); Balanced(others, t.token, t.co, t.k, t.calls)
  {
  }

  lemma OkUnpark(s: State, i: nat, others: nat)
    requires Enabled(s, Unpark(i)) && Balanced(others, s.token, s.co, s.k, s.calls)
    ensures var t := Move(s, Unpark(i)); i < |t.pcs| && Balanced(others + Wakers(t.pcs[i]), t.token, t.co, t.k, t.calls)
  {
  }

  lemma OkCancel(s: State, i: nat, others: nat)
    requires Enabled(s, Cancel(i)) && Balanced(others, s.token, s.co, s.k, s.calls)
    ensures var t := Move(s, Cancel(i)); i < |t.pcs| && Balanced(others + Wakers(t.pcs[i]), t.token, t.co, t.k, t.calls)
  {
  }

  lemma OkTakes(s: State, i: nat, others: nat)
    requires Enabled(s, Party(i)) && Balanced(others + Wakers(s.pcs[i]), s.token, s.co, s.k, s.calls)
    ensures var t := Move(s, Party(i)); i < |t.pcs| && Balanced(others + Wakers(t.pcs[i]), t.token, t.co, t.k, t.calls)
  {
    if s.pcs[i].Waking? { OkWaked(s, others); }
    else if s.pcs[i].TakeSlot? { OkTake(s, true, others); }
  }

  /** `others` are the wakers but the one that moves. */
  lemma OkPartyMove(s: State, a: Action, others: nat)
    requires Enabled(s, a) && ByParty(a) && a.i < |Move(s, a).pcs|
    requires Balanced(others + Wakers(s.pcs[a.i]), s.token, s.co, s.k, s.calls)
    ensures var t := Move(s, a); Balanced(others + Wakers(t.pcs[a.i]), t.token, t.co, t.k, t.calls)
  {
    match a
    case Unpark(i) => OkUnpark(s, i, others);
    case Cancel(i) => OkCancel(s, i, others);
    case Party(i) => OkTakes(s, i, others);
  }

  /** A take with an error, or by somebody whose take is counted: a waker, or the kernel, which saw the token. */
  lemma OkTake(s: State, err: bool, wakers: nat)
    requires Balanced(wakers, s.token, s.co, s.k, s.calls)
    requires err || s.token || !s.co.InSlot?
    ensures var t := Take(s, err); Balanced(wakers, t.token, t.co, t.k, t.calls)
  {
  }

  lemma OkKernel(s: State, wakers: nat)
    requires Balanced(wakers, s.token, s.co, s.k, s.calls) && Single(s) && !s.k.Off?
    ensures var t := KernelNext(s); t.pcs == s.pcs && Balanced(wakers, t.token, t.co, t.k, t.calls)
  {
    if s.k.FastTake? || s.k.SlotTake? { OkTake(s, s.k.SlotTake?, wakers); }
  }

  lemma OkCo(s: State, wakers: nat)
    requires Balanced(wakers, s.token, s.co, s.k, s.calls) && Single(s) && Enabled(s, CoStep)
    ensures var t := CoNext(s); t.pcs == s.pcs && Balanced(wakers, t.token, t.co, t.k, t.calls)
  {
    if s.co.Load? || s.co.Clear? || s.co.Swap? { OkCheck(s, wakers); }
  }

  /** `check_park`: before the yield it may return on the token, after it only clears it. */
  lemma OkCheck(s: State, wakers: nat)
    requires Balanced(wakers, s.token, s.co, s.k, s.calls) && (s.co.Load? || s.co.Clear? || s.co.Swap?)
    ensures var t := CoNext(s); t.pcs == s.pcs && Balanced(wakers, t.token, t.co, t.k, t.calls)
  {
  }

  lemma OkTimer(s: State, a: Action)
    requires OkInv(s) && Enabled(s, a) && (a.ParkCall? || a.Tick? || a.Fire? || a.FireStale? || a.Forget?)
    ensures OkInv(Move(s, a))
  {
    assert Move(s, a).pcs == s.pcs && Move(s, a).calls.unparks == s.calls.unparks;
  }

  lemma OkStep(s: State, a: Action)
    requires OkInv(s) && Single(s) && Enabled(s, a)
    ensures OkInv(Move(s, a))
  {
    if ByParty(a) { OkParty(s, a); }
    else if a.KernelStep? { OkKernel(s, Total(Wakers, s.pcs)); }
    else if a.CoStep? { OkCo(s, Total(Wakers, s.pcs)); }
    else { OkTimer(s, a); }
  }

  /** A step of the coroutine, in five parts of what its history is. */
  lemma AskedCo(s: State, a: Action)
    requires AskedInv(s) && OkInv(s) && Enabled(s, a) && (a.CoStep? || a.ParkCall?)
    ensures var t := Move(s, a); s.past.asked && !Returns(s, t) && !Resumed(t.co) ==> t.token
  {
  }

  lemma ErrCo(s: State, a: Action)
    requires ErrInv(s) && Enabled(s, a) && (a.CoStep? || a.ParkCall?)
    ensures var t := Move(s, a); Resumed(t.co) && t.calls.err ==> t.canceled || (s.past.fired && !a.ParkCall?)
  {
  }

  lemma ReturnCo(s: State, a: Action)
    requires Enabled(s, a) && (a.CoStep? || a.ParkCall?)
    ensures var t := Move(s, a);
            && (a.CoStep? ==> !s.co.Running?) && (a.ParkCall? ==> s.co.Running? && !t.co.Running?)
            && t.calls.oks == s.calls.oks + (if Returns(s, t) && t.calls.oks != s.calls.oks then 1 else 0)
  {
  }

  lemma CoDue(s: State, a: Action)
    requires Enabled(s, a) && (a.CoStep? || a.ParkCall?)
    ensures var t := Move(s, a);
            && t.tm.deadline == s.tm.deadline && t.tm.dur == (if a.ParkCall? then a.dur else s.tm.dur)
            && (a.CoStep? ==> !s.co.Running?)
  {
  }

  /** `t` is the state after the step, but for its history. */
  lemma DueCo(s: State, a: Action, t: State)
    requires DueInv(s) && (s.k.Guarding? || s.k.Storing? ==> s.co.Yielding?)
    requires a.CoStep? || a.ParkCall?
    requires (a.CoStep? ==> !s.co.Running? && !s.co.Yielding?) && (a.ParkCall? ==> s.co.Running?)
    requires t.tm.deadline == s.tm.deadline && t.tm.dur == (if a.ParkCall? then a.dur else s.tm.dur)
    requires !t.co.InSlot? && (t.k == s.k || t.k == Arm)
    ensures DueInv(t.(past := Record(s, a, t)))
  {
  }

  lemma ArmCo(s: State, a: Action)
    requires ArmInv(s) && Single(s) && Enabled(s, a) && (a.CoStep? || a.ParkCall?)
    ensures ArmInv(Move(s, a).(past := Record(s, a, Move(s, a))))
  {
    CoTm(s, a);
  }

  lemma CoTm(s: State, a: Action)
    requires Single(s) && Enabled(s, a) && (a.CoStep? || a.ParkCall?)
    ensures var t := Move(s, a);
            if s.co.Disarm? then !t.tm.mine && t.tm.stale == s.tm.stale + (if s.tm.mine then 1 else 0)
            else t.tm.mine == s.tm.mine && t.tm.stale == s.tm.stale && (Unarmed(t.co, t.k) ==> Unarmed(s.co, s.k))
  {
  }

  lemma PastCo(s: State, a: Action)
    requires PastInv(s) && Single(s) && OkInv(s) && Enabled(s, a) && (a.CoStep? || a.ParkCall?)
    ensures PastInv(Next(s, a))
  {
    AskedCo(s, a);
    ErrCo(s, a);
    ReturnCo(s, a);
    CoSingle(s, a);
    CoDue(s, a);
    DueCo(s, a, Move(s, a));
    ArmCo(s, a);
  }

  /** What the steps of everybody else leave of the coroutine and its call. */
  predicate Apart(s: State, t: State) {
    && t.calls.oks == s.calls.oks && t.tm.dur == s.tm.dur && (s.token ==> t.token) && (s.canceled ==> t.canceled)
    && (s.co.Running? <==> t.co.Running?)
    && (if t.co == s.co then t.calls.err == s.calls.err
        else (s.co.InSlot? && t.co.Taken?) || (s.co.Yielding? && t.co.InSlot?))
  }

  lemma KernelApart(s: State)
    requires Single(s) && !s.k.Off?
    ensures Apart(s, KernelNext(s))
    ensures KernelNext(s).co.Taken? && s.co.InSlot? ==> (KernelNext(s).calls.err ==> s.k.SlotTake?)
  {
  }

  lemma PastKernel(s: State)
    requires PastInv(s) && Single(s) && Enabled(s, KernelStep) && (s.k.SlotTake? ==> s.canceled)
    ensures PastInv(Next(s, KernelStep))
  {
    KernelApart(s);
    DueKernel(s);
    ArmKernel(s);
  }

  lemma ArmKernel(s: State)
    requires ArmInv(s) && Single(s) && Enabled(s, KernelStep) && (s.k.Arm? ==> s.tm.dur == s.past.want)
    ensures ArmInv(Next(s, KernelStep))
  {
    KernelTm(s);
    KernelUnarmed(s);
  }

  lemma KernelUnarmed(s: State)
    requires Single(s) && !s.k.Off?
    ensures var t := KernelNext(s); Unarmed(t.co, t.k) ==> Unarmed(s.co, s.k) && !s.k.Arm?
  {
  }

  lemma KernelTm(s: State)
    ensures var t := KernelNext(s);
            && (!s.k.Arm? && !s.k.Storing? ==> t.tm == s.tm && (t.co.InSlot? ==> s.co.InSlot?) && !t.k.Guarding?)
            && (t.k.Storing? ==> s.k.Guarding?)
            && t.tm.dur == s.tm.dur && (!s.k.Arm? ==> t.tm.deadline == s.tm.deadline && t.tm.mine == s.tm.mine)
            && t.tm.stale == s.tm.stale && (s.k.Arm? ==> t.tm.mine == (s.tm.dur > 0))
  {
  }

  lemma DueKernel(s: State)
    requires DueInv(s) && Single(s) && Enabled(s, KernelStep)
    ensures DueInv(Next(s, KernelStep))
  {
    KernelTm(s);
    KernelApart(s);
  }

  lemma PastTimer(s: State, a: Action)
    requires PastInv(s) && Enabled(s, a) && (a.Tick? || a.Fire? || a.FireStale? || a.Forget?)
    ensures PastInv(Next(s, a))
  {
    assert Apart(s, Move(s, a));
  }

  lemma TakeApart(s: State, err: bool)
    ensures var t := Take(s, err); Apart(s, t) && t.tm == s.tm && t.k == s.k && (t.co != s.co && t.calls.err ==> err)
  {
  }

  lemma PartyApart(s: State, a: Action)
    requires Enabled(s, a) && ByParty(a)
    ensures var t := Move(s, a);
            && Apart(s, t) && t.tm == s.tm && t.k == s.k && (a.Unpark? ==> t.token && t.co == s.co)
            && (t.co != s.co && t.calls.err ==> s.pcs[a.i].TakeSlot?)
  {
    if a.Party? { TakeApart(s, s.pcs[a.i].TakeSlot?); }
  }

  lemma PastParty(s: State, a: Action)
    requires PastInv(s) && Single(s) && Enabled(s, a) && ByParty(a) && (s.pcs[a.i].TakeSlot? ==> s.canceled)
    ensures PastInv(Next(s, a))
  {
    PartyApart(s, a);
  }

  lemma PastStep(s: State, a: Action)
    requires PastInv(s) && Core(s) && OkInv(s) && Enabled(s, a)
    ensures PastInv(Next(s, a))
  {
    if ByParty(a) {
      TotalAtLeast(SlotTakers, s.pcs, a.i);
      PastParty(s, a);
    } else if a.KernelStep? {
      PastKernel(s);
    } else if a.CoStep? || a.ParkCall? {
      PastCo(s, a);
    } else {
      PastTimer(s, a);
    }
  }

  lemma InvStep(s: State, a: Action)
    requires Inv(s) && Enabled(s, a)
    ensures Inv(Next(s, a))
  {
    CoreStep(s, a);
    OkStep(s, a);
    PastStep(s, a);
  }

  // ---------------------------------------------------------------- every run

  ghost predicate Initial(s: State) { exists threads: nat :: s == Start(threads) }

  ghost predicate Step(s: State, t: State) { exists a: Action :: Enabled(s, a) && t == Next(s, a) }

  ghost predicate Reachable(s: State) { Reached(Initial, Step, s) }

  lemma ReachableInv(s: State)
    requires Reachable(s)
    ensures Inv(s)
  {
    forall s0 | Initial(s0) ensures Inv(s0) {
      var threads: nat :| s0 == Start(threads);
      StartInv(threads);
    }
    forall s1, s2 | Inv(s1) && Step(s1, s2) ensures Inv(s2) {
      var a: Action :| Enabled(s1, a) && s2 == Next(s1, a);
      InvStep(s1, a);
    }
    InvariantHolds(Initial, Step, Inv, s);
  }

  /**
   * Every suspension is taken by exactly one party, and the kernel never stores over a coroutine
   * that is still in the slot.
   */
  lemma TakenOnce(s: State)
    requires Reachable(s)
    ensures s.suspended == s.taken + (if s.co.InSlot? then 1 else 0)
    ensures s.k.Storing? ==> s.co.Yielding? && s.suspended == s.taken
  {
    ReachableInv(s);
  }

  /** `can_drop.wait()` lets the coroutine on only when the previous kernel is done. */
  lemma OneKernel(s: State)
    requires Reachable(s) && (s.co.YieldCheck? || (s.co.WaitKernel? && Enabled(s, CoStep)))
    ensures s.k.Off?
  {
    ReachableInv(s);
  }

  /**
   * A coroutine that was unparked since its last return, or that meets a token, and is suspended all the same
   * always has somebody about to take it out.
   */
  lemma NoLostUnpark(s: State)
    requires Reachable(s) && (s.token || s.past.asked) && s.co.InSlot?
    ensures WakeDue(s)
  {
    ReachableInv(s);
  }

  /** When everybody is done, a coroutine still suspended has been neither unparked since it last returned, nor canceled. */
  lemma SleepsOnlyUnasked(s: State)
    requires Reachable(s) && s.co.InSlot? && s.k.Off? && forall i :: 0 <= i < |s.pcs| ==> s.pcs[i].Idle?
    ensures !s.past.asked && !s.token && !s.canceled && s.reg
  {
    ReachableInv(s);
    TotalZero(Wakers, s.pcs);
    TotalZero(RegTakers, s.pcs);
    TotalZero(SlotTakers, s.pcs);
  }

  /** No park returns `Ok` of itself: there are at most two for every unpark, and none without. */
  lemma OksComeFromUnparks(s: State)
    requires Reachable(s)
    ensures s.calls.oks <= 2 * s.calls.unparks
  {
    ReachableInv(s);
  }

  /**
   * A suspension that was stored before the deadline of its timeout has its timer armed, and the
   * timer ends the suspension when it is due.
   */
  lemma TimerKeptIfStoredInTime(s: State)
    requires Reachable(s) && s.co.InSlot? && s.tm.dur > 0 && s.tm.stored < s.tm.deadline
    ensures s.tm.mine
    ensures s.tm.deadline <= s.tm.clock ==> Enabled(s, Fire) && Next(s, Fire).co.Taken? && Next(s, Fire).calls.err
  {
    ReachableInv(s);
  }

  /**
   * Every park returns once, with Ok or with an error, and an error has a cause: a cancel or a timer that fired. A
   * park that finds the cancel before it yields is not suspended.
   */
  lemma ParksReturnOnce(s: State)
    requires Reachable(s)
    ensures s.past.parks == s.calls.oks + s.past.errs + (if s.co.Running? then 0 else 1)
    ensures s.co.Disarm? && s.calls.err ==> s.canceled || s.past.fired
    ensures s.co.YieldCheck? && s.canceled ==> Resumed(Next(s, CoStep).co) && Next(s, CoStep).calls.err
  {
    ReachableInv(s);
  }

  /** The timer of a suspension does not fire before the timeout that the park asked for has passed. */
  lemma TimeoutNotEarly(s: State)
    requires Reachable(s) && s.co.InSlot? && Enabled(s, Fire)
    ensures s.past.armed + s.past.want <= s.tm.clock
  {
    ReachableInv(s);
  }

  /** Every timer that was armed fired once, was deleted, or can still fire: one of this park, or one of an earlier. */
  lemma TimersCounted(s: State)
    requires Reachable(s)
    ensures s.past.arms == s.past.spent + s.tm.stale + (if s.tm.mine then 1 else 0)
  {
    ReachableInv(s);
  }

  // ---------------------------------------------------------------- a lost timeout

  lemma Go(s: State, a: Action, t: State)
    requires Reachable(s) && Enabled(s, a) && t == Next(s, a)
    ensures Reachable(t)
  {
    OneMore(Initial, Step, s, t);
  }

  function At(s: State, clock: nat): State { s.(tm := s.tm.(clock := clock)) }

  lemma {:induction false} Wait(s: State, clock: nat)
    requires Reachable(s) && s.tm.clock <= clock
    ensures Reachable(At(s, clock))
    decreases clock - s.tm.clock
  {
    if s.tm.clock < clock {
      var t := At(s, s.tm.clock + 1);
      Go(s, Tick, t);
      Wait(t, clock);
      assert At(t, clock) == At(s, clock);
    } else {
      assert At(s, clock) == s;
    }
  }

  /** A park with timeout `dur` has begun at `clock`; the coroutine is at `co` and the kernel at `k`. */
  function Begun(clock: nat, dur: nat, co: Co, k: Kernel): State {
    Start(1).(co := co, k := k, tm := Timers(clock, dur, false, 0, 0, 0), past := Past(1, dur, false, false, 0, 0, 0, 0))
  }

  lemma BegunIsReachable(clock: nat, dur: nat)
    ensures Reachable(Begun(clock, dur, Yielding, Arm))
  {
    var s0 := Start(1);
    StartIsReached(Initial, Step, s0);
    Wait(s0, clock);
    Go(At(s0, clock), ParkCall(dur), Begun(clock, dur, Load(true), Off));
    Go(Begun(clock, dur, Load(true), Off), CoStep, Begun(clock, dur, Swap(true), Off));
    Go(Begun(clock, dur, Swap(true), Off), CoStep, Begun(clock, dur, WaitKernel, Off));
    Go(Begun(clock, dur, WaitKernel, Off), CoStep, Begun(clock, dur, YieldCheck, Off));
    Go(Begun(clock, dur, YieldCheck, Off), CoStep, Begun(clock, dur, Yielding, Arm));
  }

  /** The kernel has armed the timer for `d`, and not stored the coroutine. */
  function Armed(dur: nat, d: nat): State
    requires 0 < dur <= d
  {
    Begun(d - dur, dur, Yielding, Guarding).(
      tm := Timers(d - dur, dur, true, d, 0, 0), past := Past(1, dur, false, false, d - dur, 0, 1, 0))
  }

  lemma ArmedIsReachable(dur: nat, d: nat)
    requires 0 < dur <= d
    ensures Reachable(Armed(dur, d))
  {
    BegunIsReachable(d - dur, dur);
    Go(Begun(d - dur, dur, Yielding, Arm), KernelStep, Armed(dur, d));
  }

  /** At the deadline `d` the timer fired; at time `c` the kernel stored the coroutine. */
  function Stored(dur: nat, d: nat, c: nat): State
    requires 0 < dur <= d <= c
  {
    Armed(dur, d).(
      co := InSlot, k := Recheck, guarded := true, suspended := 1, tm := Timers(c, dur, false, d, c, 0),
      past := Past(1, dur, false, true, d - dur, 0, 1, 1))
  }

  lemma StoredIsReachable(dur: nat, d: nat, c: nat)
    requires 0 < dur <= d <= c
    ensures Reachable(Stored(dur, d, c))
  {
    ArmedIsReachable(dur, d);
    Wait(Armed(dur, d), d);
    var s := At(Armed(dur, d), d);
    var s1 := s.(tm := Timers(d, dur, false, d, 0, 0), past := Past(1, dur, false, true, d - dur, 0, 1, 1));
    Go(s, Fire, s1);
    Wait(s1, c);
    var s2 := At(s1, c);
    Go(s2, KernelStep, s2.(k := Storing, guarded := true));
    Go(s2.(k := Storing, guarded := true), KernelStep, Stored(dur, d, c));
  }

  /** Suspended with a timeout, everybody done, and no timer left that could end the suspension. */
  function Lost(dur: nat, d: nat, c: nat): State
    requires 0 < dur <= d <= c
  {
    Stored(dur, d, c).(k := Off, guarded := false, reg := true)
  }

  lemma LostIsReachable(dur: nat, d: nat, c: nat)
    requires 0 < dur <= d <= c
    ensures Reachable(Lost(dur, d, c))
  {
    StoredIsReachable(dur, d, c);
    var s := Stored(dur, d, c);
    Go(s, KernelStep, s.(k := SetReg));
    Go(s.(k := SetReg), KernelStep, s.(k := CancelCheck, reg := true));
    Go(s.(k := CancelCheck, reg := true), KernelStep, s.(k := Unguard, reg := true));
    Go(s.(k := Unguard, reg := true), KernelStep, Lost(dur, d, c));
  }

  /**
   * The timer is armed before the store, so it may fire on an empty slot: whatever the timeout and the
   * deadline, and whenever after it the store comes, the coroutine can sleep on with nothing but an unpark or a
   * cancel to wake it.
   */
  lemma TimeoutCanBeLost(dur: nat, d: nat, c: nat)
    requires 0 < dur <= d <= c
    ensures var s := Lost(dur, d, c);
            && Reachable(s) && s.co.InSlot? && s.tm.dur == dur && s.tm.deadline == d && s.tm.stored == c
            && forall a :: Enabled(s, a) ==> a.Unpark? || a.Cancel? || a.Tick?
  {
    LostIsReachable(dur, d, c);
  }

  ghost predicate KeptTimer(dur: nat, d: nat, c: nat) {
    forall s: State ::
      Reachable(s) && s.co.InSlot? && s.tm.dur == dur && s.tm.deadline == d && s.tm.stored == c ==> s.tm.mine
  }

  /** A timeout due at `d` is sure to be kept by a store at `c` if and only if the store comes first. */
  lemma TimeoutExact(dur: nat, d: nat, c: nat)
    requires 0 < dur <= d
    ensures KeptTimer(dur, d, c) <==> c < d
  {
    if c < d {
      forall s: State | Reachable(s) && s.co.InSlot? && s.tm.dur == dur && s.tm.deadline == d && s.tm.stored == c
        ensures s.tm.mine
      {
        TimerKeptIfStoredInTime(s);
      }
    } else {
      TimeoutCanBeLost(dur, d, c);
    }
  }

  // ---------------------------------------------------------------- two returns for one unpark

  /** The only unpark set the token, a park used it up and returned; its party is still about to take. */
  function UsedUp(co: Co, k: Kernel): State {
    Start(1).(calls := Calls(false, 1, 1), co := co, k := k, pcs := [Waking],
              past := Past(if co.Running? then 1 else 2, 0, false, false, 0, 0, 0, 0))
  }

  lemma UsedUpIsReachable()
    ensures Reachable(UsedUp(Running, Off))
  {
    var s := Start(1);
    StartIsReached(Initial, Step, s);
    assert s.pcs == [Idle];
    var s1 := s.(token := true, calls := Calls(false, 0, 1), pcs := [Waking], past := Past(0, 0, true, false, 0, 0, 0, 0));
    Go(s, Unpark(0), s1);
    var s2 := s1.(past := Past(1, 0, true, false, 0, 0, 0, 0));
    Go(s1, ParkCall(0), s2.(co := Load(true)));
    Go(s2.(co := Load(true)), CoStep, s2.(co := Clear(true)));
    Go(s2.(co := Clear(true)), CoStep, UsedUp(Running, Off));
  }

  /** The coroutine is suspended by its next park. */
  function Suspended(): State { UsedUp(InSlot, Recheck).(guarded := true, suspended := 1) }

  lemma SuspendedIsReachable()
    ensures Reachable(Suspended())
  {
    UsedUpIsReachable();
    Go(UsedUp(Running, Off), ParkCall(0), UsedUp(Load(true), Off));
    Go(UsedUp(Load(true), Off), CoStep, UsedUp(Swap(true), Off));
    Go(UsedUp(Swap(true), Off), CoStep, UsedUp(WaitKernel, Off));
    Go(UsedUp(WaitKernel, Off), CoStep, UsedUp(YieldCheck, Off));
    Go(UsedUp(YieldCheck, Off), CoStep, UsedUp(Yielding, Arm));
    Go(UsedUp(Yielding, Arm), KernelStep, UsedUp(Yielding, Guarding));
    Go(UsedUp(Yielding, Guarding), KernelStep, UsedUp(Yielding, Storing).(guarded := true));
    Go(UsedUp(Yielding, Storing).(guarded := true), KernelStep, Suspended());
  }

  /** The party of that unpark resumes it. */
  function ResumedAt(co: Co): State { Suspended().(co := co, pcs := [Idle], taken := 1) }

  /** Two for one does happen: an unpark whose token is used up still resumes the park after it. */
  lemma OneUnparkTwoOks()
    ensures exists s :: Reachable(s) && s.calls.unparks == 1 && s.calls.oks == 2
  {
    SuspendedIsReachable();
    Go(Suspended(), Party(0), ResumedAt(Taken));
    Go(ResumedAt(Taken), CoStep, ResumedAt(Load(false)));
    Go(ResumedAt(Load(false)), CoStep, ResumedAt(Swap(false)));
    Go(ResumedAt(Swap(false)), CoStep, ResumedAt(Disarm));
    var t := ResumedAt(Running).(calls := Calls(false, 2, 1));
    Go(ResumedAt(Disarm), CoStep, t);
  }
}
