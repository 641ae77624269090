/** One direction of the abort / pending-I/O protocol: any number of chunk calls (each with its own
    OVERLAPPED frame) and of abort requests, over one abort flag, one pending slot and one mutex
    (start_pending_io.hpp, wait_for_pending_io.hpp, finish_pending_io.hpp, request_abort.hpp,
    read_chunk.hpp, write_chunk.hpp). The flag store is not under the mutex, so it may fall
    between any two steps, also inside another thread's critical section. */
module PendingIo {
  import opened Options

  type Fid = nat
  type Aid = nat

  const ERROR_OPERATION_ABORTED: nat := 995

  /** How the kernel ended an I/O; ERROR_OPERATION_ABORTED is `Cancelled`, never `Failed`. */
  datatype KernelResult = Completed(bytes: nat) | Cancelled(bytes: nat) | Failed(error: nat)

  datatype Kernel = NotIssued | Issued(cancelled: bool) | Done(result: KernelResult)

  /** What the frame already knows when it enters finishPendingIo. */
  datatype Tail =
    | SyncDone(bytes: nat)
    | SyncFailed(error: nat)
    | Signalled(result: KernelResult)
    | DrainedTimeout
    | DrainedFailure(error: nat)

  datatype Outcome = Transferred(bytes: nat) | TimedOut | Aborted | Error(error: nat)

  datatype Pc =
    | New
    | StartLocked                               // owns the mutex, flag not yet exchanged
    | StartAborted                              // the exchange returned true
    | StartChecked                              // the exchange returned false
    | StartPublished                            // slot written, ReadFile/WriteFile not yet called
    | StartIssued(next: Option<Tail>)           // None: ERROR_IO_PENDING
    | Waiting
    | Cancelling(tail: Tail)
    | Draining(tail: Tail)
    | NeedFinish(tail: Tail)
    | FinishLocked(tail: Tail)
    | FinishCleared(tail: Tail)
    | FinishConsumed(tail: Tail, aborted: bool)
    | Returned(outcome: Outcome)

  /** How the wait for an I/O ended, or that there was no event to wait on in the first place. */
  datatype WaitEnd = NoWait | NoEvent(error: nat) | EventSignalled | TimeUp | WaitBroke(error: nat)

  /** `sawAbort`: one of the frame's flag exchanges returned true. `hit`: an abort request has
      called CancelIoEx on this frame. `selfCancelled`: the frame itself has. */
  datatype Frame = Frame(pc: Pc, kernel: Kernel, sawAbort: bool, hit: bool, selfCancelled: bool, wait: WaitEnd)

  /** An abort request: after its store, holding the mutex, done. `targets` are the frames that
      were past their start check and before their final exchange when the flag was stored. */
  datatype Aborter =
    | Stored(targets: set<Fid>)
    | Locked(targets: set<Fid>)
    | Finished(targets: set<Fid>, cancelled: bool)

  datatype Lock = Free | ByFrame(f: Fid) | ByAborter(a: Aid) | Elsewhere

  datatype Io = Io(flag: bool, slot: Option<Fid>, lock: Lock, frames: map<Fid, Frame>, aborters: map<Aid, Aborter>)

  const INITIALLY := Io(false, None, Free, map[], map[])

  datatype Choice =
    | Go                       // the only way on; when issuing: pending; when waiting: signalled
    | CompleteNow(bytes: nat)  // ReadFile/WriteFile completes at once
    | FailNow(error: nat)      // CreateEventW, or ReadFile/WriteFile, or the wait fails
    | TimeOut

  datatype Action =
    | Begin(f: Fid)
    | FrameStep(f: Fid, choice: Choice)
    | KernelStep(f: Fid, result: KernelResult)
    | Store(a: Aid)
    | AbortLock(a: Aid)
    | AbortCancel(a: Aid)
    | ElsewhereLock
    | ElsewhereUnlock

  predicate InSection(pc: Pc) {
    || pc.StartLocked? || pc.StartAborted? || pc.StartChecked? || pc.StartPublished? || pc.StartIssued?
    || pc.FinishLocked? || pc.FinishCleared? || pc.FinishConsumed?
  }

  predicate FrameCan(s: Io, f: Fid, choice: Choice)
    requires f in s.frames
  {
    var fr := s.frames[f];
    match fr.pc
    case New => choice.FailNow? || (choice.Go? && s.lock.Free?)
    case StartPublished => !choice.TimeOut?
    case Waiting => choice.TimeOut? || choice.FailNow? || (choice.Go? && fr.kernel.Done?)
    case Draining(_) => choice.Go? && fr.kernel.Done?
    case NeedFinish(_) => choice.Go? && s.lock.Free?
    case Returned(_) => false
    case _ => choice.Go?
  }

  predicate Possible(s: Io, a: Action) {
    match a
    case Begin(f) => f !in s.frames
    case FrameStep(f, choice) => f in s.frames && FrameCan(s, f, choice)
    case KernelStep(f, result) =>
      && f in s.frames && s.frames[f].kernel.Issued?
      && (result.Cancelled? ==> s.frames[f].kernel.cancelled)
      && (result.Failed? ==> result.error != ERROR_OPERATION_ABORTED)
    case Store(a) => a !in s.aborters
    case AbortLock(a) => a in s.aborters && s.aborters[a].Stored? && s.lock.Free?
    case AbortCancel(a) => a in s.aborters && s.aborters[a].Locked? && (s.slot.Some? ==> s.slot.value in s.frames)
    case ElsewhereLock => s.lock.Free?
    case ElsewhereUnlock => s.lock.Elsewhere?
  }

  /** CancelIoEx: only an I/O the kernel still owns is affected. */
  function CancelIo(k: Kernel): Kernel {
    if k.Issued? then Issued(true) else k
  }

  function Decide(tail: Tail, aborted: bool): Outcome {
    if aborted then Aborted
    else
      match tail
      case SyncDone(bytes) => Transferred(bytes)
      case SyncFailed(error) => Error(error)
      case DrainedTimeout => TimedOut
      case DrainedFailure(error) => Error(error)
      case Signalled(Completed(bytes)) => Transferred(bytes)
      case Signalled(Cancelled(_)) => Aborted
      case Signalled(Failed(error)) => Error(error)
  }

  predicate Starting(pc: Pc) {
    pc.New? || pc.StartLocked? || pc.StartAborted? || pc.StartChecked? || pc.StartPublished? || pc.StartIssued?
  }

  predicate InWait(pc: Pc) {
    pc.Waiting? || pc.Cancelling? || pc.Draining?
  }

  /** startPendingIo, with CreateEventW before it. */
  function StartStep(s: Io, f: Fid, choice: Choice): Io
    requires f in s.frames && FrameCan(s, f, choice) && Starting(s.frames[f].pc)
  {
    var fr := s.frames[f];
    match fr.pc
    case New =>
      if choice.FailNow? then
        s.(frames := s.frames[f := fr.(pc := Returned(Error(choice.error)), wait := NoEvent(choice.error))])
      else s.(lock := ByFrame(f), frames := s.frames[f := fr.(pc := StartLocked)])
    case StartLocked =>
      s.(flag := false,
         frames := s.frames[f := fr.(pc := if s.flag then StartAborted else StartChecked, sawAbort := s.flag)])
    case StartAborted => s.(lock := Free, frames := s.frames[f := fr.(pc := Returned(Aborted))])
    case StartChecked => s.(slot := Some(f), frames := s.frames[f := fr.(pc := StartPublished)])
    case StartPublished => (
      match choice
      case CompleteNow(bytes) =>
        s.(frames := s.frames[f := fr.(pc := StartIssued(Some(SyncDone(bytes))), kernel := Done(Completed(bytes)))])
      case FailNow(error) =>
        s.(frames := s.frames[f := fr.(pc := StartIssued(Some(SyncFailed(error))), kernel := Done(Failed(error)))])
      case _ => s.(frames := s.frames[f := fr.(pc := StartIssued(None), kernel := Issued(false))])
    )
    case StartIssued(next) =>
      s.(lock := Free, frames := s.frames[f := fr.(pc := if next.None? then Waiting else NeedFinish(next.value))])
  }

  /** waitForPendingIo up to finishPendingIo. */
  function WaitStep(s: Io, f: Fid, choice: Choice): Io
    requires f in s.frames && FrameCan(s, f, choice) && InWait(s.frames[f].pc)
  {
    var fr := s.frames[f];
    match fr.pc
    case Waiting => (
      match choice
      case TimeOut => s.(frames := s.frames[f := fr.(pc := Cancelling(DrainedTimeout), wait := TimeUp)])
      case FailNow(error) =>
        s.(frames := s.frames[f := fr.(pc := Cancelling(DrainedFailure(error)), wait := WaitBroke(error))])
      case _ =>
        s.(frames := s.frames[f := fr.(pc := NeedFinish(Signalled(fr.kernel.result)), wait := EventSignalled)])
    )
    case Cancelling(tail) =>
      s.(frames := s.frames[f := fr.(pc := Draining(tail), kernel := CancelIo(fr.kernel), selfCancelled := true)])
    case Draining(tail) => s.(frames := s.frames[f := fr.(pc := NeedFinish(tail))])
  }

  /** finishPendingIo and the outcome computed after it. */
  function FinishStep(s: Io, f: Fid, choice: Choice): Io
    requires f in s.frames && FrameCan(s, f, choice) && !Starting(s.frames[f].pc) && !InWait(s.frames[f].pc)
  {
    var fr := s.frames[f];
    match fr.pc
    case NeedFinish(tail) => s.(lock := ByFrame(f), frames := s.frames[f := fr.(pc := FinishLocked(tail))])
    case FinishLocked(tail) =>
      s.(slot := if s.slot == Some(f) then None else s.slot, frames := s.frames[f := fr.(pc := FinishCleared(tail))])
    case FinishCleared(tail) =>
      s.(flag := false, frames := s.frames[f := fr.(pc := FinishConsumed(tail, s.flag), sawAbort := s.flag)])
    case FinishConsumed(tail, aborted) =>
      s.(lock := Free, frames := s.frames[f := fr.(pc := Returned(Decide(tail, aborted)))])
  }

  /** Past the start check, before the final exchange. */
  predicate InFlight(pc: Pc) {
    || pc.StartChecked? || pc.StartPublished? || pc.StartIssued? || InWait(pc)
    || pc.NeedFinish? || pc.FinishLocked? || pc.FinishCleared?
  }

  function InFlightFrames(s: Io): set<Fid> {
    set f | f in s.frames && InFlight(s.frames[f].pc)
  }

  function After(s: Io, a: Action): Io
    requires Possible(s, a)
  {
    match a
    case Begin(f) => s.(frames := s.frames[f := Frame(New, NotIssued, false, false, false, NoWait)])
    case FrameStep(f, choice) =>
      if Starting(s.frames[f].pc) then StartStep(s, f, choice)
      else if InWait(s.frames[f].pc) then WaitStep(s, f, choice)
      else FinishStep(s, f, choice)
    case KernelStep(f, result) => s.(frames := s.frames[f := s.frames[f].(kernel := Done(result))])
    case Store(a) => s.(flag := true, aborters := s.aborters[a := Stored(InFlightFrames(s))])
    case AbortLock(a) => s.(lock := ByAborter(a), aborters := s.aborters[a := Locked(s.aborters[a].targets)])
    case AbortCancel(a) =>
      var s' := s.(lock := Free, aborters := s.aborters[a := Finished(s.aborters[a].targets, s.slot.Some?)]);
      if s.slot.None? then s'
      else
        var fr := s.frames[s.slot.value];
        s'.(frames := s.frames[s.slot.value := fr.(kernel := CancelIo(fr.kernel), hit := true)])
    case ElsewhereLock => s.(lock := Elsewhere)
    case ElsewhereUnlock => s.(lock := Free)
  }

  predicate IsRun(s: Io, acts: seq<Action>)
    decreases |acts|
  {
    acts == [] || (Possible(s, acts[0]) && IsRun(After(s, acts[0]), acts[1..]))
  }

  function Reach(s: Io, acts: seq<Action>): Io
    requires IsRun(s, acts)
    decreases |acts|
  {
    if acts == [] then s else Reach(After(s, acts[0]), acts[1..])
  }

  /** A run with one step more. */
  lemma {:induction false} RunSnoc(s: Io, acts: seq<Action>, a: Action)
    requires IsRun(s, acts) && Possible(Reach(s, acts), a)
    ensures IsRun(s, acts + [a]) && Reach(s, acts + [a]) == After(Reach(s, acts), a)
    decreases |acts|
  {
    if acts == [] {
      assert [] + [a] == [a] && [a][1..] == [];
    } else {
      assert (acts + [a])[1..] == acts[1..] + [a];
      RunSnoc(After(s, acts[0]), acts[1..], a);
    }
  }

  // ----- The invariant -----

  /** The frames whose OVERLAPPED may be in the slot. */
  predicate Published(pc: Pc) {
    pc.StartPublished? || pc.StartIssued? || InWait(pc) || pc.NeedFinish? || pc.FinishLocked?
  }

  predicate KernelOk(fr: Frame) {
    match fr.pc
    case New => fr.kernel.NotIssued?
    case StartLocked => fr.kernel.NotIssued?
    case StartAborted => fr.kernel.NotIssued?
    case StartChecked => fr.kernel.NotIssued?
    case StartPublished => fr.kernel.NotIssued?
    case StartIssued(next) => if next.None? then !fr.kernel.NotIssued? else fr.kernel.Done? && !next.value.Signalled?
    case Waiting => !fr.kernel.NotIssued?
    case Cancelling(tail) => !fr.kernel.NotIssued? && !tail.Signalled?
    case Draining(tail) => !fr.kernel.NotIssued? && !tail.Signalled?
    case Returned(_) => !fr.kernel.Issued?
    case _ => fr.kernel.Done?
  }

  /** Only a cancelled I/O can end as cancelled, and a frame that was merely signalled did not
      cancel itself: then an abort request did. */
  predicate CancelOk(fr: Frame) {
    && (fr.kernel == Issued(true) || (fr.kernel.Done? && fr.kernel.result.Cancelled?) ==> fr.hit || fr.selfCancelled)
    && (fr.selfCancelled ==> !fr.pc.Waiting? && !Starting(fr.pc))
    && (match fr.pc
        case NeedFinish(Signalled(r)) => r.Cancelled? ==> fr.hit
        case FinishLocked(Signalled(r)) => r.Cancelled? ==> fr.hit
        case FinishCleared(Signalled(r)) => r.Cancelled? ==> fr.hit
        case FinishConsumed(Signalled(r), _) => r.Cancelled? ==> fr.hit
        case Returned(Aborted) => fr.sawAbort || fr.hit
        case _ => true)
  }

  predicate AbortOk(fr: Frame) {
    match fr.pc
    case StartAborted => fr.sawAbort
    case FinishConsumed(_, aborted) => fr.sawAbort == aborted
    case Returned(outcome) => fr.sawAbort ==> outcome == Aborted
    case _ => !fr.sawAbort
  }

  predicate FrameOk(s: Io, f: Fid)
    requires f in s.frames
  {
    var fr := s.frames[f];
    && KernelOk(fr) && CancelOk(fr) && AbortOk(fr)
    && (s.lock == ByFrame(f) <==> InSection(fr.pc))
    && (s.slot == Some(f) ==> Published(fr.pc))
  }

  predicate AborterOk(s: Io, a: Aid)
    requires a in s.aborters
  {
    s.lock == ByAborter(a) <==> s.aborters[a].Locked?
  }

  predicate Links(s: Io) {
    && (s.slot.Some? ==> s.slot.value in s.frames)
    && (s.lock.ByFrame? ==> s.lock.f in s.frames)
    && (s.lock.ByAborter? ==> s.lock.a in s.aborters)
  }

  ghost predicate Good(s: Io) {
    && Links(s)
    && (forall f :: f in s.frames ==> FrameOk(s, f))
    && (forall a :: a in s.aborters ==> AborterOk(s, a))
  }

  predicate Acting(s: Io, a: Action) {
    && (a.FrameStep? && a.f in s.frames ==> FrameOk(s, a.f))
    && ((a.AbortLock? || a.AbortCancel?) && a.a in s.aborters ==> AborterOk(s, a.a))
  }

  lemma StartKeepsSelf(s: Io, f: Fid, choice: Choice)
    requires f in s.frames && FrameCan(s, f, choice) && Starting(s.frames[f].pc) && FrameOk(s, f)
    ensures FrameOk(StartStep(s, f, choice), f)
  {
  }

  lemma WaitKeepsSelf(s: Io, f: Fid, choice: Choice)
    requires f in s.frames && FrameCan(s, f, choice) && InWait(s.frames[f].pc) && FrameOk(s, f)
    ensures FrameOk(WaitStep(s, f, choice), f)
  {
  }

  lemma FinishKeepsKernel(s: Io, f: Fid, choice: Choice)
    requires f in s.frames && FrameCan(s, f, choice) && !Starting(s.frames[f].pc) && !InWait(s.frames[f].pc)
    requires FrameOk(s, f)
    ensures KernelOk(FinishStep(s, f, choice).frames[f]) && AbortOk(FinishStep(s, f, choice).frames[f])
  {
  }

  lemma FinishKeepsCancel(s: Io, f: Fid, choice: Choice)
    requires f in s.frames && FrameCan(s, f, choice) && !Starting(s.frames[f].pc) && !InWait(s.frames[f].pc)
    requires FrameOk(s, f)
    ensures CancelOk(FinishStep(s, f, choice).frames[f])
  {
  }

  lemma FinishKeepsPlace(s: Io, f: Fid, choice: Choice)
    requires f in s.frames && FrameCan(s, f, choice) && !Starting(s.frames[f].pc) && !InWait(s.frames[f].pc)
    requires FrameOk(s, f)
    ensures var s' := FinishStep(s, f, choice);
      && (s'.lock == ByFrame(f) <==> InSection(s'.frames[f].pc))
      && (s'.slot == Some(f) ==> Published(s'.frames[f].pc))
  {
  }

  lemma FinishKeepsSelf(s: Io, f: Fid, choice: Choice)
    requires f in s.frames && FrameCan(s, f, choice) && !Starting(s.frames[f].pc) && !InWait(s.frames[f].pc)
    requires FrameOk(s, f)
    ensures FrameOk(FinishStep(s, f, choice), f)
  {
    FinishKeepsKernel(s, f, choice);
    FinishKeepsCancel(s, f, choice);
    FinishKeepsPlace(s, f, choice);
  }

  lemma FrameStepKeepsOther(s: Io, f: Fid, choice: Choice, g: Fid)
    requires f in s.frames && FrameCan(s, f, choice) && FrameOk(s, f)
    requires g != f && g in s.frames && FrameOk(s, g)
    ensures FrameOk(After(s, FrameStep(f, choice)), g)
  {
  }

  lemma OtherKeepsFrame(s: Io, a: Action, f: Fid)
    requires !a.FrameStep? && Possible(s, a) && Acting(s, a) && Links(s)
    requires f in After(s, a).frames && (f in s.frames ==> FrameOk(s, f))
    ensures FrameOk(After(s, a), f)
  {
  }

  lemma StepKeepsLinks(s: Io, a: Action)
    requires Possible(s, a) && Links(s)
    ensures Links(After(s, a))
  {
  }

  lemma StepKeepsAborter(s: Io, a: Action, x: Aid)
    requires Possible(s, a) && Acting(s, a) && Links(s)
    requires x in After(s, a).aborters && (x in s.aborters ==> AborterOk(s, x))
    ensures AborterOk(After(s, a), x)
  {
  }

  lemma StepKeepsFrame(s: Io, a: Action, f: Fid)
    requires Possible(s, a) && Acting(s, a) && Links(s)
    requires f in After(s, a).frames && (f in s.frames ==> FrameOk(s, f))
    ensures FrameOk(After(s, a), f)
  {
    if !a.FrameStep? {
      OtherKeepsFrame(s, a, f);
    } else if f != a.f {
      FrameStepKeepsOther(s, a.f, a.choice, f);
    } else if Starting(s.frames[f].pc) {
      StartKeepsSelf(s, f, a.choice);
    } else if InWait(s.frames[f].pc) {
      WaitKeepsSelf(s, f, a.choice);
    } else {
      FinishKeepsSelf(s, f, a.choice);
    }
  }

  lemma StepKeepsGood(s: Io, a: Action)
    requires Good(s) && Possible(s, a)
    ensures Good(After(s, a))
  {
    StepKeepsLinks(s, a);
    forall f | f in After(s, a).frames ensures FrameOk(After(s, a), f) { StepKeepsFrame(s, a, f); }
    forall x | x in After(s, a).aborters ensures AborterOk(After(s, a), x) { StepKeepsAborter(s, a, x); }
  }

  lemma {:induction false} RunKeepsGood(s: Io, acts: seq<Action>)
    requires Good(s) && IsRun(s, acts)
    ensures Good(Reach(s, acts))
    decreases |acts|
  {
    if acts != [] {
      StepKeepsGood(s, acts[0]);
      RunKeepsGood(After(s, acts[0]), acts[1..]);
    }
  }

  // ----- Theorems with any number of concurrent frames and aborters -----

  /** While no frame is inside its critical section, the slot is empty or holds the OVERLAPPED of a
      frame that has not returned and whose I/O has been issued: CancelIoEx hits a live one. */
  lemma SlotIsLive(acts: seq<Action>)
    requires IsRun(INITIALLY, acts)
    ensures var s := Reach(INITIALLY, acts);
      !s.lock.ByFrame? && s.slot.Some? ==>
        && s.slot.value in s.frames
        && !s.frames[s.slot.value].pc.Returned?
        && !s.frames[s.slot.value].kernel.NotIssued?
  {
    RunKeepsGood(INITIALLY, acts);
    var s := Reach(INITIALLY, acts);
    if s.slot.Some? {
      assert FrameOk(s, s.slot.value);
    }
  }

  /** No chunk call returns while the kernel still owns its OVERLAPPED, nor leaves it in the slot. It
      reports kAborted if it consumed the flag, and only if it did or a request called CancelIoEx on
      its I/O; a call so hit whose I/O had completed before may still report its bytes. */
  lemma NoFrameReturnsEarly(acts: seq<Action>, f: Fid)
    requires IsRun(INITIALLY, acts)
    requires f in Reach(INITIALLY, acts).frames && Reach(INITIALLY, acts).frames[f].pc.Returned?
    ensures var s := Reach(INITIALLY, acts);
      var fr := s.frames[f];
      && !fr.kernel.Issued? && s.slot != Some(f) && s.lock != ByFrame(f)
      && (fr.sawAbort ==> fr.pc.outcome == Aborted)
      && (fr.pc.outcome == Aborted ==> fr.sawAbort || fr.hit)
  {
    RunKeepsGood(INITIALLY, acts);
    assert FrameOk(Reach(INITIALLY, acts), f);
  }

  /** The flag exchanges: the one of startPendingIo and the one of finishPendingIo. */
  predicate Exchanges(s: Io, a: Action) {
    a.FrameStep? && a.f in s.frames && (s.frames[a.f].pc.StartLocked? || s.frames[a.f].pc.FinishCleared?)
  }

  predicate NoExchange(s: Io, acts: seq<Action>)
    requires IsRun(s, acts)
    decreases |acts|
  {
    acts == [] || (!Exchanges(s, acts[0]) && NoExchange(After(s, acts[0]), acts[1..]))
  }

  lemma {:induction false} FlagSurvives(s: Io, acts: seq<Action>)
    requires s.flag && IsRun(s, acts) && NoExchange(s, acts)
    ensures Reach(s, acts).flag
    decreases |acts|
  {
    if acts != [] {
      FlagSurvives(After(s, acts[0]), acts[1..]);
    }
  }

  /** No abort is lost: after a flag store, however the run goes on, the first start or finish that
      exchanges the flag belongs to a call that reports kAborted, whenever it returns. */
  lemma FirstExchangeAborts(s: Io, store: Aid, acts: seq<Action>, exchange: Action, rest: seq<Action>)
    requires Good(s) && Possible(s, Store(store))
    requires IsRun(After(s, Store(store)), acts) && NoExchange(After(s, Store(store)), acts)
    requires var mid := Reach(After(s, Store(store)), acts);
      Possible(mid, exchange) && Exchanges(mid, exchange) && IsRun(After(mid, exchange), rest)
    ensures var mid := Reach(After(s, Store(store)), acts);
      var end := Reach(After(mid, exchange), rest);
      && exchange.f in end.frames && end.frames[exchange.f].sawAbort
      && (end.frames[exchange.f].pc.Returned? ==> end.frames[exchange.f].pc.outcome == Aborted)
  {
    StepKeepsGood(s, Store(store));
    var s1 := After(s, Store(store));
    RunKeepsGood(s1, acts);
    FlagSurvives(s1, acts);
    var mid := Reach(s1, acts);
    StepKeepsGood(mid, exchange);
    SawAbortStays(After(mid, exchange), rest, exchange.f);
  }

  lemma SawAbortStep(s: Io, a: Action, f: Fid)
    requires Possible(s, a) && f in s.frames && FrameOk(s, f) && s.frames[f].sawAbort
    ensures f in After(s, a).frames && After(s, a).frames[f].sawAbort
  {
  }

  lemma {:induction false} SawAbortStays(s: Io, acts: seq<Action>, f: Fid)
    requires Good(s) && IsRun(s, acts) && f in s.frames && s.frames[f].sawAbort
    ensures var end := Reach(s, acts);
      f in end.frames && end.frames[f].sawAbort && (end.frames[f].pc.Returned? ==> end.frames[f].pc.outcome == Aborted)
    decreases |acts|
  {
    assert FrameOk(s, f);
    if acts != [] {
      SawAbortStep(s, acts[0], f);
      StepKeepsGood(s, acts[0]);
      SawAbortStays(After(s, acts[0]), acts[1..], f);
    }
  }

  /** A call that has not returned is never stuck for good: it, the kernel, or the current owner of
      the mutex can take a step. */
  lemma ChunkNeverDeadlocks(acts: seq<Action>, f: Fid)
    requires IsRun(INITIALLY, acts)
    requires f in Reach(INITIALLY, acts).frames && !Reach(INITIALLY, acts).frames[f].pc.Returned?
    ensures var s := Reach(INITIALLY, acts);
      || Possible(s, FrameStep(f, Go))
      || Possible(s, KernelStep(f, Completed(0)))
      || (s.lock.ByFrame? && Possible(s, FrameStep(s.lock.f, Go)))
      || (s.lock.ByAborter? && Possible(s, AbortCancel(s.lock.a)))
      || (s.lock.Elsewhere? && Possible(s, ElsewhereUnlock))
  {
    RunKeepsGood(INITIALLY, acts);
    var s := Reach(INITIALLY, acts);
    assert FrameOk(s, f);
    if s.lock.ByFrame? {
      assert FrameOk(s, s.lock.f);
    } else if s.lock.ByAborter? {
      assert AborterOk(s, s.lock.a);
    }
  }

  // ----- Abort accounting -----

  function Saw(s: Io): set<Fid> { set f | f in s.frames && s.frames[f].sawAbort }
  function Hit(s: Io): set<Fid> { set f | f in s.frames && s.frames[f].hit }
  function AbortedCalls(s: Io): set<Fid> { set f | f in s.frames && s.frames[f].pc == Returned(Aborted) }
  /** The requests that called CancelIoEx; every request stores the flag exactly once. */
  function Cancels(s: Io): set<Aid> {
    set a | a in s.aborters && s.aborters[a].Finished? && s.aborters[a].cancelled
  }

  predicate Accounted(s: Io) {
    && |Saw(s)| + (if s.flag then 1 else 0) <= |s.aborters|
    && |Hit(s)| <= |Cancels(s)|
  }

  lemma {:induction false} SubsetSize<T>(a: set<T>, b: set<T>)
    requires a <= b
    ensures |a| <= |b|
    decreases a
  {
    if a != {} {
      var x :| x in a;
      SubsetSize(a - {x}, b - {x});
    }
  }

  lemma StepSaws(s: Io, a: Action, f: Fid)
    requires Possible(s, a) && f in Saw(After(s, a))
    ensures f in Saw(s) || (Exchanges(s, a) && s.flag && f == a.f)
  {
  }

  lemma StepFlag(s: Io, a: Action)
    requires Possible(s, a)
    ensures After(s, a).flag ==> s.flag || a.Store?
    ensures Exchanges(s, a) ==> !After(s, a).flag
    ensures After(s, a).aborters.Keys == if a.Store? then s.aborters.Keys + {a.a} else s.aborters.Keys
    ensures a.Store? ==> a.a !in s.aborters.Keys
  {
  }

  lemma StepAccountsSaw(s: Io, a: Action)
    requires Possible(s, a) && Accounted(s)
    ensures |Saw(After(s, a))| + (if After(s, a).flag then 1 else 0) <= |After(s, a).aborters|
  {
    var s' := After(s, a);
    forall f | f in Saw(s') ensures f in Saw(s) || (Exchanges(s, a) && s.flag && f == a.f) { StepSaws(s, a, f); }
    StepFlag(s, a);
    SubsetSize(Saw(s'), if Exchanges(s, a) && s.flag then Saw(s) + {a.f} else Saw(s));
    assert |s'.aborters| == |s'.aborters.Keys| && |s.aborters| == |s.aborters.Keys|;
  }

  lemma StepHits(s: Io, a: Action, f: Fid)
    requires Possible(s, a) && f in Hit(After(s, a))
    ensures f in Hit(s) || (a.AbortCancel? && s.slot == Some(f))
  {
  }

  lemma StepCancels(s: Io, a: Action, x: Aid)
    requires Possible(s, a) && (x in Cancels(s) || (a.AbortCancel? && s.slot.Some? && x == a.a))
    ensures x in Cancels(After(s, a)) && (a.AbortCancel? ==> a.a !in Cancels(s))
  {
  }

  lemma StepAccountsHit(s: Io, a: Action)
    requires Possible(s, a) && Accounted(s)
    ensures |Hit(After(s, a))| <= |Cancels(After(s, a))|
  {
    var s' := After(s, a);
    var struck := if a.AbortCancel? && s.slot.Some? then {s.slot.value} else {};
    var cancels := Cancels(s) + if a.AbortCancel? && s.slot.Some? then {a.a} else {};
    forall f | f in Hit(s') ensures f in Hit(s) + struck { StepHits(s, a, f); }
    forall x | x in cancels ensures x in Cancels(s') { StepCancels(s, a, x); }
    SubsetSize(Hit(s'), Hit(s) + struck);
    SubsetSize(cancels, Cancels(s'));
    if a.AbortCancel? && s.slot.Some? { StepCancels(s, a, a.a); }
  }

  lemma {:induction false} RunAccounts(s: Io, acts: seq<Action>)
    requires IsRun(s, acts) && Accounted(s)
    ensures Accounted(Reach(s, acts))
    decreases |acts|
  {
    if acts != [] {
      StepAccountsSaw(s, acts[0]);
      StepAccountsHit(s, acts[0]);
      RunAccounts(After(s, acts[0]), acts[1..]);
    }
  }

  /** Over every run: kAborted outcomes number at most the flag stores plus the cancels issued by
      requests, so at most two per request, and none without a request. */
  lemma AbortsAreAccountedFor(acts: seq<Action>)
    requires IsRun(INITIALLY, acts)
    ensures var s := Reach(INITIALLY, acts);
      && |AbortedCalls(s)| <= |s.aborters| + |Cancels(s)| <= 2 * |s.aborters|
      && (s.aborters == map[] ==> AbortedCalls(s) == {})
  {
    var s := Reach(INITIALLY, acts);
    assert Saw(INITIALLY) == {} && Hit(INITIALLY) == {};
    RunAccounts(INITIALLY, acts);
    RunKeepsGood(INITIALLY, acts);
    forall f | f in AbortedCalls(s) ensures f in Saw(s) + Hit(s) {
      assert FrameOk(s, f);
    }
    SubsetSize(AbortedCalls(s), Saw(s) + Hit(s));
    assert |Saw(s) + Hit(s)| <= |Saw(s)| + |Hit(s)|;
    SubsetSize(Cancels(s), s.aborters.Keys);
    assert |s.aborters| == |s.aborters.Keys|;
  }
}
