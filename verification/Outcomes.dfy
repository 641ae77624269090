/** What a chunk call reports, told from what has happened to it: how its wait ended, whether it found the
    abort flag set, and what the kernel did. Reported and moved bytes agree unless the call gives up or is
    aborted after bytes have moved, and a run shows that this happens. */
module Outcomes {
  import opened Options
  import opened PendingIo
  import opened SoloAbort

  /** The bytes the kernel says an I/O has moved. */
  function Moved(k: Kernel): nat {
    match k
    case Done(Completed(bytes)) => bytes
    case Done(Cancelled(bytes)) => bytes
    case _ => 0
  }

  function Reported(outcome: Outcome): nat {
    if outcome.Transferred? then outcome.bytes else 0
  }

  /** What a frame that enters its finish knows is what has happened to it. */
  predicate FinishTrue(fr: Frame, tail: Tail) {
    && fr.kernel.Done?
    && (fr.selfCancelled <==> tail.DrainedTimeout? || tail.DrainedFailure?)
    && match tail {
      case SyncDone(bytes) => fr.kernel.result == Completed(bytes) && fr.wait == NoWait
      case SyncFailed(error) => fr.kernel.result == Failed(error) && fr.wait == NoWait
      case Signalled(result) => fr.kernel.result == result && fr.wait == EventSignalled
      case DrainedTimeout => fr.wait == TimeUp
      case DrainedFailure(error) => fr.wait == WaitBroke(error)
    }
  }

  predicate GivingUp(fr: Frame, tail: Tail) {
    (tail.DrainedTimeout? && fr.wait == TimeUp) || (tail.DrainedFailure? && fr.wait == WaitBroke(tail.error))
  }

  predicate OutcomeTrue(fr: Frame, outcome: Outcome) {
    && (fr.selfCancelled <==> fr.wait.TimeUp? || fr.wait.WaitBroke?)
    && if fr.sawAbort then outcome == Aborted
       else
         match fr.wait {
           case TimeUp => outcome == TimedOut
           case WaitBroke(error) => outcome == Error(error)
           case NoEvent(error) => outcome == Error(error) && fr.kernel.NotIssued?
           case _ => fr.kernel.Done? && outcome == Ended(fr.kernel.result)
         }
  }

  function Ended(result: KernelResult): Outcome {
    match result
    case Completed(bytes) => Transferred(bytes)
    case Cancelled(_) => Aborted
    case Failed(error) => Error(error)
  }

  predicate ResultTrue(fr: Frame) {
    match fr.pc
    case StartIssued(next) =>
      !fr.selfCancelled && fr.wait == NoWait && (next.Some? ==> FinishTrue(fr, next.value))
    case Cancelling(tail) => !fr.selfCancelled && GivingUp(fr, tail)
    case Draining(tail) => fr.selfCancelled && GivingUp(fr, tail)
    case NeedFinish(tail) => FinishTrue(fr, tail)
    case FinishLocked(tail) => FinishTrue(fr, tail)
    case FinishCleared(tail) => FinishTrue(fr, tail)
    case FinishConsumed(tail, _) => FinishTrue(fr, tail)
    case Returned(outcome) => OutcomeTrue(fr, outcome)
    case _ => !fr.selfCancelled && fr.wait == NoWait
  }

  /** The three guards: the call has not given up waiting, has not found the abort flag set, and the
      kernel has completed its I/O. */
  predicate Undisturbed(fr: Frame) {
    !fr.selfCancelled && !fr.sawAbort && fr.kernel.Done? && fr.kernel.result.Completed?
  }

  lemma StartKeepsResult(s: Io, f: Fid, choice: Choice)
    requires f in s.frames && FrameCan(s, f, choice) && Starting(s.frames[f].pc) && FrameOk(s, f)
      && ResultTrue(s.frames[f])
    ensures ResultTrue(StartStep(s, f, choice).frames[f])
  {
  }

  lemma WaitKeepsResult(s: Io, f: Fid, choice: Choice)
    requires f in s.frames && FrameCan(s, f, choice) && InWait(s.frames[f].pc) && FrameOk(s, f)
    requires ResultTrue(s.frames[f])
    ensures ResultTrue(WaitStep(s, f, choice).frames[f])
  {
  }

  lemma FinishKeepsResult(s: Io, f: Fid, choice: Choice)
    requires f in s.frames && FrameCan(s, f, choice) && !Starting(s.frames[f].pc) && !InWait(s.frames[f].pc)
    requires FrameOk(s, f) && ResultTrue(s.frames[f])
    ensures ResultTrue(FinishStep(s, f, choice).frames[f])
  {
  }

  lemma OwnStepKeepsResult(s: Io, f: Fid, choice: Choice)
    requires f in s.frames && FrameCan(s, f, choice) && FrameOk(s, f) && ResultTrue(s.frames[f])
    ensures ResultTrue(After(s, FrameStep(f, choice)).frames[f])
  {
    if Starting(s.frames[f].pc) {
      StartKeepsResult(s, f, choice);
    } else if InWait(s.frames[f].pc) {
      WaitKeepsResult(s, f, choice);
    } else {
      FinishKeepsResult(s, f, choice);
    }
  }

  lemma OtherStepKeepsResult(s: Io, a: Action, f: Fid)
    requires Possible(s, a) && f in After(s, a).frames && !(a.FrameStep? && a.f == f)
    requires f in s.frames ==> FrameOk(s, f) && ResultTrue(s.frames[f])
    ensures ResultTrue(After(s, a).frames[f])
  {
  }

  lemma {:induction false} RunKeepsResult(s: Io, acts: seq<Action>, f: Fid)
    requires Good(s) && IsRun(s, acts) && (f in s.frames ==> ResultTrue(s.frames[f]))
    ensures f in Reach(s, acts).frames ==> ResultTrue(Reach(s, acts).frames[f])
    decreases |acts|
  {
    if acts != [] {
      var a := acts[0];
      StepKeepsGood(s, a);
      if a.FrameStep? && a.f == f {
        OwnStepKeepsResult(s, f, a.choice);
      } else if f in After(s, a).frames {
        OtherStepKeepsResult(s, a, f);
      }
      RunKeepsResult(After(s, a), acts[1..], f);
    }
  }

  /** How the wait of a frame at `pc` ends, or that there is no event for it, if its own step does that. */
  function WaitAfter(pc: Pc, choice: Choice, wait: WaitEnd): WaitEnd {
    if pc.New? && choice.FailNow? then NoEvent(choice.error)
    else if !pc.Waiting? then wait
    else if choice.TimeOut? then TimeUp
    else if choice.FailNow? then WaitBroke(choice.error)
    else EventSignalled
  }

  /** The two things a frame remembers are what happened: how its wait ended, or that it had no event to
      wait on, and what its last exchange found in the flag. */
  lemma FramesRecordOwn(s: Io, f: Fid, choice: Choice)
    requires f in s.frames && FrameCan(s, f, choice)
    ensures var fr, fr' := s.frames[f], After(s, FrameStep(f, choice)).frames[f];
      && fr'.wait == WaitAfter(fr.pc, choice, fr.wait)
      && fr'.sawAbort == if fr.pc.StartLocked? || fr.pc.FinishCleared? then s.flag else fr.sawAbort
  {
    if s.frames[f].pc.New? {
      NewRecords(s, f, choice);
    } else if Starting(s.frames[f].pc) {
      StartRecords(s, f, choice);
    } else if InWait(s.frames[f].pc) {
      WaitRecords(s, f, choice);
    } else {
      FinishRecords(s, f, choice);
    }
  }

  lemma NewRecords(s: Io, f: Fid, choice: Choice)
    requires f in s.frames && FrameCan(s, f, choice) && s.frames[f].pc.New?
    ensures var fr, fr' := s.frames[f], StartStep(s, f, choice).frames[f];
      fr'.wait == WaitAfter(fr.pc, choice, fr.wait) && fr'.sawAbort == fr.sawAbort
  {
  }

  lemma StartRecords(s: Io, f: Fid, choice: Choice)
    requires f in s.frames && FrameCan(s, f, choice) && Starting(s.frames[f].pc) && !s.frames[f].pc.New?
    ensures var fr, fr' := s.frames[f], StartStep(s, f, choice).frames[f];
      && fr'.wait == fr.wait
      && fr'.sawAbort == if fr.pc.StartLocked? then s.flag else fr.sawAbort
  {
  }

  lemma WaitRecords(s: Io, f: Fid, choice: Choice)
    requires f in s.frames && FrameCan(s, f, choice) && InWait(s.frames[f].pc)
    ensures var fr, fr' := s.frames[f], WaitStep(s, f, choice).frames[f];
      fr'.wait == WaitAfter(fr.pc, choice, fr.wait) && fr'.sawAbort == fr.sawAbort
  {
  }

  lemma FinishRecords(s: Io, f: Fid, choice: Choice)
    requires f in s.frames && FrameCan(s, f, choice) && !Starting(s.frames[f].pc) && !InWait(s.frames[f].pc)
    ensures var fr, fr' := s.frames[f], FinishStep(s, f, choice).frames[f];
      && fr'.wait == fr.wait
      && fr'.sawAbort == if fr.pc.FinishCleared? then s.flag else fr.sawAbort
  {
  }

  /** Nobody else changes what a frame remembers. */
  lemma FramesRecordOthers(s: Io, a: Action, f: Fid)
    requires Possible(s, a) && f in s.frames && !(a.FrameStep? && a.f == f)
    ensures f in After(s, a).frames
    ensures After(s, a).frames[f].wait == s.frames[f].wait && After(s, a).frames[f].sawAbort == s.frames[f].sawAbort
  {
  }

  /** Every outcome, over every run. A call that found the abort flag set is aborted. Any other reports a
      timeout if and only if its wait timed out; the error of its own failed wait or of the event it could
      not create; and otherwise what the kernel did: the bytes it completed, an abort if it was cancelled,
      the error it failed with. */
  lemma OutcomeIsDue(acts: seq<Action>, f: Fid)
    requires IsRun(INITIALLY, acts)
    requires f in Reach(INITIALLY, acts).frames && Reach(INITIALLY, acts).frames[f].pc.Returned?
    ensures var fr := Reach(INITIALLY, acts).frames[f];
      var outcome, waited := fr.pc.outcome, fr.wait.NoWait? || fr.wait.EventSignalled?;
      && (fr.sawAbort ==> outcome == Aborted)
      && (outcome == TimedOut <==> fr.wait == TimeUp && !fr.sawAbort)
      && (!fr.sawAbort && fr.wait.WaitBroke? ==> outcome == Error(fr.wait.error))
      && (!fr.sawAbort && fr.wait.NoEvent? ==> outcome == Error(fr.wait.error))
      && (!fr.sawAbort && waited ==> fr.kernel.Done?)
      && (!fr.sawAbort && waited && fr.kernel.result.Completed? ==> outcome == Transferred(fr.kernel.result.bytes))
      && (!fr.sawAbort && waited && fr.kernel.result.Cancelled? ==> outcome == Aborted)
      && (!fr.sawAbort && waited && fr.kernel.result.Failed? ==> outcome == Error(fr.kernel.result.error))
      && (fr.selfCancelled <==> fr.wait.TimeUp? || fr.wait.WaitBroke?)
  {
    RunKeepsResult(INITIALLY, acts, f);
  }

  /** When bytes have moved, the report is exact if and only if the call neither gave up waiting nor
      found the abort flag set, and the kernel completed its I/O. */
  lemma ReportIsExact(acts: seq<Action>, f: Fid)
    requires IsRun(INITIALLY, acts)
    requires f in Reach(INITIALLY, acts).frames && Reach(INITIALLY, acts).frames[f].pc.Returned?
    ensures var fr := Reach(INITIALLY, acts).frames[f];
      && (Moved(fr.kernel) == 0 ==> Reported(fr.pc.outcome) == 0)
      && (Moved(fr.kernel) > 0 ==> (Reported(fr.pc.outcome) == Moved(fr.kernel) <==> Undisturbed(fr)))
  {
    RunKeepsResult(INITIALLY, acts, f);
  }

  // ----- A call that times out after five bytes have moved -----

  function Alone(lock: Lock, pc: Pc, kernel: Kernel, gaveUp: bool): Io {
    Io(false, if Published(pc) then Some(0) else None, lock,
       map[0 := Frame(pc, kernel, false, false, gaveUp, if Starting(pc) || pc.Waiting? then NoWait else TimeUp)],
       map[])
  }

  lemma TheCallBegins()
    ensures SoloReachable(Alone(Free, New, NotIssued, false))
  {
    InitiallyReachable();
    Step(INITIALLY, Begin(0), Alone(Free, New, NotIssued, false));
  }

  lemma TheCallPassesItsCheck()
    ensures SoloReachable(Alone(ByFrame(0), StartChecked, NotIssued, false))
  {
    TheCallBegins();
    StartTo(Alone(Free, New, NotIssued, false), 0, Go, Alone(ByFrame(0), StartLocked, NotIssued, false));
    StartTo(Alone(ByFrame(0), StartLocked, NotIssued, false), 0, Go, Alone(ByFrame(0), StartChecked, NotIssued, false));
  }

  lemma TheCallWaits()
    ensures SoloReachable(Alone(Free, Waiting, Issued(false), false))
  {
    TheCallPassesItsCheck();
    var s1 := Alone(ByFrame(0), StartPublished, NotIssued, false);
    var s2 := Alone(ByFrame(0), StartIssued(None), Issued(false), false);
    StartTo(Alone(ByFrame(0), StartChecked, NotIssued, false), 0, Go, s1);
    StartTo(s1, 0, Go, s2);
    StartTo(s2, 0, Go, Alone(Free, Waiting, Issued(false), false));
  }

  /** The wait times out, then the I/O completes with five bytes. */
  lemma TheBytesMove()
    ensures SoloReachable(Alone(Free, Cancelling(DrainedTimeout), Done(Completed(5)), false))
  {
    TheCallWaits();
    var s1 := Alone(Free, Cancelling(DrainedTimeout), Issued(false), false);
    WaitTo(Alone(Free, Waiting, Issued(false), false), 0, TimeOut, s1);
    Step(s1, KernelStep(0, Completed(5)), Alone(Free, Cancelling(DrainedTimeout), Done(Completed(5)), false));
  }

  lemma TheCancelIsTooLate()
    ensures SoloReachable(Alone(Free, NeedFinish(DrainedTimeout), Done(Completed(5)), true))
  {
    TheBytesMove();
    var s1 := Alone(Free, Draining(DrainedTimeout), Done(Completed(5)), true);
    WaitTo(Alone(Free, Cancelling(DrainedTimeout), Done(Completed(5)), false), 0, Go, s1);
    WaitTo(s1, 0, Go, Alone(Free, NeedFinish(DrainedTimeout), Done(Completed(5)), true));
  }

  lemma TheCallFinishes()
    ensures SoloReachable(Alone(ByFrame(0), FinishCleared(DrainedTimeout), Done(Completed(5)), true))
  {
    TheCancelIsTooLate();
    var s1 := Alone(ByFrame(0), FinishLocked(DrainedTimeout), Done(Completed(5)), true);
    FinishTo(Alone(Free, NeedFinish(DrainedTimeout), Done(Completed(5)), true), 0, s1);
    FinishTo(s1, 0, Alone(ByFrame(0), FinishCleared(DrainedTimeout), Done(Completed(5)), true));
  }

  ghost predicate LosesBytes(s: Io, f: Fid) {
    f in s.frames && s.frames[f].pc == Returned(TimedOut) && Moved(s.frames[f].kernel) > 0
  }

  /** Without any abort request a call can time out although bytes have moved: they are lost to its
      caller. */
  lemma TimedOutCallCanLoseBytes()
    ensures exists s :: SoloReachable(s) && s.aborters == map[] && LosesBytes(s, 0)
  {
    TheCallFinishes();
    var s1 := Alone(ByFrame(0), FinishConsumed(DrainedTimeout, false), Done(Completed(5)), true);
    var s2 := Alone(Free, Returned(TimedOut), Done(Completed(5)), true);
    FinishTo(Alone(ByFrame(0), FinishCleared(DrainedTimeout), Done(Completed(5)), true), 0, s1);
    FinishTo(s1, 0, s2);
    assert LosesBytes(s2, 0);
  }
}
