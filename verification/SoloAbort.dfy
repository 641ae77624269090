/** The abort protocol when each direction has one operation at a time, with any number of
    concurrent abort requests: an operation in flight at the flag store cannot escape. */
module SoloAbort {
  import opened Options
  import opened PendingIo

  predicate Live(s: Io, f: Fid) {
    f in s.frames && !s.frames[f].pc.Returned?
  }

  predicate AllReturned(s: Io) {
    forall f :: f in s.frames ==> s.frames[f].pc.Returned?
  }

  /** A chunk call begins only after the previous one has returned. */
  predicate SoloRun(s: Io, acts: seq<Action>)
    requires IsRun(s, acts)
    decreases |acts|
  {
    acts == [] || ((acts[0].Begin? ==> AllReturned(s)) && SoloRun(After(s, acts[0]), acts[1..]))
  }

  predicate OneLive(s: Io, f: Fid, g: Fid) {
    Live(s, f) && Live(s, g) ==> f == g
  }

  predicate SlotHeld(s: Io, f: Fid) {
    f in s.frames && Published(s.frames[f].pc) ==> s.slot == Some(f)
  }

  /** A frame in flight when request `a` stored the flag: it has consumed the flag, or the flag is
      still set for it; and once `a` is done it has consumed the flag or been cancelled. */
  predicate TargetOk(s: Io, a: Aid, f: Fid) {
    a in s.aborters && f in s.aborters[a].targets ==>
      && f in s.frames
      && (s.frames[f].sawAbort ||
          (InFlight(s.frames[f].pc) && s.flag && (s.aborters[a].Finished? ==> s.frames[f].hit)))
  }

  ghost predicate Solo(s: Io) {
    && (forall f, g :: OneLive(s, f, g))
    && (forall f :: SlotHeld(s, f))
    && (forall a, f :: TargetOk(s, a, f))
  }

  /** Nobody comes to life but by beginning. */
  lemma StepKeepsReturned(s: Io, a: Action, f: Fid)
    requires Possible(s, a) && Live(After(s, a), f) && !(a.Begin? && a.f == f)
    ensures Live(s, f)
  {
  }

  lemma StepKeepsOneLive(s: Io, a: Action, f: Fid, g: Fid)
    requires Possible(s, a) && OneLive(s, f, g) && (a.Begin? ==> AllReturned(s))
    ensures OneLive(After(s, a), f, g)
  {
    if Live(After(s, a), f) && Live(After(s, a), g) {
      if !(a.Begin? && a.f == f) { StepKeepsReturned(s, a, f); }
      if !(a.Begin? && a.f == g) { StepKeepsReturned(s, a, g); }
    }
  }

  lemma StartStepKeepsSlot(s: Io, f: Fid, choice: Choice, g: Fid)
    requires f in s.frames && FrameCan(s, f, choice) && Starting(s.frames[f].pc)
    requires SlotHeld(s, g) && OneLive(s, f, g)
    ensures SlotHeld(StartStep(s, f, choice), g)
  {
  }

  lemma LaterStepKeepsSlot(s: Io, f: Fid, choice: Choice, g: Fid)
    requires f in s.frames && FrameCan(s, f, choice) && !Starting(s.frames[f].pc)
    requires SlotHeld(s, g) && OneLive(s, f, g)
    ensures SlotHeld(After(s, FrameStep(f, choice)), g)
  {
  }

  lemma OtherKeepsSlot(s: Io, a: Action, g: Fid)
    requires Possible(s, a) && !a.FrameStep? && SlotHeld(s, g)
    ensures SlotHeld(After(s, a), g)
  {
  }

  lemma StepKeepsSlot(s: Io, a: Action, g: Fid)
    requires Possible(s, a) && SlotHeld(s, g)
    requires a.FrameStep? ==> OneLive(s, a.f, g)
    ensures SlotHeld(After(s, a), g)
  {
    if !a.FrameStep? {
      OtherKeepsSlot(s, a, g);
    } else if Starting(s.frames[a.f].pc) {
      StartStepKeepsSlot(s, a.f, a.choice, g);
    } else {
      LaterStepKeepsSlot(s, a.f, a.choice, g);
    }
  }

  lemma FrameStepKeepsTarget(s: Io, a: Action, x: Aid, f: Fid)
    requires a.FrameStep? && Possible(s, a) && TargetOk(s, x, f) && OneLive(s, a.f, f) && FrameOk(s, a.f)
    ensures TargetOk(After(s, a), x, f)
  {
  }

  lemma OtherKeepsTarget(s: Io, a: Action, x: Aid, f: Fid)
    requires !a.FrameStep? && Possible(s, a) && TargetOk(s, x, f)
    requires SlotHeld(s, f) && (f in s.frames ==> FrameOk(s, f))
    requires x in s.aborters ==> AborterOk(s, x)
    ensures TargetOk(After(s, a), x, f)
  {
  }

  lemma StepKeepsSolo(s: Io, a: Action)
    requires Good(s) && Solo(s) && Possible(s, a) && (a.Begin? ==> AllReturned(s))
    ensures Solo(After(s, a))
  {
    var s' := After(s, a);
    forall f, g ensures OneLive(s', f, g) { assert OneLive(s, f, g); StepKeepsOneLive(s, a, f, g); }
    forall f ensures SlotHeld(s', f) {
      assert SlotHeld(s, f);
      if a.FrameStep? { assert OneLive(s, a.f, f); }
      StepKeepsSlot(s, a, f);
    }
    forall x, f ensures TargetOk(s', x, f) {
      assert TargetOk(s, x, f) && SlotHeld(s, f);
      if a.FrameStep? {
        assert OneLive(s, a.f, f);
        FrameStepKeepsTarget(s, a, x, f);
      } else {
        OtherKeepsTarget(s, a, x, f);
      }
    }
  }

  lemma {:induction false} RunKeepsSolo(s: Io, acts: seq<Action>)
    requires Good(s) && Solo(s) && IsRun(s, acts) && SoloRun(s, acts)
    ensures Good(Reach(s, acts)) && Solo(Reach(s, acts))
    decreases |acts|
  {
    if acts != [] {
      StepKeepsGood(s, acts[0]);
      StepKeepsSolo(s, acts[0]);
      RunKeepsSolo(After(s, acts[0]), acts[1..]);
    }
  }

  /** One operation per direction: when a request is done, every operation that was in flight at its
      store has consumed the abort or has had CancelIoEx issued on it; and whenever such an operation
      returns it returns kAborted, even if the kernel completed it before the cancel. */
  lemma InFlightOperationsAbort(acts: seq<Action>, a: Aid, f: Fid)
    requires IsRun(INITIALLY, acts) && SoloRun(INITIALLY, acts)
    requires a in Reach(INITIALLY, acts).aborters && f in Reach(INITIALLY, acts).aborters[a].targets
    ensures var s := Reach(INITIALLY, acts);
      && f in s.frames
      && (s.aborters[a].Finished? ==> s.frames[f].sawAbort || s.frames[f].hit)
      && (s.frames[f].pc.Returned? ==> s.frames[f].pc.outcome == Aborted)
  {
    RunKeepsSolo(INITIALLY, acts);
    var s := Reach(INITIALLY, acts);
    assert TargetOk(s, a, f);
    assert FrameOk(s, f);
  }

  // ----- Runs with one operation at a time, step by step -----

  ghost predicate SoloReachable(s: Io) {
    exists acts :: IsRun(INITIALLY, acts) && SoloRun(INITIALLY, acts) && Reach(INITIALLY, acts) == s
  }

  lemma {:induction false} SoloSnoc(s: Io, acts: seq<Action>, a: Action)
    requires IsRun(s, acts) && SoloRun(s, acts) && Possible(Reach(s, acts), a)
    requires a.Begin? ==> AllReturned(Reach(s, acts))
    ensures IsRun(s, acts + [a]) && SoloRun(s, acts + [a])
    decreases |acts|
  {
    RunSnoc(s, acts, a);
    if acts == [] {
      assert [] + [a] == [a] && [a][1..] == [];
    } else {
      assert (acts + [a])[1..] == acts[1..] + [a];
      SoloSnoc(After(s, acts[0]), acts[1..], a);
    }
  }

  /** One step between two states given in full. */
  lemma Step(s: Io, a: Action, s': Io)
    requires SoloReachable(s) && Possible(s, a) && (a.Begin? ==> AllReturned(s))
    requires After(s, a) == s'
    ensures SoloReachable(s')
  {
    var acts :| IsRun(INITIALLY, acts) && SoloRun(INITIALLY, acts) && Reach(INITIALLY, acts) == s;
    SoloSnoc(INITIALLY, acts, a);
    RunSnoc(INITIALLY, acts, a);
  }

  lemma StartTo(s: Io, f: Fid, choice: Choice, s': Io)
    requires SoloReachable(s) && f in s.frames && FrameCan(s, f, choice) && Starting(s.frames[f].pc)
    requires StartStep(s, f, choice) == s'
    ensures SoloReachable(s')
  {
    Step(s, FrameStep(f, choice), s');
  }

  lemma WaitTo(s: Io, f: Fid, choice: Choice, s': Io)
    requires SoloReachable(s) && f in s.frames && FrameCan(s, f, choice) && InWait(s.frames[f].pc)
    requires WaitStep(s, f, choice) == s'
    ensures SoloReachable(s')
  {
    Step(s, FrameStep(f, choice), s');
  }

  lemma FinishTo(s: Io, f: Fid, s': Io)
    requires SoloReachable(s) && f in s.frames && FrameCan(s, f, Go)
    requires !Starting(s.frames[f].pc) && !InWait(s.frames[f].pc) && FinishStep(s, f, Go) == s'
    ensures SoloReachable(s')
  {
    Step(s, FrameStep(f, Go), s');
  }

  lemma InitiallyReachable()
    ensures SoloReachable(INITIALLY)
  {
    assert Reach(INITIALLY, []) == INITIALLY;
  }
}
