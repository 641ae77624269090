/** The critical sections of one chunk call, each taken as a whole: what running it without a step
    of anybody else in between makes of the protocol state. */
module ChunkSections {
  import opened Options
  import opened PendingIo

  ghost predicate Reachable(s: Io) {
    exists acts :: IsRun(INITIALLY, acts) && Reach(INITIALLY, acts) == s
  }

  lemma Then(s: Io, a: Action)
    requires Reachable(s) && Possible(s, a)
    ensures Reachable(After(s, a))
  {
    var acts :| IsRun(INITIALLY, acts) && Reach(INITIALLY, acts) == s;
    RunSnoc(INITIALLY, acts, a);
  }

  /** The frame moves to `fr`; flag, slot and lock as given; the rest stays. */
  function Put(s: Io, f: Fid, fr: Frame, flag: bool, slot: Option<Fid>, lock: Lock): Io {
    s.(frames := s.frames[f := fr], flag := flag, slot := slot, lock := lock)
  }

  /** startPendingIo meeting a set flag. */
  lemma StartMeetsAbort(s: Io, f: Fid)
    requires Reachable(s) && f in s.frames && s.frames[f].pc.New? && s.lock.Free? && s.flag
    ensures Reachable(Put(s, f, s.frames[f].(pc := Returned(Aborted), sawAbort := true), false, s.slot, Free))
  {
    var s1 := After(s, FrameStep(f, Go));
    Then(s, FrameStep(f, Go));
    var s2 := After(s1, FrameStep(f, Go));
    Then(s1, FrameStep(f, Go));
    Then(s2, FrameStep(f, Go));
    assert After(s2, FrameStep(f, Go)) ==
      Put(s, f, s.frames[f].(pc := Returned(Aborted), sawAbort := true), false, s.slot, Free);
  }

  lemma StartPassesCheck(s: Io, f: Fid)
    requires Reachable(s) && f in s.frames && s.frames[f].pc.New? && s.lock.Free? && !s.flag
    ensures Reachable(Put(s, f, s.frames[f].(pc := StartChecked, sawAbort := false), false, s.slot, ByFrame(f)))
  {
    var s1 := After(s, FrameStep(f, Go));
    Then(s, FrameStep(f, Go));
    Then(s1, FrameStep(f, Go));
    assert After(s1, FrameStep(f, Go)) ==
      Put(s, f, s.frames[f].(pc := StartChecked, sawAbort := false), false, s.slot, ByFrame(f));
  }

  function IssuedAs(choice: Choice): Frame -> Frame {
    (fr: Frame) =>
      match choice
      case CompleteNow(bytes) => fr.(pc := NeedFinish(SyncDone(bytes)), kernel := Done(Completed(bytes)))
      case FailNow(error) => fr.(pc := NeedFinish(SyncFailed(error)), kernel := Done(Failed(error)))
      case _ => fr.(pc := Waiting, kernel := Issued(false))
  }

  lemma StartPublishes(s: Io, f: Fid)
    requires Reachable(s) && f in s.frames && s.frames[f].pc.StartChecked?
    ensures Reachable(Put(s, f, s.frames[f].(pc := StartPublished), s.flag, Some(f), s.lock))
  {
    Then(s, FrameStep(f, Go));
  }

  function Next(choice: Choice): Option<Tail> {
    match choice
    case CompleteNow(bytes) => Some(SyncDone(bytes))
    case FailNow(error) => Some(SyncFailed(error))
    case _ => None
  }

  /** The frame once ReadFile or WriteFile has returned, the mutex still held. */
  function CalledAs(choice: Choice, fr: Frame): Frame {
    fr.(pc := StartIssued(Next(choice)), kernel := IssuedAs(choice)(fr).kernel)
  }

  lemma StartRuns(s: Io, f: Fid, choice: Choice)
    requires Reachable(s) && f in s.frames && s.frames[f].pc.StartPublished? && !choice.TimeOut?
    ensures Reachable(Put(s, f, CalledAs(choice, s.frames[f]), s.flag, s.slot, s.lock))
  {
    Then(s, FrameStep(f, choice));
    assert After(s, FrameStep(f, choice)) == Put(s, f, CalledAs(choice, s.frames[f]), s.flag, s.slot, s.lock);
  }

  lemma StartUnlocks(s: Io, f: Fid)
    requires Reachable(s) && f in s.frames && s.frames[f].pc.StartIssued?
    ensures var next := s.frames[f].pc.next;
      Reachable(Put(s, f, s.frames[f].(pc := if next.None? then Waiting else NeedFinish(next.value)), s.flag, s.slot,
                    Free))
  {
    Then(s, FrameStep(f, Go));
  }

  lemma StartCalls(s: Io, f: Fid, choice: Choice)
    requires Reachable(s) && f in s.frames && s.frames[f].pc.StartPublished? && s.lock == ByFrame(f) && !choice.TimeOut?
    ensures Reachable(Put(s, f, IssuedAs(choice)(s.frames[f]), s.flag, s.slot, Free))
  {
    StartRuns(s, f, choice);
    var fr := CalledAs(choice, s.frames[f]);
    StartUnlocks(Put(s, f, fr, s.flag, s.slot, s.lock), f);
    PutPut(s, f, fr, IssuedAs(choice)(s.frames[f]), s.flag, s.flag, s.slot, s.slot, s.lock, Free);
  }

  lemma StartIssues(s: Io, f: Fid, choice: Choice)
    requires Reachable(s) && f in s.frames && s.frames[f].pc.StartChecked? && s.lock == ByFrame(f) && !choice.TimeOut?
    ensures Reachable(Put(s, f, IssuedAs(choice)(s.frames[f]), s.flag, Some(f), Free))
  {
    StartPublishes(s, f);
    var fr := s.frames[f].(pc := StartPublished);
    StartCalls(Put(s, f, fr, s.flag, Some(f), s.lock), f, choice);
    PutPut(s, f, fr, IssuedAs(choice)(fr), s.flag, s.flag, Some(f), Some(f), s.lock, Free);
  }

  /** startPendingIo with a clear flag. */
  lemma StartSection(s: Io, f: Fid, choice: Choice)
    requires Reachable(s) && f in s.frames && s.frames[f].pc.New? && s.lock.Free? && !s.flag && !choice.TimeOut?
    ensures Reachable(Put(s, f, IssuedAs(choice)(s.frames[f].(sawAbort := false)), false, Some(f), Free))
  {
    StartPassesCheck(s, f);
    var s1 := Put(s, f, s.frames[f].(pc := StartChecked, sawAbort := false), false, s.slot, ByFrame(f));
    StartIssues(s1, f, choice);
    PutPut(s, f, s1.frames[f], IssuedAs(choice)(s1.frames[f]), false, false, s.slot, Some(f), ByFrame(f), Free);
  }

  lemma PutPut(s: Io, f: Fid, fr: Frame, fr': Frame, flag: bool, flag': bool, slot: Option<Fid>, slot': Option<Fid>,
               lock: Lock, lock': Lock)
    ensures Put(Put(s, f, fr, flag, slot, lock), f, fr', flag', slot', lock') == Put(s, f, fr', flag', slot', lock')
  {
  }

  /** A timed-out or failed wait, and the frame's own CancelIoEx. */
  function GivenUp(choice: Choice): WaitEnd
    requires choice.TimeOut? || choice.FailNow?
  {
    if choice.TimeOut? then TimeUp else WaitBroke(choice.error)
  }

  /** The frame once it has given up waiting and cancelled its own I/O. */
  function GaveUp(fr: Frame, tail: Tail, choice: Choice): Frame
    requires choice.TimeOut? || choice.FailNow?
  {
    fr.(pc := Draining(tail), kernel := CancelIo(fr.kernel), selfCancelled := true, wait := GivenUp(choice))
  }

  lemma GiveUp(s: Io, f: Fid, choice: Choice)
    requires Reachable(s) && f in s.frames && s.frames[f].pc.Waiting? && (choice.TimeOut? || choice.FailNow?)
    ensures var tail := if choice.TimeOut? then DrainedTimeout else DrainedFailure(choice.error);
      var fr := s.frames[f];
      Reachable(Put(s, f, GaveUp(fr, tail, choice), s.flag, s.slot, s.lock))
  {
    var tail := if choice.TimeOut? then DrainedTimeout else DrainedFailure(choice.error);
    var fr := s.frames[f];
    var s1 := After(s, FrameStep(f, choice));
    Then(s, FrameStep(f, choice));
    Then(s1, FrameStep(f, Go));
    assert After(s1, FrameStep(f, Go)) == Put(s, f, GaveUp(fr, tail, choice), s.flag, s.slot, s.lock);
  }

  /** The wait, or the drain, ends: the kernel is done with the frame. */
  lemma WaitEnds(s: Io, f: Fid)
    requires Reachable(s) && f in s.frames && (s.frames[f].pc.Waiting? || s.frames[f].pc.Draining?)
      && s.frames[f].kernel.Done?
    ensures var fr := s.frames[f];
      var tail := if fr.pc.Waiting? then Signalled(fr.kernel.result) else fr.pc.tail;
      var wait := if fr.pc.Waiting? then EventSignalled else fr.wait;
      Reachable(Put(s, f, fr.(pc := NeedFinish(tail), wait := wait), s.flag, s.slot, s.lock))
  {
    Then(s, FrameStep(f, Go));
  }

  lemma FinishLocks(s: Io, f: Fid)
    requires Reachable(s) && f in s.frames && s.frames[f].pc.NeedFinish? && s.lock.Free?
    ensures Reachable(Put(s, f, s.frames[f].(pc := FinishLocked(s.frames[f].pc.tail)), s.flag, s.slot, ByFrame(f)))
  {
    Then(s, FrameStep(f, Go));
  }

  lemma FinishClears(s: Io, f: Fid)
    requires Reachable(s) && f in s.frames && s.frames[f].pc.FinishLocked?
    ensures Reachable(Put(s, f, s.frames[f].(pc := FinishCleared(s.frames[f].pc.tail)), s.flag,
                          if s.slot == Some(f) then None else s.slot, s.lock))
  {
    Then(s, FrameStep(f, Go));
  }

  lemma FinishDecides(s: Io, f: Fid)
    requires Reachable(s) && f in s.frames && s.frames[f].pc.FinishCleared? && s.lock == ByFrame(f)
    ensures Reachable(Put(s, f, s.frames[f].(pc := Returned(Decide(s.frames[f].pc.tail, s.flag)), sawAbort := s.flag),
                          false, s.slot, Free))
  {
    var s1 := After(s, FrameStep(f, Go));
    Then(s, FrameStep(f, Go));
    Then(s1, FrameStep(f, Go));
    assert After(s1, FrameStep(f, Go)) ==
      Put(s, f, s.frames[f].(pc := Returned(Decide(s.frames[f].pc.tail, s.flag)), sawAbort := s.flag), false, s.slot,
          Free);
  }

  /** finishPendingIo as one section. */
  lemma FinishSection(s: Io, f: Fid)
    requires Reachable(s) && f in s.frames && s.frames[f].pc.NeedFinish? && s.lock.Free?
    ensures Reachable(Put(s, f, s.frames[f].(pc := Returned(Decide(s.frames[f].pc.tail, s.flag)), sawAbort := s.flag),
                          false, if s.slot == Some(f) then None else s.slot, Free))
  {
    var tail := s.frames[f].pc.tail;
    FinishLocks(s, f);
    var locked := s.frames[f].(pc := FinishLocked(tail));
    var s1 := Put(s, f, locked, s.flag, s.slot, ByFrame(f));
    FinishClears(s1, f);
    var slot := if s.slot == Some(f) then None else s.slot;
    var cleared := s.frames[f].(pc := FinishCleared(tail));
    PutPut(s, f, locked, cleared, s.flag, s.flag, s.slot, slot, ByFrame(f), ByFrame(f));
    FinishDecides(Put(s, f, cleared, s.flag, slot, ByFrame(f)), f);
    var returned := s.frames[f].(pc := Returned(Decide(tail, s.flag)), sawAbort := s.flag);
    PutPut(s, f, cleared, returned, s.flag, false, slot, slot, ByFrame(f), Free);
  }

  /** The locked half of requestAbort as one section. */
  function CancelledBy(s: Io, a: Aid): Io
    requires a in s.aborters && (s.slot.Some? ==> s.slot.value in s.frames)
  {
    var s' := s.(aborters := s.aborters[a := Finished(s.aborters[a].targets, s.slot.Some?)]);
    if s.slot.None? then s'
    else
      var fr := s.frames[s.slot.value];
      s'.(frames := s.frames[s.slot.value := fr.(kernel := CancelIo(fr.kernel), hit := true)])
  }

  lemma CancelSection(s: Io, a: Aid)
    requires Reachable(s) && a in s.aborters && s.aborters[a].Stored? && s.lock.Free?
    requires s.slot.Some? ==> s.slot.value in s.frames
    ensures Reachable(CancelledBy(s, a))
  {
    var s1 := After(s, AbortLock(a));
    Then(s, AbortLock(a));
    Then(s1, AbortCancel(a));
    assert After(s1, AbortCancel(a)) == CancelledBy(s, a);
  }

  /** What PendingIo proves of runs holds of every reachable state: no call has returned while the
      kernel owned its I/O, and no more calls were aborted than the requests allow. */
  lemma ReachableIsAccounted(s: Io)
    requires Reachable(s)
    ensures forall f :: f in s.frames && s.frames[f].pc.Returned? ==> !s.frames[f].kernel.Issued?
    ensures |AbortedCalls(s)| <= 2 * |s.aborters|
    ensures s.aborters == map[] ==> AbortedCalls(s) == {}
  {
    var acts :| IsRun(INITIALLY, acts) && Reach(INITIALLY, acts) == s;
    AbortsAreAccountedFor(acts);
    forall f | f in s.frames && s.frames[f].pc.Returned? ensures !s.frames[f].kernel.Issued? {
      NoFrameReturnsEarly(acts, f);
    }
  }
}
