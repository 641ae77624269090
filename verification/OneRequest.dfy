/** How many operations one abort request can abort, with one operation at a time: its flag store and
    its later locked cancel can fall on two different ones. When they do, exactly; a run in which
    both operations abort; and the runs in which aborted operations never outnumber requests. */
module OneRequest {
  import opened Options
  import opened PendingIo
  import opened SoloAbort

  // ----- Two operations, exactly when -----

  /** The call whose flag exchange comes first. */
  function Consumer(s: Io, acts: seq<Action>): Option<Fid>
    requires IsRun(s, acts)
    decreases |acts|
  {
    if acts == [] then None
    else if Exchanges(s, acts[0]) then Some(acts[0].f)
    else Consumer(After(s, acts[0]), acts[1..])
  }

  /** Request `a` has stored the flag and no exchange has come since: no call has passed its start
      check, so `f`, if it is in flight, already was at the store. */
  predicate Unconsumed(s: Io, a: Aid, f: Fid) {
    && s.flag && a in s.aborters
    && (f in s.frames && InFlight(s.frames[f].pc) ==> f in s.aborters[a].targets)
  }

  lemma StoreIsUnconsumed(s: Io, a: Aid, f: Fid)
    requires Possible(s, Store(a))
    ensures Unconsumed(After(s, Store(a)), a, f)
  {
  }

  lemma StaysUnconsumed(s: Io, a: Aid, step: Action, f: Fid)
    requires Possible(s, step) && !Exchanges(s, step) && Unconsumed(s, a, f)
    ensures Unconsumed(After(s, step), a, f)
  {
  }

  /** Once the store is consumed, every call that was in flight at it has seen the abort. */
  predicate SawIfTarget(s: Io, a: Aid, f: Fid) {
    && a in s.aborters
    && (f in s.aborters[a].targets ==> f in s.frames && s.frames[f].sawAbort)
  }

  lemma ExchangeConsumes(s: Io, a: Aid, step: Action, f: Fid)
    requires Possible(s, step) && Exchanges(s, step) && a in s.aborters
    requires TargetOk(After(s, step), a, f)
    ensures SawIfTarget(After(s, step), a, f)
  {
  }

  lemma StaysSeen(s: Io, a: Aid, step: Action, f: Fid)
    requires Possible(s, step) && SawIfTarget(s, a, f) && (f in s.frames ==> FrameOk(s, f))
    ensures SawIfTarget(After(s, step), a, f)
  {
    if f in s.frames && s.frames[f].sawAbort {
      SawAbortStep(s, step, f);
    }
  }

  lemma {:induction false} SeenForGood(s: Io, a: Aid, acts: seq<Action>, f: Fid)
    requires Good(s) && IsRun(s, acts) && SawIfTarget(s, a, f)
    ensures SawIfTarget(Reach(s, acts), a, f)
    decreases |acts|
  {
    if acts != [] {
      StaysSeen(s, a, acts[0], f);
      StepKeepsGood(s, acts[0]);
      SeenForGood(After(s, acts[0]), a, acts[1..], f);
    }
  }

  /** From a state in which the store of `a` is unconsumed: it stays so, or somebody consumes it. */
  lemma {:induction false} ConsumedOrNot(s: Io, a: Aid, acts: seq<Action>, f: Fid)
    requires Good(s) && Solo(s) && IsRun(s, acts) && SoloRun(s, acts) && Unconsumed(s, a, f)
    ensures var consumer, end := Consumer(s, acts), Reach(s, acts);
      if consumer.None? then Unconsumed(end, a, f)
      else SawIfTarget(end, a, f) && consumer.value in end.frames && end.frames[consumer.value].sawAbort
    decreases |acts|
  {
    if acts != [] {
      var s' := After(s, acts[0]);
      StepKeepsGood(s, acts[0]);
      StepKeepsSolo(s, acts[0]);
      if Exchanges(s, acts[0]) {
        assert TargetOk(s', a, f);
        ExchangeConsumes(s, a, acts[0], f);
        SeenForGood(s', a, acts[1..], f);
        SawAbortStays(s', acts[1..], acts[0].f);
      } else {
        StaysUnconsumed(s, a, acts[0], f);
        ConsumedOrNot(s', a, acts[1..], f);
      }
    }
  }

  /** At the locked cancel of `a`, with `f` in the slot: if nobody has consumed the store yet, `f` was
      in flight at it; otherwise `f` was not, and the call that consumed it is another one, which
      has returned kAborted. */
  lemma WhoIsStruck(s: Io, a: Aid, acts: seq<Action>, f: Fid)
    requires Good(s) && Solo(s) && Possible(s, Store(a))
    requires IsRun(After(s, Store(a)), acts) && SoloRun(After(s, Store(a)), acts)
    requires Reach(After(s, Store(a)), acts).slot == Some(f)
    ensures var s1 := After(s, Store(a));
      var consumer, s2 := Consumer(s1, acts), Reach(s1, acts);
      && Good(s2) && Solo(s2) && a in s2.aborters && f in s2.frames && InFlight(s2.frames[f].pc)
      && (consumer.None? <==> f in s2.aborters[a].targets)
      && (consumer.Some? ==>
        consumer.value != f && consumer.value in s2.frames && s2.frames[consumer.value].pc == Returned(Aborted))
  {
    var s1 := After(s, Store(a));
    StepKeepsGood(s, Store(a));
    StepKeepsSolo(s, Store(a));
    StoreIsUnconsumed(s, a, f);
    ConsumedOrNot(s1, a, acts, f);
    RunKeepsSolo(s1, acts);
    var s2 := Reach(s1, acts);
    assert FrameOk(s2, f);
    if Consumer(s1, acts).Some? {
      var g := Consumer(s1, acts).value;
      assert FrameOk(s2, g) && OneLive(s2, f, g);
    }
  }

  /** While `f` is in flight it is the only one that can exchange the flag. */
  lemma {:induction false} NextConsumer(s: Io, acts: seq<Action>, f: Fid)
    requires Good(s) && Solo(s) && IsRun(s, acts) && SoloRun(s, acts)
    requires f in s.frames && InFlight(s.frames[f].pc)
    ensures Consumer(s, acts).Some? ==> Consumer(s, acts).value == f
    decreases |acts|
  {
    if acts != [] {
      if acts[0].FrameStep? {
        assert OneLive(s, acts[0].f, f);
      }
      if !Exchanges(s, acts[0]) {
        StepKeepsGood(s, acts[0]);
        StepKeepsSolo(s, acts[0]);
        StaysInFlight(s, acts[0], f);
        NextConsumer(After(s, acts[0]), acts[1..], f);
      }
    }
  }

  lemma StaysInFlight(s: Io, a: Action, f: Fid)
    requires Possible(s, a) && !Exchanges(s, a) && f in s.frames && InFlight(s.frames[f].pc)
    ensures f in After(s, a).frames && InFlight(After(s, a).frames[f].pc)
  {
    if a.FrameStep? && a.f == f {
      OwnStepStaysInFlight(s, f, a.choice);
    }
  }

  lemma OwnStepStaysInFlight(s: Io, f: Fid, choice: Choice)
    requires f in s.frames && FrameCan(s, f, choice) && InFlight(s.frames[f].pc) && !s.frames[f].pc.FinishCleared?
    ensures InFlight(After(s, FrameStep(f, choice)).frames[f].pc)
  {
    if Starting(s.frames[f].pc) {
      StartStaysInFlight(s, f, choice);
    } else if InWait(s.frames[f].pc) {
      WaitStaysInFlight(s, f, choice);
    }
  }

  lemma StartStaysInFlight(s: Io, f: Fid, choice: Choice)
    requires f in s.frames && FrameCan(s, f, choice) && Starting(s.frames[f].pc) && InFlight(s.frames[f].pc)
    ensures InFlight(StartStep(s, f, choice).frames[f].pc)
  {
  }

  lemma WaitStaysInFlight(s: Io, f: Fid, choice: Choice)
    requires f in s.frames && FrameCan(s, f, choice) && InWait(s.frames[f].pc)
    ensures InFlight(WaitStep(s, f, choice).frames[f].pc)
  {
  }

  /** The call that consumes the store of `a`: before the cancel of `a` or after it. */
  function ConsumerOf(s: Io, a: Aid, before: seq<Action>, after: seq<Action>): Option<Fid>
    requires IsRun(s, before) && Possible(Reach(s, before), AbortCancel(a))
    requires IsRun(After(Reach(s, before), AbortCancel(a)), after)
  {
    if Consumer(s, before).Some? then Consumer(s, before)
    else Consumer(After(Reach(s, before), AbortCancel(a)), after)
  }

  /** One request falls on two operations if and only if, when its cancel comes, one call has already
      consumed its store and another one stands in the slot. */
  lemma RequestFallsOnTwo(s: Io, a: Aid, before: seq<Action>, after: seq<Action>)
    requires Good(s) && Solo(s) && Possible(s, Store(a))
    requires IsRun(After(s, Store(a)), before) && SoloRun(After(s, Store(a)), before)
    requires Possible(Reach(After(s, Store(a)), before), AbortCancel(a))
    requires var s3 := After(Reach(After(s, Store(a)), before), AbortCancel(a));
      IsRun(s3, after) && SoloRun(s3, after)
    ensures var s1 := After(s, Store(a));
      var struck, consumer := Reach(s1, before).slot, ConsumerOf(s1, a, before, after);
      struck.Some? && consumer.Some? && struck != consumer <==> struck.Some? && Consumer(s1, before).Some?
  {
    var s1 := After(s, Store(a));
    var s2 := Reach(s1, before);
    if s2.slot.Some? {
      var f := s2.slot.value;
      WhoIsStruck(s, a, before, f);
      if Consumer(s1, before).None? {
        StepKeepsGood(s2, AbortCancel(a));
        StepKeepsSolo(s2, AbortCancel(a));
        StaysInFlight(s2, AbortCancel(a), f);
        NextConsumer(After(s2, AbortCancel(a)), after, f);
      }
    }
  }

  // ----- Runs in which aborted operations never outnumber requests -----

  /** Some request's store found this struck call in flight. */
  ghost predicate StruckInTime(s: Io, f: Fid) {
    f in Hit(s) ==> exists a :: a in s.aborters && f in s.aborters[a].targets
  }

  /** If every struck call was in flight at the store of some request, no more calls are aborted than
      there are requests. */
  lemma NoMoreAbortsThanRequests(acts: seq<Action>)
    requires IsRun(INITIALLY, acts) && SoloRun(INITIALLY, acts)
    requires forall f :: StruckInTime(Reach(INITIALLY, acts), f)
    ensures |AbortedCalls(Reach(INITIALLY, acts))| <= |Reach(INITIALLY, acts).aborters|
  {
    RunKeepsSolo(INITIALLY, acts);
    assert Saw(INITIALLY) == {} && Hit(INITIALLY) == {};
    RunAccounts(INITIALLY, acts);
    var s := Reach(INITIALLY, acts);
    forall f | f in AbortedCalls(s) ensures f in Saw(s) {
      assert FrameOk(s, f) && StruckInTime(s, f);
      if f in Hit(s) {
        var a :| a in s.aborters && f in s.aborters[a].targets;
        assert TargetOk(s, a, f);
      }
    }
    SubsetSize(AbortedCalls(s), Saw(s));
  }

  predicate PassesCheck(s: Io, a: Action) {
    a.FrameStep? && a.f in s.frames && s.frames[a.f].pc.StartLocked? && !s.flag
  }

  /** No request stands between its store and the end of its locked cancel. */
  predicate Quiet(s: Io) {
    forall a :: a in s.aborters ==> s.aborters[a].Finished?
  }

  /** No call passes its start check between the store and the cancel of a request. */
  predicate ChecksWhenQuiet(s: Io, acts: seq<Action>)
    requires IsRun(s, acts)
    decreases |acts|
  {
    acts == [] || ((PassesCheck(s, acts[0]) ==> Quiet(s)) && ChecksWhenQuiet(After(s, acts[0]), acts[1..]))
  }

  /** Whoever is in flight while request `a` is under way was in flight at its store. */
  predicate InTime(s: Io, a: Aid, f: Fid) {
    a in s.aborters && !s.aborters[a].Finished? && f in s.frames && InFlight(s.frames[f].pc) ==>
        f in s.aborters[a].targets
  }

  lemma StepKeepsInTime(s: Io, step: Action, a: Aid, f: Fid)
    requires Possible(s, step) && InTime(s, a, f) && (PassesCheck(s, step) ==> Quiet(s))
    ensures InTime(After(s, step), a, f)
  {
  }

  lemma TargetsStay(s: Io, step: Action, a: Aid)
    requires Possible(s, step) && a in s.aborters
    ensures a in After(s, step).aborters && After(s, step).aborters[a].targets == s.aborters[a].targets
  {
  }

  lemma StepKeepsStruck(s: Io, step: Action, f: Fid)
    requires Possible(s, step) && StruckInTime(s, f)
    requires f in s.frames ==> FrameOk(s, f)
    requires step.AbortCancel? ==> InTime(s, step.a, f)
    ensures StruckInTime(After(s, step), f)
  {
    if f in Hit(After(s, step)) {
      StepHits(s, step, f);
      if f in Hit(s) {
        var a :| a in s.aborters && f in s.aborters[a].targets;
        TargetsStay(s, step, a);
      } else {
        TargetsStay(s, step, step.a);
      }
    }
  }

  lemma {:induction false} RunStrikesInTime(s: Io, acts: seq<Action>)
    requires Good(s) && IsRun(s, acts) && ChecksWhenQuiet(s, acts)
    requires (forall a, f :: InTime(s, a, f)) && (forall f :: StruckInTime(s, f))
    ensures forall f :: StruckInTime(Reach(s, acts), f)
    decreases |acts|
  {
    if acts != [] {
      var s' := After(s, acts[0]);
      StepKeepsGood(s, acts[0]);
      forall a, f ensures InTime(s', a, f) {
        assert InTime(s, a, f);
        StepKeepsInTime(s, acts[0], a, f);
      }
      forall f ensures StruckInTime(s', f) {
        assert StruckInTime(s, f);
        if acts[0].AbortCancel? {
          assert InTime(s, acts[0].a, f);
        }
        StepKeepsStruck(s, acts[0], f);
      }
      RunStrikesInTime(s', acts[1..]);
    }
  }

  /** One operation at a time and no start check passed between the store and the cancel of a request:
      a request aborts at most one operation. */
  lemma QuietRequestsAbortOnce(acts: seq<Action>)
    requires IsRun(INITIALLY, acts) && SoloRun(INITIALLY, acts) && ChecksWhenQuiet(INITIALLY, acts)
    ensures |AbortedCalls(Reach(INITIALLY, acts))| <= |Reach(INITIALLY, acts).aborters|
  {
    RunStrikesInTime(INITIALLY, acts);
    NoMoreAbortsThanRequests(acts);
  }

  // ----- A run in which one request aborts two operations -----

  function First(flag: bool, lock: Lock, pc: Pc): Io {
    Io(flag, None, lock, map[0 := Frame(pc, NotIssued, pc.StartAborted? || pc.Returned?, false, false, NoWait)],
       map[0 := Stored({})])
  }

  lemma TheStorePrecedesTheFirst()
    ensures SoloReachable(First(true, Free, New))
  {
    var stored := Io(true, None, Free, map[], map[0 := Stored({})]);
    InitiallyReachable();
    assert InFlightFrames(INITIALLY) == {};
    Step(INITIALLY, Store(0), stored);
    Step(stored, Begin(0), First(true, Free, New));
  }

  lemma TheStoreAbortsTheFirst()
    ensures SoloReachable(First(false, Free, Returned(Aborted)))
  {
    TheStorePrecedesTheFirst();
    StartTo(First(true, Free, New), 0, Go, First(true, ByFrame(0), StartLocked));
    StartTo(First(true, ByFrame(0), StartLocked), 0, Go, First(false, ByFrame(0), StartAborted));
    StartTo(First(false, ByFrame(0), StartAborted), 0, Go, First(false, Free, Returned(Aborted)));
  }

  function Second(slot: Option<Fid>, lock: Lock, pc: Pc, kernel: Kernel, hit: bool, aborter: Aborter): Io {
    Io(false, slot, lock,
       map[0 := Frame(Returned(Aborted), NotIssued, true, false, false, NoWait),
           1 := Frame(pc, kernel, false, hit, false, if Starting(pc) || pc.Waiting? then NoWait else EventSignalled)],
       map[0 := aborter])
  }

  lemma TheSecondPassesItsCheck()
    ensures SoloReachable(Second(None, ByFrame(1), StartChecked, NotIssued, false, Stored({})))
  {
    TheStoreAbortsTheFirst();
    var s0 := Second(None, Free, New, NotIssued, false, Stored({}));
    var s1 := Second(None, ByFrame(1), StartLocked, NotIssued, false, Stored({}));
    Step(First(false, Free, Returned(Aborted)), Begin(1), s0);
    StartTo(s0, 1, Go, s1);
    StartTo(s1, 1, Go, Second(None, ByFrame(1), StartChecked, NotIssued, false, Stored({})));
  }

  lemma TheSecondIsIssued()
    ensures SoloReachable(Second(Some(1), Free, Waiting, Issued(false), false, Stored({})))
  {
    TheSecondPassesItsCheck();
    var s2 := Second(None, ByFrame(1), StartChecked, NotIssued, false, Stored({}));
    var s3 := Second(Some(1), ByFrame(1), StartPublished, NotIssued, false, Stored({}));
    var s4 := Second(Some(1), ByFrame(1), StartIssued(None), Issued(false), false, Stored({}));
    StartTo(s2, 1, Go, s3);
    StartTo(s3, 1, Go, s4);
    StartTo(s4, 1, Go, Second(Some(1), Free, Waiting, Issued(false), false, Stored({})));
  }

  lemma TheCancelHitsTheSecond()
    ensures SoloReachable(Second(Some(1), Free, Waiting, Issued(true), true, Finished({}, true)))
  {
    TheSecondIsIssued();
    var s1 := Second(Some(1), ByAborter(0), Waiting, Issued(false), false, Locked({}));
    Step(Second(Some(1), Free, Waiting, Issued(false), false, Stored({})), AbortLock(0), s1);
    Step(s1, AbortCancel(0), Second(Some(1), Free, Waiting, Issued(true), true, Finished({}, true)));
  }

  lemma TheKernelCancelsTheSecond()
    ensures SoloReachable(Second(Some(1), Free, Waiting, Done(Cancelled(0)), true, Finished({}, true)))
  {
    TheCancelHitsTheSecond();
    Step(Second(Some(1), Free, Waiting, Issued(true), true, Finished({}, true)), KernelStep(1, Cancelled(0)),
         Second(Some(1), Free, Waiting, Done(Cancelled(0)), true, Finished({}, true)));
  }

  function Ending(slot: Option<Fid>, lock: Lock, pc: Pc): Io {
    Second(slot, lock, pc, Done(Cancelled(0)), true, Finished({}, true))
  }

  lemma TheSecondFinishes()
    ensures SoloReachable(Ending(None, ByFrame(1), FinishCleared(Signalled(Cancelled(0)))))
  {
    TheKernelCancelsTheSecond();
    var tail := Signalled(Cancelled(0));
    var s1 := Ending(Some(1), Free, NeedFinish(tail));
    var s2 := Ending(Some(1), ByFrame(1), FinishLocked(tail));
    WaitTo(Ending(Some(1), Free, Waiting), 1, Go, s1);
    FinishTo(s1, 1, s2);
    FinishTo(s2, 1, Ending(None, ByFrame(1), FinishCleared(tail)));
  }

  lemma TheSecondAborts()
    ensures SoloReachable(Ending(None, Free, Returned(Aborted)))
  {
    TheSecondFinishes();
    var s1 := Ending(None, ByFrame(1), FinishConsumed(Signalled(Cancelled(0)), false));
    FinishTo(Ending(None, ByFrame(1), FinishCleared(Signalled(Cancelled(0)))), 1, s1);
    FinishTo(s1, 1, Ending(None, Free, Returned(Aborted)));
  }

  /** The bound of two is reached, even with one operation at a time: the flag store aborts one
      operation as it starts, and the locked cancel of the same request then hits the next one. */
  lemma OneRequestCanAbortTwice()
    ensures exists s :: SoloReachable(s) && s.aborters.Keys == {0} && AbortedCalls(s) == {0, 1}
  {
    TheSecondAborts();
    var s := Ending(None, Free, Returned(Aborted));
    assert s.frames.Keys == {0, 1} && s.aborters.Keys == {0};
    assert AbortedCalls(s) == {0, 1};
  }
}
