/** Every call of serialSetEventCallback can be brought to its end from every reachable state, without
    any new call or native callback: a step that some thread owes is always there and always brings
    the end nearer (serial_set_event_callback.cpp:163-245). */
module HandoverProgress {
  import opened Options
  import opened PortDispatch
  import opened ListenerSteps
  import opened Handover

  // ----- What is still to be done -----

  /** Twice the number of steps the call has at most still to take. */
  function PcWeight(pc: Pc): nat {
    match pc
    case Entered(_) => 28
    case Made(_) => 26
    case Subscribed(_) => 24
    case Snapped(_, _) => 22
    case Ready(_) => 20
    case LockedGlobal(_) => 18
    case Taken(_, _) => 16
    case Emptied(_, _) => 14
    case Placed(_, _) => 12
    case Swapped(_) => 10
    case Stopping(_, _) => 8
    case Unregistering(_, _) => 6
    case Draining(_, _) => 4
    case Releasing(_, _) => 2
    case Returned(_) => 0
  }

  /** The steps a dispatcher takes to its end once it is stopped. */
  function ControlWeight(c: Control): nat {
    match c
    case Ended => 0
    case AtWait => 1
    case Asleep(_) => 1
    case InFlight(_) => 2
    case Reporting => 2
  }

  function RegWeight(r: Reg): nat {
    r.inNative + if r.handle == NotStarted then 0 else ControlWeight(r.listener.control)
  }

  function CallWeights(calls: map<Thread, Pc>): map<Thread, nat> {
    map t | t in calls :: PcWeight(calls[t])
  }

  function RegWeights(regs: map<Lid, Reg>): map<Lid, nat> {
    map l | l in regs :: RegWeight(regs[l])
  }

  ghost function SumOf<K>(m: map<K, nat>): nat {
    if m == map[] then 0
    else
      var k :| k in m;
      m[k] + SumOf(m - {k})
  }

  ghost function Owed(s: System): nat {
    SumOf(CallWeights(s.calls)) + SumOf(RegWeights(s.regs))
  }

  lemma {:induction false} SumRemove<K>(m: map<K, nat>, k: K)
    requires k in m
    ensures SumOf(m) == m[k] + SumOf(m - {k})
    decreases |m|
  {
    var x :| x in m && SumOf(m) == m[x] + SumOf(m - {x});
    if x != k {
      SumRemove(m - {x}, k);
      SumRemove(m - {k}, x);
      assert m - {x} - {k} == m - {k} - {x};
    }
  }

  lemma SumUpdate<K>(m: map<K, nat>, k: K, v: nat)
    ensures SumOf(m[k := v]) + (if k in m then m[k] else 0) == SumOf(m) + v
  {
    SumRemove(m[k := v], k);
    assert m[k := v] - {k} == m - {k};
    if k in m {
      SumRemove(m, k);
    } else {
      assert m - {k} == m;
    }
  }

  lemma CallMoves(calls: map<Thread, Pc>, t: Thread, pc: Pc)
    requires t in calls
    ensures SumOf(CallWeights(calls[t := pc])) + PcWeight(calls[t]) == SumOf(CallWeights(calls)) + PcWeight(pc)
  {
    assert CallWeights(calls[t := pc]) == CallWeights(calls)[t := PcWeight(pc)];
    SumUpdate(CallWeights(calls), t, PcWeight(pc));
  }

  lemma CallGoes(calls: map<Thread, Pc>, t: Thread)
    ensures SumOf(CallWeights(calls - {t})) <= SumOf(CallWeights(calls))
  {
    assert CallWeights(calls - {t}) == CallWeights(calls) - {t};
    if t in calls {
      SumRemove(CallWeights(calls), t);
    } else {
      assert calls - {t} == calls;
    }
  }

  lemma RegMoves(regs: map<Lid, Reg>, l: Lid, r: Reg)
    ensures SumOf(RegWeights(regs[l := r])) + (if l in regs then RegWeight(regs[l]) else 0)
      == SumOf(RegWeights(regs)) + RegWeight(r)
  {
    assert RegWeights(regs[l := r]) == RegWeights(regs)[l := RegWeight(r)];
    SumUpdate(RegWeights(regs), l, RegWeight(r));
  }

  // ----- Every owed step lowers it -----

  /** The listener a step of a call changes. */
  function Touched(s: System, pc: Pc): Option<Lid> {
    match pc
    case Entered(install) => if install then Some(s.next) else None
    case Made(made) => Some(made)
    case Snapped(made, _) => Some(made)
    case LockedGlobal(_) => s.installed
    case Taken(_, previous) => previous
    case Emptied(replacement, _) => replacement
    case Placed(replacement, _) => replacement
    case Stopping(dying, _) => Some(dying)
    case Unregistering(dying, _) => Some(dying)
    case Releasing(dying, _) => Some(dying)
    case _ => None
  }

  /** From `s` to `s'` the call of `t` has come one step nearer to its end, and no listener but the one it
      touches has changed, which owes at most one step more than before. */
  ghost predicate Nearer(s: System, s': System, t: Thread)
    requires t in s.calls
  {
    && t in s'.calls && s'.calls == s.calls[t := s'.calls[t]]
    && PcWeight(s'.calls[t]) + 2 <= PcWeight(s.calls[t])
    && match Touched(s, s.calls[t]) {
      case None => s'.regs == s.regs
      case Some(l) =>
        && l in s'.regs && s'.regs == s.regs[l := s'.regs[l]]
        && RegWeight(s'.regs[l]) <= (if l in s.regs then RegWeight(s.regs[l]) else 0) + 1
    }
  }

  lemma BuildGetsNearer(s: System, t: Thread)
    requires MidCall(s, t) && CanAdvance(s, t) && Builds(s.calls[t]) && ThreadOk(s, t)
    requires s.calls[t].Snapped? ==> RegOk(s, s.calls[t].made)
    ensures Nearer(s, BuildStep(s, t, map[]), t)
  {
  }

  lemma SwapGetsNearer(s: System, t: Thread)
    requires MidCall(s, t) && CanAdvance(s, t) && (s.calls[t].Ready? || InSwap(s.calls[t]))
    ensures Nearer(s, SwapStep(s, t), t)
  {
  }

  lemma DestructorGetsNearer(s: System, t: Thread)
    requires MidCall(s, t) && CanAdvance(s, t) && Destroys(s.calls[t])
    ensures Nearer(s, DestructorStep(s, t), t)
  {
  }

  lemma NearerOwesLess(s: System, s': System, t: Thread)
    requires t in s.calls && Nearer(s, s', t)
    ensures Owed(s') < Owed(s)
  {
    CallMoves(s.calls, t, s'.calls[t]);
    var touched := Touched(s, s.calls[t]);
    if touched.Some? {
      RegMoves(s.regs, touched.value, s'.regs[touched.value]);
    }
  }

  lemma AdvanceOwesLess(s: System, t: Thread)
    requires Good(s) && MidCall(s, t) && CanAdvance(s, t)
    ensures Owed(After(s, Advance(t, map[]))) < Owed(s)
  {
    assert ThreadOk(s, t);
    if Builds(s.calls[t]) {
      if s.calls[t].Snapped? { assert RegOk(s, s.calls[t].made); }
      BuildGetsNearer(s, t);
    } else if Destroys(s.calls[t]) {
      DestructorGetsNearer(s, t);
    } else {
      SwapGetsNearer(s, t);
    }
    NearerOwesLess(s, After(s, Advance(t, map[])), t);
  }

  lemma NativeOwesLess(s: System, l: Lid)
    requires Possible(s, NativeExit(l, None))
    ensures Owed(After(s, NativeExit(l, None))) < Owed(s)
  {
    RegMoves(s.regs, l, After(s, NativeExit(l, None)).regs[l]);
  }

  lemma DispatcherOwesLess(s: System, l: Lid, answer: Answer)
    requires l in s.regs && s.regs[l].handle != NotStarted && Inv(s.regs[l].listener)
    requires s.regs[l].listener.stopped && !s.regs[l].listener.control.Ended? && !MidCall(s, DispatcherOf(l))
    ensures var a := DispatcherStep(l, OwnStep(s.regs[l].listener, answer));
      Possible(s, a) && Owed(After(s, a)) < Owed(s)
  {
    StoppedDispatcherEnds(s.regs[l].listener, answer);
    var a := DispatcherStep(l, OwnStep(s.regs[l].listener, answer));
    RegMoves(s.regs, l, After(s, a).regs[l]);
    CallGoes(s.calls, DispatcherOf(l));
  }

  // ----- Down to the return -----

  /** A step that finishes what has begun, rather than beginning something new. */
  predicate Finishing(a: Act) {
    !a.Enter? && !a.NativeEnter?
  }

  lemma OwedStep(s: System, t: Thread) returns (a: Act)
    requires Good(s) && Owing(s, t) && WaitsFor(s, t).None?
    ensures Possible(s, a) && Actor(a) == t && Finishing(a) && Owed(After(s, a)) < Owed(s)
    ensures MidCall(s, t) ==> a == Advance(t, map[])
  {
    if MidCall(s, t) {
      a := Advance(t, map[]);
      assert ThreadOk(s, t);
      AdvanceOwesLess(s, t);
    } else if t.NativeOf? {
      a := NativeExit(t.lid, None);
      NativeOwesLess(s, t.lid);
    } else {
      assert ListenerOk(s, t.lid);
      var answer := Answer(None, false);
      DispatcherOwesLess(s, t.lid, answer);
      a := DispatcherStep(t.lid, OwnStep(s.regs[t.lid].listener, answer));
    }
  }

  lemma {:induction false} StepTowards(s: System, t: Thread) returns (a: Act)
    requires Good(s) && Owing(s, t)
    ensures Possible(s, a) && Finishing(a) && Owed(After(s, a)) < Owed(s)
    ensures MidCall(s, Actor(a)) ==> a == Advance(Actor(a), map[])
    decreases Height(s, t)
  {
    match WaitsFor(s, t)
    case None => a := OwedStep(s, t);
    case Some(u) =>
      WaitingDescends(s, t);
      WaitedForIsOwing(s, t);
      a := StepTowards(s, u);
  }

  /** The run brings the call of `t` to its return, finishing only what has begun. */
  ghost predicate BringsBack(s: System, acts: seq<Act>, t: Thread) {
    && IsRunOf(s, acts) && (forall i :: 0 <= i < |acts| ==> Finishing(acts[i]))
    && t in Reach(s, acts).calls && Reach(s, acts).calls[t].Returned?
  }

  lemma BringsBackCons(s: System, a: Act, acts: seq<Act>, t: Thread)
    requires Possible(s, a) && Finishing(a) && BringsBack(After(s, a), acts, t)
    ensures BringsBack(s, [a] + acts, t)
  {
    assert ([a] + acts)[1..] == acts;
  }

  lemma BringsBackNothing(s: System, t: Thread)
    requires t in s.calls && !MidCall(s, t)
    ensures BringsBack(s, [], t)
  {
  }

  lemma ComesNearer(s: System, t: Thread) returns (a: Act)
    requires Good(s) && MidCall(s, t)
    ensures Possible(s, a) && Finishing(a) && Good(After(s, a)) && Owed(After(s, a)) < Owed(s)
    ensures t in After(s, a).calls
  {
    a := StepTowards(s, t);
    StepKeepsGood(s, a);
    CallStays(s, a, t);
  }

  lemma {:induction false} CallComesBack(s: System, t: Thread) returns (acts: seq<Act>)
    requires Good(s) && MidCall(s, t)
    ensures BringsBack(s, acts, t)
    decreases Owed(s)
  {
    var a := ComesNearer(s, t);
    var rest := [];
    if MidCall(After(s, a), t) {
      rest := CallComesBack(After(s, a), t);
    } else {
      BringsBackNothing(After(s, a), t);
    }
    BringsBackCons(s, a, rest, t);
    acts := [a] + rest;
  }

  lemma CallStays(s: System, a: Act, t: Thread)
    requires Good(s) && Possible(s, a) && MidCall(s, t) && (Actor(a) == t ==> a == Advance(t, map[]))
    ensures t in After(s, a).calls
  {
    if Actor(a) != t {
      StepFrames(s, a);
      assert FrameCall(s, After(s, a), Actor(a), t);
    }
  }

  /** From every reachable state, every call in progress can be brought to its return by finishing what
      has begun: no new call, no new native callback. */
  lemma EveryCallCanReturn(acts: seq<Act>, t: Thread)
    requires IsRunOf(INITIALLY, acts) && MidCall(Reach(INITIALLY, acts), t)
    ensures exists more :: BringsBack(Reach(INITIALLY, acts), more, t)
  {
    ReachableIsGood(acts);
    var more := CallComesBack(Reach(INITIALLY, acts), t);
  }
}
