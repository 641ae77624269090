/** What one call of serialSetEventCallback does with its callback: with one, it installs a listener of its
    own, registered before its ports were listed and started on exactly that list; without one, it leaves
    none installed (serial_set_event_callback.cpp:196-245). Other threads do whatever they like meanwhile. */
module HandoverEffect {
  import opened Options
  import opened PortDispatch
  import opened ListenerSteps
  import opened Handover

  /** What the call of `t` has listed so far: the ports of its own step from Subscribed. */
  function ListedAfter(s: System, a: Act, t: Thread, listed: Option<PortMap>): Option<PortMap> {
    if a.Advance? && a.t == t && t in s.calls && s.calls[t].Subscribed? then Some(a.ports) else listed
  }

  function Listed(s: System, acts: seq<Act>, t: Thread, listed: Option<PortMap>): Option<PortMap>
    requires IsRunOf(s, acts)
    decreases |acts|
  {
    if acts == [] then listed else Listed(After(s, acts[0]), acts[1..], t, ListedAfter(s, acts[0], t, listed))
  }

  predicate AtSwapped(s: System, t: Thread) {
    t in s.calls && s.calls[t].Swapped?
  }

  /** At some moment of the run the call of `t` stood at the end of its swap, still holding the mutex. */
  predicate HasSwapped(s: System, acts: seq<Act>, t: Thread)
    requires IsRunOf(s, acts)
    decreases |acts|
  {
    AtSwapped(s, t) || (acts != [] && HasSwapped(After(s, acts[0]), acts[1..], t))
  }

  /** A listener that was not there when the call began, is registered and carries the call's own list. */
  predicate Own(before: System, s: System, l: Lid, listed: Option<PortMap>) {
    && l !in before.regs && l in s.regs && s.regs[l].registered && s.regs[l].handle == Joinable
    && listed == Some(s.regs[l].listener.snapshot)
  }

  predicate OwnIf(before: System, s: System, install: bool, l: Option<Lid>, listed: Option<PortMap>) {
    (install <==> l.Some?) && (l.Some? ==> Own(before, s, l.value, listed))
  }

  predicate Made(before: System, s: System, install: bool, l: Lid) {
    install && l !in before.regs && l in s.regs
  }

  /** How far the call of `t`, entered in state `before`, has come with its callback. */
  predicate Carries(before: System, s: System, t: Thread, install: bool, listed: Option<PortMap>, swapped: bool) {
    t in s.calls ==>
      match s.calls[t]
      case Entered(i) => i == install
      case Made(l) => Made(before, s, install, l)
      case Subscribed(l) => Made(before, s, install, l) && s.regs[l].registered
      case Snapped(l, ports) => Made(before, s, install, l) && s.regs[l].registered && listed == Some(ports)
      case Ready(replacement) => OwnIf(before, s, install, replacement, listed)
      case LockedGlobal(replacement) => OwnIf(before, s, install, replacement, listed)
      case Taken(replacement, _) => OwnIf(before, s, install, replacement, listed)
      case Emptied(replacement, _) => OwnIf(before, s, install, replacement, listed)
      case Placed(replacement, _) => OwnIf(before, s, install, replacement, listed) && s.installed == replacement
      case Swapped(_) =>
        && OwnIf(before, s, install, s.installed, listed) && swapped
        && (s.installed.Some? ==> s.regs[s.installed.value].listener.active)
      case Stopping(_, exit) => exit.Success? ==> swapped
      case Unregistering(_, exit) => exit.Success? ==> swapped
      case Draining(_, exit) => exit.Success? ==> swapped
      case Releasing(_, exit) => exit.Success? ==> swapped
      case Returned(exit) => exit.Success? ==> swapped
  }

  // ----- What other threads leave alone -----

  /** A listener that is neither held nor destroyed by the acting thread keeps its registration, its
      thread and its list, and stays active. */
  predicate LeftAlone(r: Reg, r': Reg) {
    && r'.registered == r.registered && r'.handle == r.handle
    && r'.listener.snapshot == r.listener.snapshot && (r.listener.active ==> r'.listener.active)
  }

  lemma ToldLeavesAlone(r: Reg, a: Action)
    requires Enabled(r.listener, a)
    ensures LeftAlone(r, Tell(r, a))
  {
  }

  predicate NotOf(r: Reg, t: Thread) {
    r.owner != HeldBy(t) && r.owner != DyingIn(t)
  }

  lemma BuildLeavesAlone(s: System, t: Thread, ports: PortMap, l: Lid)
    requires MidCall(s, t) && CanAdvance(s, t) && Builds(s.calls[t]) && ThreadOk(s, t)
    requires l in s.regs && NotOf(s.regs[l], t) && s.next !in s.regs
    ensures l in BuildStep(s, t, ports).regs && LeftAlone(s.regs[l], BuildStep(s, t, ports).regs[l])
  {
  }

  lemma SwapLeavesAlone(s: System, t: Thread, l: Lid)
    requires MidCall(s, t) && CanAdvance(s, t) && (s.calls[t].Ready? || InSwap(s.calls[t])) && l in s.regs
    ensures l in SwapStep(s, t).regs && LeftAlone(s.regs[l], SwapStep(s, t).regs[l])
  {
    ToldLeavesAlone(s.regs[l], Stop);
    ToldLeavesAlone(s.regs[l], Activate);
  }

  lemma DestructorLeavesAlone(s: System, t: Thread, l: Lid)
    requires MidCall(s, t) && CanAdvance(s, t) && Destroys(s.calls[t]) && ThreadOk(s, t)
    requires l in s.regs && NotOf(s.regs[l], t)
    ensures l in DestructorStep(s, t).regs && LeftAlone(s.regs[l], DestructorStep(s, t).regs[l])
  {
  }

  lemma StepLeavesAlone(s: System, a: Act, l: Lid)
    requires Possible(s, a) && l in s.regs && NotOf(s.regs[l], Actor(a)) && s.next !in s.regs
    requires Actor(a) in s.calls ==> ThreadOk(s, Actor(a))
    ensures l in After(s, a).regs && LeftAlone(s.regs[l], After(s, a).regs[l])
  {
    match a
    case Advance(t, ports) =>
      if Builds(s.calls[t]) { BuildLeavesAlone(s, t, ports, l); }
      else if Destroys(s.calls[t]) { DestructorLeavesAlone(s, t, l); }
      else { SwapLeavesAlone(s, t, l); }
    case NativeExit(x, note) =>
      if l == x { ToldLeavesAlone(s.regs[l], if note.Some? then Enqueue(note.value) else FailQueue); }
    case DispatcherStep(x, step) => if l == x { ToldLeavesAlone(s.regs[l], step); }
    case _ =>
  }

  // ----- One step -----

  lemma BuildCarries(before: System, s: System, t: Thread, ports: PortMap, install: bool, listed: Option<PortMap>,
                     swapped: bool)
    requires MidCall(s, t) && CanAdvance(s, t) && Builds(s.calls[t])
    requires Carries(before, s, t, install, listed, swapped) && before.regs.Keys <= s.regs.Keys && s.next !in s.regs
    ensures Carries(before, BuildStep(s, t, ports), t, install, ListedAfter(s, Advance(t, ports), t, listed), swapped)
  {
  }

  lemma SwapCarries(before: System, s: System, t: Thread, install: bool, listed: Option<PortMap>, swapped: bool)
    requires MidCall(s, t) && CanAdvance(s, t) && (s.calls[t].Ready? || InSwap(s.calls[t]))
    requires Carries(before, s, t, install, listed, swapped)
    ensures Carries(before, SwapStep(s, t), t, install, listed, swapped || s.calls[t].Placed?)
  {
  }

  lemma DestructorCarries(before: System, s: System, t: Thread, install: bool, listed: Option<PortMap>, swapped: bool)
    requires MidCall(s, t) && CanAdvance(s, t) && Destroys(s.calls[t])
    requires Carries(before, s, t, install, listed, swapped)
    ensures Carries(before, DestructorStep(s, t), t, install, listed, swapped)
  {
  }

  /** The listener the call holds, or has installed. */
  function HeldIn(s: System, pc: Pc): Option<Lid> {
    match pc
    case Made(l) => Some(l)
    case Subscribed(l) => Some(l)
    case Snapped(l, _) => Some(l)
    case Ready(replacement) => replacement
    case LockedGlobal(replacement) => replacement
    case Taken(replacement, _) => replacement
    case Emptied(replacement, _) => replacement
    case Placed(replacement, _) => replacement
    case Swapped(_) => s.installed
    case _ => None
  }

  /** Whatever another thread does to the rest, if it leaves that listener alone the call carries on. */
  lemma LeftAloneCarries(before: System, s: System, s': System, t: Thread, install: bool, listed: Option<PortMap>,
                         swapped: bool)
    requires Carries(before, s, t, install, listed, swapped) && t in s.calls
    requires t in s'.calls && s'.calls[t] == s.calls[t]
    requires s.calls[t].Placed? || s.calls[t].Swapped? ==> s'.installed == s.installed
    requires var l := HeldIn(s, s.calls[t]);
      l.Some? && l.value in s.regs ==> l.value in s'.regs && LeftAlone(s.regs[l.value], s'.regs[l.value])
    ensures Carries(before, s', t, install, listed, swapped)
  {
  }

  lemma HeldIsNotOfOthers(s: System, t: Thread, u: Thread)
    requires t in s.calls && ThreadOk(s, t) && u != t
    requires s.installed.Some? ==> s.installed.value in s.regs && RegOk(s, s.installed.value)
    ensures var l := HeldIn(s, s.calls[t]);
      l.Some? && l.value in s.regs ==> NotOf(s.regs[l.value], u)
  {
  }

  lemma OtherCarries(before: System, s: System, a: Act, t: Thread, install: bool, listed: Option<PortMap>,
                     swapped: bool)
    requires Good(s) && Possible(s, a) && Actor(a) != t && t in s.calls
    requires Carries(before, s, t, install, listed, swapped)
    ensures Carries(before, After(s, a), t, install, listed, swapped)
  {
    FreshLid(s);
    assert ThreadOk(s, t);
    if s.installed.Some? { assert RegOk(s, s.installed.value); }
    HeldIsNotOfOthers(s, t, Actor(a));
    var l := HeldIn(s, s.calls[t]);
    if l.Some? && l.value in s.regs {
      StepLeavesAlone(s, a, l.value);
    }
    StepFramesCall(s, a, t);
    LeftAloneCarries(before, s, After(s, a), t, install, listed, swapped);
  }

  predicate Enters(a: Act, t: Thread) {
    a.Enter? && a.t == t
  }

  lemma OwnCarries(before: System, s: System, a: Act, t: Thread, install: bool, listed: Option<PortMap>, swapped: bool)
    requires Good(s) && Possible(s, a) && Actor(a) == t && t in s.calls && !Enters(a, t)
    requires Carries(before, s, t, install, listed, swapped) && before.regs.Keys <= s.regs.Keys
    ensures Carries(before, After(s, a), t, install, ListedAfter(s, a, t, listed), swapped || AtSwapped(After(s, a), t))
  {
    FreshLid(s);
    if a.Advance? {
      if Builds(s.calls[t]) {
        BuildCarries(before, s, t, a.ports, install, listed, swapped);
      } else if Destroys(s.calls[t]) {
        DestructorCarries(before, s, t, install, listed, swapped);
      } else {
        SwapCarries(before, s, t, install, listed, swapped);
      }
    } else if !a.Fails? {
      assert ThreadOk(s, t);
      if t in After(s, a).calls { OnlyCallersStayInCalls(s, a); }
    }
  }

  lemma RegsGrow(s: System, a: Act)
    requires Good(s) && Possible(s, a)
    ensures s.regs.Keys <= After(s, a).regs.Keys
  {
    forall l | l in s.regs ensures l in After(s, a).regs { StepFramesReg(s, a, l); }
  }

  lemma StepCarries(before: System, s: System, a: Act, t: Thread, install: bool, listed: Option<PortMap>, swapped: bool)
    requires Good(s) && Possible(s, a) && !Enters(a, t)
    requires Carries(before, s, t, install, listed, swapped) && before.regs.Keys <= s.regs.Keys
    ensures Carries(before, After(s, a), t, install, ListedAfter(s, a, t, listed), swapped || AtSwapped(After(s, a), t))
  {
    if t !in s.calls {
      StepFramesCall(s, a, t);
    } else if Actor(a) == t {
      OwnCarries(before, s, a, t, install, listed, swapped);
    } else {
      OtherCarries(before, s, a, t, install, listed, swapped);
    }
  }

  // ----- Over runs -----

  lemma {:induction false} RunCarries(before: System, s: System, acts: seq<Act>, t: Thread, install: bool,
                                      listed: Option<PortMap>, swapped: bool)
    requires Good(s) && IsRunOf(s, acts) && forall i :: 0 <= i < |acts| ==> !Enters(acts[i], t)
    requires Carries(before, s, t, install, listed, swapped) && before.regs.Keys <= s.regs.Keys
    ensures Carries(before, Reach(s, acts), t, install, Listed(s, acts, t, listed), swapped || HasSwapped(s, acts, t))
    decreases |acts|
  {
    if acts != [] {
      var s' := After(s, acts[0]);
      StepCarries(before, s, acts[0], t, install, listed, swapped);
      RegsGrow(s, acts[0]);
      StepKeepsGood(s, acts[0]);
      RunCarries(before, s', acts[1..], t, install, ListedAfter(s, acts[0], t, listed), swapped || AtSwapped(s', t));
    }
  }

  /** From the entry of the call to any later moment, whatever every thread does: when the call has swapped,
      a listener is installed if and only if the call came with a callback. It is a listener of its own,
      made in this call, registered, active and not stopped, with its thread started on exactly the ports
      this call listed. */
  lemma CallInstallsItsListener(past: seq<Act>, t: Thread, install: bool, acts: seq<Act>)
    requires IsRunOf(INITIALLY, past) && Possible(Reach(INITIALLY, past), Enter(t, install))
    requires IsRunOf(After(Reach(INITIALLY, past), Enter(t, install)), acts)
    requires forall i :: 0 <= i < |acts| ==> !Enters(acts[i], t)
    requires AtSwapped(Reach(After(Reach(INITIALLY, past), Enter(t, install)), acts), t)
    ensures var before := Reach(INITIALLY, past);
      var entered := After(before, Enter(t, install));
      var s := Reach(entered, acts);
      && (install <==> s.installed.Some?)
      && (install ==>
        var l := s.installed.value;
        && l !in before.regs && l in s.regs
        && s.regs[l].registered && s.regs[l].handle == Joinable
        && s.regs[l].listener.active && !s.regs[l].listener.stopped
        && Listed(entered, acts, t, None) == Some(s.regs[l].listener.snapshot))
  {
    var before := Reach(INITIALLY, past);
    var entered := After(before, Enter(t, install));
    ReachableIsGood(past);
    StepKeepsGood(before, Enter(t, install));
    RunCarries(before, entered, acts, t, install, None, false);
    ReachIsGood(entered, acts);
    var s := Reach(entered, acts);
    if s.installed.Some? { assert RegOk(s, s.installed.value); }
  }

  /** A call returns success only after that swap. */
  lemma SuccessMeansSwapped(past: seq<Act>, t: Thread, install: bool, acts: seq<Act>)
    requires IsRunOf(INITIALLY, past) && Possible(Reach(INITIALLY, past), Enter(t, install))
    requires IsRunOf(After(Reach(INITIALLY, past), Enter(t, install)), acts)
    requires forall i :: 0 <= i < |acts| ==> !Enters(acts[i], t)
    requires var s := Reach(After(Reach(INITIALLY, past), Enter(t, install)), acts);
      t in s.calls && s.calls[t].Returned? && s.calls[t].exit.Success?
    ensures HasSwapped(After(Reach(INITIALLY, past), Enter(t, install)), acts, t)
  {
    var before := Reach(INITIALLY, past);
    ReachableIsGood(past);
    StepKeepsGood(before, Enter(t, install));
    RunCarries(before, After(before, Enter(t, install)), acts, t, install, None, false);
  }
}
