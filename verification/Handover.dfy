/** The global registration: any number of threads call serialSetEventCallback at the same time,
    also from inside callbacks on dispatcher threads, while native callbacks keep queueing
    (serial_set_event_callback.cpp:139-245). Every acquisition of a mutex, native call and thread
    operation is a step of its own. */
module Handover {
  import opened Options
  import opened PortDispatch
  import opened ListenerSteps

  type Lid = nat

  datatype Thread = External(id: nat) | DispatcherOf(lid: Lid) | NativeOf(lid: Lid)

  /** Who keeps an EventListenerState allocated: the EventListener object, the dispatcher's closure. */
  datatype Ref = OwnerRef | ThreadRef

  datatype ThreadHandle = NotStarted | Joinable | Joined | Detached

  /** Which unique_ptr<EventListener> owns the listener: `replacement` of a call, the global,
      `previous` (or a failed `replacement`) being destroyed by a call, or nobody any more. */
  datatype Owner = HeldBy(caller: Thread) | Installed | DyingIn(caller: Thread) | Destroyed

  datatype Reg = Reg(
    listener: Listener, registered: bool, inNative: nat, handle: ThreadHandle,
    refs: set<Ref>, owner: Owner, rank: Option<nat>)

  datatype Exit = Success(removed: Option<Lid>) | Failure

  /** Where one call of serialSetEventCallback stands. */
  datatype Pc =
    | Entered(install: bool)
    | Made(made: Lid)
    | Subscribed(made: Lid)
    | Snapped(made: Lid, ports: PortMap)
    | Ready(replacement: Option<Lid>)
    | LockedGlobal(replacement: Option<Lid>)
    | Taken(replacement: Option<Lid>, previous: Option<Lid>)
    | Emptied(replacement: Option<Lid>, previous: Option<Lid>)
    | Placed(replacement: Option<Lid>, previous: Option<Lid>)
    | Swapped(previous: Option<Lid>)
    | Stopping(dying: Lid, exit: Exit)
    | Unregistering(dying: Lid, exit: Exit)
    | Draining(dying: Lid, exit: Exit)
    | Releasing(dying: Lid, exit: Exit)
    | Returned(exit: Exit)

  datatype System = System(
    regs: map<Lid, Reg>, next: Lid, installed: Option<Lid>, mutex: Option<Thread>,
    calls: map<Thread, Pc>, installs: seq<Lid>)

  const INITIALLY := System(map[], 0, None, None, map[], [])

  datatype Act =
    | Enter(t: Thread, install: bool)
    | Advance(t: Thread, ports: PortMap)
    | Fails(t: Thread)
    | NativeEnter(l: Lid)
    | NativeExit(l: Lid, note: Option<Notification>)
    | DispatcherStep(l: Lid, step: Action)

  // ----- Guards -----

  predicate MidCall(s: System, t: Thread) {
    t in s.calls && !s.calls[t].Returned?
  }

  /** User code runs on a dispatcher only while it is outside the lock. */
  predicate RunsUserCode(s: System, t: Thread) {
    match t
    case External(_) => true
    case DispatcherOf(l) =>
      l in s.regs && s.regs[l].handle != NotStarted &&
      (s.regs[l].listener.control.InFlight? || s.regs[l].listener.control.Reporting?)
    case NativeOf(_) => false
  }

  predicate Has(s: System, l: Option<Lid>) {
    l.Some? ==> l.value in s.regs
  }

  predicate CanAdvance(s: System, t: Thread)
    requires MidCall(s, t)
  {
    match s.calls[t]
    case Entered(_) => true
    case Made(l) => l in s.regs
    case Subscribed(l) => l in s.regs
    case Snapped(l, _) => l in s.regs
    case Ready(_) => s.mutex == None
    case LockedGlobal(_) => Has(s, s.installed)
    case Taken(_, previous) => Has(s, previous)
    case Emptied(replacement, _) => Has(s, replacement)
    case Placed(replacement, _) => Has(s, replacement)
    case Swapped(_) => true
    case Stopping(l, _) => l in s.regs
    case Unregistering(l, _) => l in s.regs
    case Draining(l, _) => l in s.regs && s.regs[l].inNative == 0
    case Releasing(l, _) =>
      l in s.regs &&
      (s.regs[l].handle == Joinable ==> t == DispatcherOf(l) || s.regs[l].listener.control.Ended?)
  }

  predicate CanFail(pc: Pc) {
    pc == Entered(true) || pc.Made? || pc.Subscribed? || pc.Snapped?
  }

  predicate Possible(s: System, a: Act) {
    match a
    case Enter(t, _) => RunsUserCode(s, t) && !MidCall(s, t)
    case Advance(t, _) => MidCall(s, t) && CanAdvance(s, t)
    case Fails(t) => t in s.calls && CanFail(s.calls[t]) && (s.calls[t].Entered? || s.calls[t].made in s.regs)
    case NativeEnter(l) => l in s.regs && s.regs[l].registered
    case NativeExit(l, _) => l in s.regs && s.regs[l].inNative > 0
    case DispatcherStep(l, step) =>
      && l in s.regs && s.regs[l].handle != NotStarted
      && (step.Check? || step.FinishDispatch? || step.FinishReport?)
      && Enabled(s.regs[l].listener, step)
      && !MidCall(s, DispatcherOf(l))
  }

  // ----- Effects -----

  function Tell(r: Reg, a: Action): Reg
    requires Enabled(r.listener, a)
  {
    r.(listener := Apply(r.listener, a))
  }

  function TellIf(s: System, l: Option<Lid>, a: Action): map<Lid, Reg>
    requires Has(s, l) && (a.Stop? || a.Activate?)
  {
    if l.None? then s.regs else s.regs[l.value := Tell(s.regs[l.value], a)]
  }

  function OwnIf(s: System, l: Option<Lid>, owner: Owner): map<Lid, Reg>
    requires Has(s, l)
  {
    if l.None? then s.regs else s.regs[l.value := s.regs[l.value].(owner := owner)]
  }

  function Destroy(previous: Option<Lid>): Pc {
    match previous
    case None => Returned(Success(None))
    case Some(l) => Stopping(l, Success(Some(l)))
  }

  /** The calls that hold g_event_listener_mutex. */
  predicate InSwap(pc: Pc) {
    pc.LockedGlobal? || pc.Taken? || pc.Emptied? || pc.Placed? || pc.Swapped?
  }

  predicate Builds(pc: Pc) {
    pc.Entered? || pc.Made? || pc.Subscribed? || pc.Snapped?
  }

  predicate Destroys(pc: Pc) {
    pc.Stopping? || pc.Unregistering? || pc.Draining? || pc.Releasing?
  }

  /** Building the replacement: allocate, register natively, snapshot, start the parked thread. */
  function BuildStep(s: System, t: Thread, ports: PortMap): System
    requires MidCall(s, t) && CanAdvance(s, t) && Builds(s.calls[t])
  {
    match s.calls[t]
    case Entered(install) =>
      if install then
        s.(regs := s.regs[s.next := Reg(Fresh(map[]), false, 0, NotStarted, {OwnerRef}, HeldBy(t), None)],
           calls := s.calls[t := Made(s.next)], next := s.next + 1)
      else s.(calls := s.calls[t := Ready(None)])
    case Made(l) =>
      s.(regs := s.regs[l := s.regs[l].(registered := true)], calls := s.calls[t := Subscribed(l)])
    case Subscribed(l) => s.(calls := s.calls[t := Snapped(l, ports)])
    case Snapped(l, snapshot) =>
      var r := s.regs[l];
      s.(regs := s.regs[l := r.(handle := Joinable, refs := r.refs + {ThreadRef},
           listener := r.listener.(snapshot := snapshot, ports := snapshot))],
         calls := s.calls[t := Ready(Some(l))])
  }

  /** The swap: lock, move the global out, stop it, move the replacement in, activate it, unlock. */
  function SwapStep(s: System, t: Thread): System
    requires MidCall(s, t) && CanAdvance(s, t) && (s.calls[t].Ready? || InSwap(s.calls[t]))
  {
    match s.calls[t]
    case Ready(replacement) => s.(mutex := Some(t), calls := s.calls[t := LockedGlobal(replacement)])
    case LockedGlobal(replacement) =>
      s.(installed := None, regs := OwnIf(s, s.installed, DyingIn(t)),
         calls := s.calls[t := Taken(replacement, s.installed)])
    case Taken(replacement, previous) =>
      s.(regs := TellIf(s, previous, Stop), calls := s.calls[t := Emptied(replacement, previous)])
    case Emptied(replacement, previous) =>
      var s' := s.(installed := replacement, calls := s.calls[t := Placed(replacement, previous)]);
      if replacement.None? then s'
      else
        var l := replacement.value;
        s'.(regs := s.regs[l := s.regs[l].(owner := Installed, rank := Some(|s.installs|))],
            installs := s.installs + [l])
    case Placed(replacement, previous) =>
      s.(regs := TellIf(s, replacement, Activate), calls := s.calls[t := Swapped(previous)])
    case Swapped(previous) => s.(mutex := None, calls := s.calls[t := Destroy(previous)])
  }

  /** The destructor of EventListener: stop, unregister, join or detach. */
  function DestructorStep(s: System, t: Thread): System
    requires MidCall(s, t) && CanAdvance(s, t) && Destroys(s.calls[t])
  {
    match s.calls[t]
    case Stopping(l, exit) =>
      s.(regs := s.regs[l := Tell(s.regs[l], Stop)], calls := s.calls[t := Unregistering(l, exit)])
    case Unregistering(l, exit) =>
      s.(regs := s.regs[l := s.regs[l].(registered := false)], calls := s.calls[t := Draining(l, exit)])
    case Draining(l, exit) => s.(calls := s.calls[t := Releasing(l, exit)])
    case Releasing(l, exit) =>
      var r := s.regs[l];
      var handle := if r.handle != Joinable then r.handle
        else if t == DispatcherOf(l) then ThreadHandle.Detached
        else Joined;
      s.(regs := s.regs[l := r.(handle := handle, refs := r.refs - {OwnerRef}, owner := Destroyed)],
         calls := s.calls[t := Returned(exit)])
  }

  function Advanced(s: System, t: Thread, ports: PortMap): System
    requires MidCall(s, t) && CanAdvance(s, t)
  {
    if Builds(s.calls[t]) then BuildStep(s, t, ports)
    else if Destroys(s.calls[t]) then DestructorStep(s, t)
    else SwapStep(s, t)
  }

  function After(s: System, a: Act): System
    requires Possible(s, a)
  {
    match a
    case Enter(t, install) => s.(calls := s.calls[t := Entered(install)])
    case Advance(t, ports) => Advanced(s, t, ports)
    case Fails(t) => (
      match s.calls[t]
      case Entered(_) => s.(calls := s.calls[t := Returned(Failure)])
      case pc =>
        var l := pc.made;
        s.(regs := s.regs[l := s.regs[l].(owner := DyingIn(t))], calls := s.calls[t := Stopping(l, Failure)])
    )
    case NativeEnter(l) => s.(regs := s.regs[l := s.regs[l].(inNative := s.regs[l].inNative + 1)])
    case NativeExit(l, note) =>
      var told := if note.Some? then Enqueue(note.value) else FailQueue;
      s.(regs := s.regs[l := Tell(s.regs[l], told).(inNative := s.regs[l].inNative - 1)])
    case DispatcherStep(l, step) =>
      var r := Tell(s.regs[l], step);
      var s' := s.(regs := s.regs[l := if r.listener.control.Ended? then r.(refs := r.refs - {ThreadRef}) else r]);
      // When the callback returns, the calls it made are over.
      if step.Check? then s' else s'.(calls := s.calls - {DispatcherOf(l)})
  }

  predicate IsRunOf(s: System, acts: seq<Act>)
    decreases |acts|
  {
    acts == [] || (Possible(s, acts[0]) && IsRunOf(After(s, acts[0]), acts[1..]))
  }

  function Reach(s: System, acts: seq<Act>): System
    requires IsRunOf(s, acts)
    decreases |acts|
  {
    if acts == [] then s else Reach(After(s, acts[0]), acts[1..])
  }

  // ----- The invariant, one listener and one call at a time -----

  /** A listener built by thread `t` and not yet installed. */
  predicate Building(s: System, t: Thread, l: Lid) {
    l in s.regs && s.regs[l].owner == HeldBy(t)
  }

  predicate Parked(s: System, t: Thread, l: Option<Lid>) {
    l.Some? ==> Building(s, t, l.value) && s.regs[l.value].handle == Joinable
  }

  /** A listener that was installed and is being taken down by `t`; if `t` is a dispatcher, that
      dispatcher's own listener was installed no later. */
  predicate TakenDown(s: System, t: Thread, l: Option<Lid>) {
    l.Some? ==> TakenDownOne(s, t, l.value)
  }

  predicate TakenDownOne(s: System, t: Thread, l: Lid) {
    && l in s.regs && s.regs[l].owner == DyingIn(t) && s.regs[l].rank.Some?
    && (t.DispatcherOf? ==>
      (t.lid in s.regs && s.regs[t.lid].rank.Some? && s.regs[t.lid].rank.value <= s.regs[l].rank.value))
  }

  predicate Dying(s: System, t: Thread, l: Lid, exit: Exit) {
    match exit
    case Success(removed) => removed == Some(l) && TakenDownOne(s, t, l)
    case Failure => l in s.regs && s.regs[l].owner == DyingIn(t) && s.regs[l].handle == NotStarted
  }

  predicate GoneFor(s: System, t: Thread, l: Lid) {
    && l in s.regs && s.regs[l].listener.stopped
    && (s.regs[l].listener.control.Ended? || t == DispatcherOf(l))
  }

  predicate CallOk(s: System, t: Thread)
    requires t in s.calls
  {
    match s.calls[t]
    case Entered(_) => true
    case Made(l) => Building(s, t, l) && s.regs[l].handle == NotStarted && !s.regs[l].registered
    case Subscribed(l) => Building(s, t, l) && s.regs[l].handle == NotStarted
    case Snapped(l, _) => Building(s, t, l) && s.regs[l].handle == NotStarted
    case Ready(replacement) => Parked(s, t, replacement)
    case LockedGlobal(replacement) => Parked(s, t, replacement)
    case Taken(replacement, previous) => s.installed.None? && Parked(s, t, replacement) && TakenDown(s, t, previous)
    case Emptied(replacement, previous) =>
      s.installed.None? && Parked(s, t, replacement) && TakenDown(s, t, previous)
    case Placed(replacement, previous) => s.installed == replacement && TakenDown(s, t, previous)
    case Swapped(previous) => TakenDown(s, t, previous)
    case Stopping(l, exit) => Dying(s, t, l, exit)
    case Unregistering(l, exit) => Dying(s, t, l, exit) && s.regs[l].listener.stopped
    case Draining(l, exit) => Dying(s, t, l, exit) && s.regs[l].listener.stopped && !s.regs[l].registered
    case Releasing(l, exit) =>
      Dying(s, t, l, exit) && s.regs[l].listener.stopped && !s.regs[l].registered && s.regs[l].inNative == 0
    case Returned(exit) => exit.Success? && exit.removed.Some? ==> GoneFor(s, t, exit.removed.value)
  }

  predicate ThreadOk(s: System, t: Thread)
    requires t in s.calls
  {
    && CallOk(s, t)
    && RunsUserCode(s, t)
    && (t.DispatcherOf? ==> s.regs[t.lid].rank.Some?)
    && (s.mutex == Some(t) <==> InSwap(s.calls[t]))
  }

  predicate RegOk(s: System, l: Lid)
    requires l in s.regs
  {
    var r := s.regs[l];
    && l < s.next
    && (r.rank.Some? ==> r.rank.value < |s.installs| && s.installs[r.rank.value] == l)
    && (r.listener.active ==> r.rank.Some?)
    // Who owns it, who keeps it allocated.
    && (r.owner == Destroyed <==> OwnerRef !in r.refs)
    && (r.owner == Destroyed ==> !r.registered && r.inNative == 0 && r.handle != Joinable && r.listener.stopped)
    && (r.owner == Installed <==> s.installed == Some(l))
    && (r.owner == Installed ==> r.rank == Some(|s.installs| - 1) && r.handle == Joinable && !r.listener.stopped)
    && (r.owner.HeldBy? ==> r.rank.None? && !r.listener.stopped)
    // Its thread.
    && (r.handle == NotStarted ==> r.listener.control == AtWait && r.listener.consumed == [] && r.rank.None?)
    && (r.handle != NotStarted && !r.listener.control.Ended? ==> ThreadRef in r.refs)
    && (r.handle == Joined ==> r.listener.control.Ended?)
    && (r.handle == ThreadHandle.Detached ==> r.owner == Destroyed)
    // Exclusive registration.
    && (r.listener.active && !r.listener.stopped ==> s.installed == Some(l) || BeingTaken(s, l))
    && (s.installed == Some(l) ==> r.listener.active || BeingPlaced(s))
  }

  predicate BeingTaken(s: System, l: Lid) {
    s.mutex.Some? && s.mutex.value in s.calls && s.calls[s.mutex.value].Taken? &&
    s.calls[s.mutex.value].previous == Some(l)
  }

  predicate BeingPlaced(s: System) {
    s.mutex.Some? && s.mutex.value in s.calls && s.calls[s.mutex.value].Placed?
  }

  predicate ListenerOk(s: System, l: Lid)
    requires l in s.regs
  {
    Inv(s.regs[l].listener)
  }

  predicate Links(s: System) {
    && (s.mutex.Some? ==> s.mutex.value in s.calls)
    && (s.installed.Some? ==> s.installed.value in s.regs)
  }

  ghost predicate Good(s: System) {
    && Links(s)
    && (forall l :: l in s.regs ==> RegOk(s, l))
    && (forall l :: l in s.regs ==> ListenerOk(s, l))
    && (forall t :: t in s.calls ==> ThreadOk(s, t))
  }

  // ----- What a step of one thread leaves of everybody else -----

  function Actor(a: Act): Thread {
    match a
    case Enter(t, _) => t
    case Advance(t, _) => t
    case Fails(t) => t
    case NativeEnter(l) => NativeOf(l)
    case NativeExit(l, _) => NativeOf(l)
    case DispatcherStep(l, _) => DispatcherOf(l)
  }

  predicate InUserCode(r: Reg) {
    r.handle != NotStarted && (r.listener.control.InFlight? || r.listener.control.Reporting?)
  }

  predicate Outline(r: Reg, r': Reg) {
    && (r.rank.Some? ==> r'.rank == r.rank)
    && (r.listener.stopped ==> r'.listener.stopped && Popped(r'.listener) == Popped(r.listener))
    && (r.listener.control.Ended? ==> r'.listener.control.Ended?)
  }

  predicate Untouched(r: Reg, r': Reg) {
    && r'.owner == r.owner && r'.rank == r.rank && r'.handle == r.handle && r'.registered == r.registered
    && (!r.registered && r.inNative == 0 ==> r'.inNative == 0)
  }

  predicate OwnedBy(r: Reg, t: Thread) {
    r.owner == HeldBy(t) || r.owner == DyingIn(t) || r.owner == Installed
  }

  predicate FrameOne(s: System, s': System, actor: Thread, l: Lid)
    requires l in s.regs
  {
    && l in s'.regs
    && Outline(s.regs[l], s'.regs[l])
    && (InUserCode(s.regs[l]) && actor != DispatcherOf(l) ==> InUserCode(s'.regs[l]))
    && (OwnedBy(s.regs[l], actor) || Untouched(s.regs[l], s'.regs[l]))
  }

  predicate FrameCall(s: System, s': System, actor: Thread, t: Thread) {
    t != actor ==>
      && (t in s.calls <==> t in s'.calls)
      && (t in s.calls ==> s'.calls[t] == s.calls[t])
      && (s.mutex == Some(t) <==> s'.mutex == Some(t))
  }

  ghost predicate Frame(s: System, s': System, actor: Thread) {
    && (forall l :: l in s.regs ==> FrameOne(s, s', actor, l))
    && (forall t :: FrameCall(s, s', actor, t))
    && (s.mutex != Some(actor) ==> s'.installed == s.installed)
  }

  lemma BuildingStays(s: System, s': System, actor: Thread, t: Thread, l: Lid)
    requires Building(s, t, l) && t != actor && FrameOne(s, s', actor, l)
    ensures Building(s', t, l)
    ensures s'.regs[l].handle == s.regs[l].handle && s'.regs[l].registered == s.regs[l].registered
  {
  }

  lemma TakenDownStays(s: System, s': System, actor: Thread, t: Thread, l: Lid)
    requires TakenDownOne(s, t, l) && t != actor && FrameOne(s, s', actor, l)
    requires t.DispatcherOf? ==> FrameOne(s, s', actor, t.lid)
    ensures TakenDownOne(s', t, l)
  {
  }

  lemma DyingStays(s: System, s': System, actor: Thread, t: Thread, l: Lid, exit: Exit)
    requires Dying(s, t, l, exit) && t != actor && FrameOne(s, s', actor, l)
    requires t.DispatcherOf? && t.lid in s.regs ==> FrameOne(s, s', actor, t.lid)
    ensures Dying(s', t, l, exit)
    ensures s.regs[l].listener.stopped ==> s'.regs[l].listener.stopped
    ensures s'.regs[l].registered == s.regs[l].registered
    ensures !s.regs[l].registered && s.regs[l].inNative == 0 ==> s'.regs[l].inNative == 0
  {
    if exit.Success? {
      TakenDownStays(s, s', actor, t, l);
    }
  }

  /** A call that does not move stays in order whatever another thread does. */
  lemma CallStaysOk(s: System, s': System, actor: Thread, t: Thread)
    requires t in s.calls && ThreadOk(s, t) && t != actor && Frame(s, s', actor)
    ensures t in s'.calls && CallOk(s', t)
  {
    assert FrameCall(s, s', actor, t);
    match s.calls[t]
    case Entered(_) =>
    case Made(l) => BuildingStays(s, s', actor, t, l);
    case Subscribed(l) => BuildingStays(s, s', actor, t, l);
    case Snapped(l, _) => BuildingStays(s, s', actor, t, l);
    case Ready(replacement) => ParkedStays(s, s', actor, t, replacement);
    case LockedGlobal(replacement) => ParkedStays(s, s', actor, t, replacement);
    case Taken(replacement, previous) =>
      ParkedStays(s, s', actor, t, replacement);
      PreviousStays(s, s', actor, t, previous);
    case Emptied(replacement, previous) =>
      ParkedStays(s, s', actor, t, replacement);
      PreviousStays(s, s', actor, t, previous);
    case Placed(_, previous) => PreviousStays(s, s', actor, t, previous);
    case Swapped(previous) => PreviousStays(s, s', actor, t, previous);
    case Stopping(l, exit) => DyingStays(s, s', actor, t, l, exit);
    case Unregistering(l, exit) => DyingStays(s, s', actor, t, l, exit);
    case Draining(l, exit) => DyingStays(s, s', actor, t, l, exit);
    case Releasing(l, exit) => DyingStays(s, s', actor, t, l, exit);
    case Returned(exit) =>
  }

  lemma ParkedStays(s: System, s': System, actor: Thread, t: Thread, l: Option<Lid>)
    requires Parked(s, t, l) && t != actor && Frame(s, s', actor)
    ensures Parked(s', t, l)
  {
    if l.Some? {
      BuildingStays(s, s', actor, t, l.value);
    }
  }

  lemma PreviousStays(s: System, s': System, actor: Thread, t: Thread, l: Option<Lid>)
    requires TakenDown(s, t, l) && t != actor && Frame(s, s', actor)
    ensures TakenDown(s', t, l)
  {
    if l.Some? {
      TakenDownStays(s, s', actor, t, l.value);
    }
  }

  lemma OthersStayOk(s: System, s': System, actor: Thread, t: Thread)
    requires t in s.calls && ThreadOk(s, t) && t != actor && Frame(s, s', actor)
    ensures t in s'.calls && ThreadOk(s', t)
  {
    CallStaysOk(s, s', actor, t);
    assert FrameCall(s, s', actor, t);
    if t.DispatcherOf? {
      assert FrameOne(s, s', actor, t.lid);
    }
  }

  /** A listener keeps its outline under any of its own steps. */
  lemma ToldOutline(r: Reg, a: Action)
    requires Enabled(r.listener, a)
    ensures Outline(r, Tell(r, a)) && Untouched(r, Tell(r, a))
    ensures !a.FinishDispatch? && !a.FinishReport? && InUserCode(r) ==> InUserCode(Tell(r, a))
  {
  }

  lemma BuildFramesReg(s: System, t: Thread, ports: PortMap, l: Lid)
    requires MidCall(s, t) && CanAdvance(s, t) && Builds(s.calls[t])
    requires ThreadOk(s, t) && l in s.regs && RegOk(s, l)
    ensures FrameOne(s, BuildStep(s, t, ports), t, l)
  {
  }

  lemma TakeFramesReg(s: System, t: Thread, l: Lid)
    requires MidCall(s, t) && CanAdvance(s, t) && ThreadOk(s, t) && l in s.regs && RegOk(s, l)
    requires s.calls[t].Ready? || s.calls[t].LockedGlobal? || s.calls[t].Taken?
    ensures FrameOne(s, SwapStep(s, t), t, l)
  {
    if s.calls[t].Taken? {
      ToldOutline(s.regs[l], Stop);
    }
  }

  lemma PlaceFramesReg(s: System, t: Thread, l: Lid)
    requires MidCall(s, t) && CanAdvance(s, t) && ThreadOk(s, t) && l in s.regs && RegOk(s, l)
    requires s.calls[t].Emptied? || s.calls[t].Placed? || s.calls[t].Swapped?
    ensures FrameOne(s, SwapStep(s, t), t, l)
  {
    if s.calls[t].Placed? {
      ToldOutline(s.regs[l], Activate);
    }
  }

  lemma SwapFramesReg(s: System, t: Thread, l: Lid)
    requires MidCall(s, t) && CanAdvance(s, t) && ThreadOk(s, t) && l in s.regs && RegOk(s, l)
    requires s.calls[t].Ready? || InSwap(s.calls[t])
    ensures FrameOne(s, SwapStep(s, t), t, l)
  {
    if s.calls[t].Emptied? || s.calls[t].Placed? || s.calls[t].Swapped? {
      PlaceFramesReg(s, t, l);
    } else {
      TakeFramesReg(s, t, l);
    }
  }

  lemma DestructorFramesReg(s: System, t: Thread, l: Lid)
    requires MidCall(s, t) && CanAdvance(s, t) && Destroys(s.calls[t])
    requires ThreadOk(s, t) && l in s.regs && RegOk(s, l)
    ensures FrameOne(s, DestructorStep(s, t), t, l)
  {
    if s.calls[t].Stopping? {
      ToldOutline(s.regs[l], Stop);
    }
  }

  lemma NativeFramesReg(s: System, a: Act, l: Lid)
    requires Possible(s, a) && l in s.regs && (a.NativeEnter? || a.NativeExit?)
    ensures FrameOne(s, After(s, a), Actor(a), l)
  {
    if a.NativeExit? {
      ToldOutline(s.regs[a.l], if a.note.Some? then Enqueue(a.note.value) else FailQueue);
    }
  }

  lemma DispatcherFramesReg(s: System, a: Act, l: Lid)
    requires Possible(s, a) && l in s.regs && a.DispatcherStep?
    ensures FrameOne(s, After(s, a), Actor(a), l)
  {
    ToldOutline(s.regs[a.l], a.step);
  }

  lemma StepFramesReg(s: System, a: Act, l: Lid)
    requires Possible(s, a) && l in s.regs && RegOk(s, l)
    requires Actor(a) in s.calls ==> ThreadOk(s, Actor(a))
    ensures FrameOne(s, After(s, a), Actor(a), l)
  {
    match a
    case Advance(t, ports) =>
      if Builds(s.calls[t]) { BuildFramesReg(s, t, ports, l); }
      else if Destroys(s.calls[t]) { DestructorFramesReg(s, t, l); }
      else { SwapFramesReg(s, t, l); }
    case Enter(_, _) =>
    case Fails(t) =>
    case NativeEnter(_) => NativeFramesReg(s, a, l);
    case NativeExit(_, _) => NativeFramesReg(s, a, l);
    case DispatcherStep(_, _) => DispatcherFramesReg(s, a, l);
  }

  lemma StepFramesCall(s: System, a: Act, t: Thread)
    requires Possible(s, a)
    requires Actor(a) in s.calls ==> ThreadOk(s, Actor(a))
    ensures FrameCall(s, After(s, a), Actor(a), t)
    ensures s.mutex != Some(Actor(a)) ==> After(s, a).installed == s.installed
  {
  }

  lemma StepFrames(s: System, a: Act)
    requires Good(s) && Possible(s, a)
    ensures Frame(s, After(s, a), Actor(a))
  {
    forall l | l in s.regs ensures FrameOne(s, After(s, a), Actor(a), l) { StepFramesReg(s, a, l); }
    forall t ensures FrameCall(s, After(s, a), Actor(a), t) { StepFramesCall(s, a, t); }
    StepFramesCall(s, a, Actor(a));
  }

  // ----- What a step keeps, listener by listener -----

  lemma EnterKeepsReg(s: System, a: Act, l: Lid)
    requires Possible(s, a) && (a.Enter? || a.Fails?) && l in s.regs && RegOk(s, l) && Links(s)
    requires Actor(a) in s.calls ==> ThreadOk(s, Actor(a))
    ensures RegOk(After(s, a), l)
  {
  }

  lemma NativeKeepsReg(s: System, a: Act, l: Lid)
    requires Possible(s, a) && (a.NativeEnter? || a.NativeExit?) && l in s.regs && RegOk(s, l)
    ensures RegOk(After(s, a), l)
  {
  }

  lemma CheckKeepsReg(s: System, a: Act, l: Lid)
    requires Possible(s, a) && a.DispatcherStep? && a.step.Check? && l in s.regs && RegOk(s, l) && ListenerOk(s, l)
    ensures RegOk(After(s, a), l)
  {
  }

  lemma FinishKeepsReg(s: System, a: Act, l: Lid)
    requires Possible(s, a) && a.DispatcherStep? && !a.step.Check? && l in s.regs && RegOk(s, l)
    requires Actor(a) in s.calls ==> ThreadOk(s, Actor(a))
    ensures RegOk(After(s, a), l)
  {
  }

  lemma BuildKeepsReg(s: System, t: Thread, ports: PortMap, l: Lid)
    requires MidCall(s, t) && CanAdvance(s, t) && Builds(s.calls[t]) && ThreadOk(s, t) && Links(s)
    requires l in s.regs ==> RegOk(s, l)
    requires s.next !in s.regs
    requires l in BuildStep(s, t, ports).regs
    ensures RegOk(BuildStep(s, t, ports), l)
  {
  }

  lemma TakeKeepsReg(s: System, t: Thread, l: Lid)
    requires MidCall(s, t) && CanAdvance(s, t) && ThreadOk(s, t) && l in s.regs && RegOk(s, l)
    requires s.calls[t].Ready? || s.calls[t].LockedGlobal? || s.calls[t].Taken?
    ensures RegOk(SwapStep(s, t), l)
  {
  }

  lemma PlaceKeepsReg(s: System, t: Thread, l: Lid)
    requires MidCall(s, t) && CanAdvance(s, t) && ThreadOk(s, t) && l in s.regs && RegOk(s, l)
    requires s.calls[t].Emptied? || s.calls[t].Placed? || s.calls[t].Swapped?
    ensures RegOk(SwapStep(s, t), l)
  {
  }

  lemma SwapKeepsReg(s: System, t: Thread, l: Lid)
    requires MidCall(s, t) && CanAdvance(s, t) && ThreadOk(s, t) && l in s.regs && RegOk(s, l)
    requires s.calls[t].Ready? || InSwap(s.calls[t])
    ensures RegOk(SwapStep(s, t), l)
  {
    if s.calls[t].Emptied? || s.calls[t].Placed? || s.calls[t].Swapped? {
      PlaceKeepsReg(s, t, l);
    } else {
      TakeKeepsReg(s, t, l);
    }
  }

  lemma DestructorKeepsReg(s: System, t: Thread, l: Lid)
    requires MidCall(s, t) && CanAdvance(s, t) && Destroys(s.calls[t]) && ThreadOk(s, t) && Links(s)
    requires l in s.regs && RegOk(s, l)
    ensures RegOk(DestructorStep(s, t), l)
  {
  }

  lemma StepKeepsReg(s: System, a: Act, l: Lid)
    requires Possible(s, a) && Links(s) && l in After(s, a).regs
    requires Actor(a) in s.calls ==> ThreadOk(s, Actor(a))
    requires l in s.regs ==> RegOk(s, l) && ListenerOk(s, l)
    requires s.next !in s.regs
    ensures RegOk(After(s, a), l)
  {
    match a
    case Advance(t, ports) =>
      if Builds(s.calls[t]) { BuildKeepsReg(s, t, ports, l); }
      else if Destroys(s.calls[t]) { DestructorKeepsReg(s, t, l); }
      else { SwapKeepsReg(s, t, l); }
    case Enter(_, _) => EnterKeepsReg(s, a, l);
    case Fails(t) => EnterKeepsReg(s, a, l);
    case NativeEnter(_) => NativeKeepsReg(s, a, l);
    case NativeExit(_, _) => NativeKeepsReg(s, a, l);
    case DispatcherStep(_, step) =>
      if step.Check? { CheckKeepsReg(s, a, l); } else { FinishKeepsReg(s, a, l); }
  }

  /** The single-listener invariant survives as well: each listener changes only by its own steps. */
  lemma ToldKeepsListener(r: Reg, a: Action)
    requires Enabled(r.listener, a) && Inv(r.listener)
    ensures Inv(Tell(r, a).listener)
  {
    StepKeepsInv(r.listener, a);
  }

  lemma SnapshotKeepsListener(r: Reg, ports: PortMap)
    requires Inv(r.listener) && r.listener.consumed == []
    ensures Inv(r.listener.(snapshot := ports, ports := ports))
  {
  }

  lemma BuildKeepsListener(s: System, t: Thread, ports: PortMap, l: Lid)
    requires MidCall(s, t) && CanAdvance(s, t) && Builds(s.calls[t]) && ThreadOk(s, t)
    requires l in BuildStep(s, t, ports).regs && (l in s.regs ==> RegOk(s, l) && ListenerOk(s, l))
    ensures ListenerOk(BuildStep(s, t, ports), l)
  {
    FreshInv(map[]);
    if s.calls[t].Snapped? && s.calls[t].made == l {
      SnapshotKeepsListener(s.regs[l], s.calls[t].ports);
    }
  }

  lemma SwapKeepsListener(s: System, t: Thread, l: Lid)
    requires MidCall(s, t) && CanAdvance(s, t) && (s.calls[t].Ready? || InSwap(s.calls[t]))
    requires l in s.regs && ListenerOk(s, l)
    ensures ListenerOk(SwapStep(s, t), l)
  {
    ToldKeepsListener(s.regs[l], Stop);
    ToldKeepsListener(s.regs[l], Activate);
  }

  lemma DestructorKeepsListener(s: System, t: Thread, l: Lid)
    requires MidCall(s, t) && CanAdvance(s, t) && Destroys(s.calls[t])
    requires l in s.regs && ListenerOk(s, l)
    ensures ListenerOk(DestructorStep(s, t), l)
  {
    ToldKeepsListener(s.regs[l], Stop);
  }

  lemma StepKeepsListener(s: System, a: Act, l: Lid)
    requires Possible(s, a) && l in After(s, a).regs
    requires Actor(a) in s.calls ==> ThreadOk(s, Actor(a))
    requires l in s.regs ==> RegOk(s, l) && ListenerOk(s, l)
    ensures ListenerOk(After(s, a), l)
  {
    match a
    case Advance(t, ports) =>
      if Builds(s.calls[t]) { BuildKeepsListener(s, t, ports, l); }
      else if Destroys(s.calls[t]) { DestructorKeepsListener(s, t, l); }
      else { SwapKeepsListener(s, t, l); }
    case NativeExit(x, note) =>
      if l == x { ToldKeepsListener(s.regs[l], if note.Some? then Enqueue(note.value) else FailQueue); }
    case DispatcherStep(x, step) => if l == x { ToldKeepsListener(s.regs[l], step); }
    case _ =>
  }

  // ----- The moving call itself -----

  lemma EnterKeepsActor(s: System, a: Act)
    requires Good(s) && Possible(s, a) && (a.Enter? || a.Fails?)
    ensures ThreadOk(After(s, a), a.t)
  {
  }

  lemma BuildKeepsActor(s: System, t: Thread, ports: PortMap)
    requires MidCall(s, t) && CanAdvance(s, t) && Builds(s.calls[t]) && ThreadOk(s, t)
    requires s.next !in s.regs
    ensures ThreadOk(BuildStep(s, t, ports), t)
  {
  }

  lemma TakeKeepsActor(s: System, t: Thread)
    requires MidCall(s, t) && CanAdvance(s, t) && ThreadOk(s, t)
    requires s.calls[t].Ready? || s.calls[t].LockedGlobal? || s.calls[t].Taken?
    requires s.installed.Some? ==> s.installed.value in s.regs && RegOk(s, s.installed.value)
    requires t.DispatcherOf? ==> RegOk(s, t.lid)
    ensures ThreadOk(SwapStep(s, t), t)
  {
  }

  lemma PlaceKeepsActor(s: System, t: Thread)
    requires MidCall(s, t) && CanAdvance(s, t) && ThreadOk(s, t)
    requires s.calls[t].Emptied? || s.calls[t].Placed? || s.calls[t].Swapped?
    requires s.calls[t].Emptied? && s.calls[t].replacement.Some? ==> RegOk(s, s.calls[t].replacement.value)
    ensures ThreadOk(SwapStep(s, t), t)
  {
  }

  lemma DestructorKeepsActor(s: System, t: Thread)
    requires MidCall(s, t) && CanAdvance(s, t) && Destroys(s.calls[t]) && ThreadOk(s, t)
    requires s.calls[t].dying in s.regs && RegOk(s, s.calls[t].dying)
    ensures ThreadOk(DestructorStep(s, t), t)
  {
  }

  /** A dispatcher in the middle of user code does not test its queue, and the calls it made end
      with the callback; native threads make no calls. */
  lemma OnlyCallersStayInCalls(s: System, a: Act)
    requires Possible(s, a) && Actor(a) in s.calls && ThreadOk(s, Actor(a))
    requires Actor(a) in After(s, a).calls
    ensures a.Enter? || a.Advance? || a.Fails?
  {
  }

  lemma ActorStaysOk(s: System, a: Act)
    requires Good(s) && Possible(s, a) && Actor(a) in After(s, a).calls
    ensures ThreadOk(After(s, a), Actor(a))
  {
    var t := Actor(a);
    if a.Enter? {
      EnterKeepsActor(s, a);
    } else {
      OnlyCallersStayInCalls(s, a);
      if a.Fails? {
        EnterKeepsActor(s, a);
      } else if Builds(s.calls[t]) {
        FreshLid(s);
        BuildKeepsActor(s, t, a.ports);
      } else if Destroys(s.calls[t]) {
        DestructorKeepsActor(s, t);
      } else if s.calls[t].Ready? || s.calls[t].LockedGlobal? || s.calls[t].Taken? {
        TakeKeepsActor(s, t);
      } else {
        PlaceKeepsActor(s, t);
      }
    }
  }

  lemma FreshLid(s: System)
    requires Good(s)
    ensures s.next !in s.regs
  {
    assert s.next in s.regs ==> RegOk(s, s.next);
  }

  lemma StepKeepsThread(s: System, a: Act, t: Thread)
    requires Good(s) && Possible(s, a) && t in After(s, a).calls
    ensures ThreadOk(After(s, a), t)
  {
    if t == Actor(a) {
      ActorStaysOk(s, a);
    } else {
      StepFrames(s, a);
      assert FrameCall(s, After(s, a), Actor(a), t);
      OthersStayOk(s, After(s, a), Actor(a), t);
    }
  }

  lemma StepKeepsMutexHolder(s: System, a: Act)
    requires Possible(s, a) && Links(s) && After(s, a).mutex.Some?
    requires Actor(a) in s.calls ==> ThreadOk(s, Actor(a))
    ensures After(s, a).mutex.value in After(s, a).calls
  {
    StepFramesCall(s, a, After(s, a).mutex.value);
  }

  lemma StepKeepsInstalled(s: System, a: Act)
    requires Possible(s, a) && Links(s) && After(s, a).installed.Some?
    requires Actor(a) in s.calls ==> ThreadOk(s, Actor(a))
    ensures After(s, a).installed.value in After(s, a).regs
  {
    if a.Advance? && s.calls[a.t].Emptied? {
      assert Parked(s, a.t, s.calls[a.t].replacement);
    }
  }

  lemma StepKeepsGood(s: System, a: Act)
    requires Good(s) && Possible(s, a)
    ensures Good(After(s, a))
  {
    if After(s, a).mutex.Some? { StepKeepsMutexHolder(s, a); }
    if After(s, a).installed.Some? { StepKeepsInstalled(s, a); }
    FreshLid(s);
    forall l | l in After(s, a).regs ensures RegOk(After(s, a), l) && ListenerOk(After(s, a), l) {
      StepKeepsReg(s, a, l);
      StepKeepsListener(s, a, l);
    }
    forall t | t in After(s, a).calls ensures ThreadOk(After(s, a), t) { StepKeepsThread(s, a, t); }
  }

  lemma {:induction false} ReachIsGood(s: System, acts: seq<Act>)
    requires Good(s) && IsRunOf(s, acts)
    ensures Good(Reach(s, acts))
    decreases |acts|
  {
    if acts != [] {
      StepKeepsGood(s, acts[0]);
      ReachIsGood(After(s, acts[0]), acts[1..]);
    }
  }

  lemma ReachableIsGood(acts: seq<Act>)
    requires IsRunOf(INITIALLY, acts)
    ensures Good(Reach(INITIALLY, acts))
  {
    ReachIsGood(INITIALLY, acts);
  }

  // ----- Theorems: who is registered, who is gone, what is allocated -----

  /** Whenever the global mutex is free, the active, unstopped listener is exactly the installed one. */
  lemma RegistrationIsExclusive(acts: seq<Act>, l: Lid)
    requires IsRunOf(INITIALLY, acts)
    requires Reach(INITIALLY, acts).mutex.None? && l in Reach(INITIALLY, acts).regs
    ensures var s := Reach(INITIALLY, acts);
      s.regs[l].listener.active && !s.regs[l].listener.stopped <==> s.installed == Some(l)
  {
    ReachableIsGood(acts);
    assert RegOk(Reach(INITIALLY, acts), l);
  }

  /** The call that removed `l` has returned: the dispatcher of `l` has ended, unless the call was
      made on that very dispatcher, which then stands in the callback that made it. */
  lemma RemovalIsComplete(acts: seq<Act>, t: Thread, l: Lid)
    requires IsRunOf(INITIALLY, acts)
    requires var s := Reach(INITIALLY, acts);
      t in s.calls && s.calls[t] == Returned(Success(Some(l)))
    ensures var s := Reach(INITIALLY, acts);
      && l in s.regs && s.regs[l].listener.stopped
      && if t == DispatcherOf(l) then InUserCode(s.regs[l]) else s.regs[l].listener.control.Ended?
  {
    ReachableIsGood(acts);
    var s := Reach(INITIALLY, acts);
    assert ThreadOk(s, t);
    RemoverIsDone(s, t, l);
  }

  lemma RemoverIsDone(s: System, t: Thread, l: Lid)
    requires t in s.calls && ThreadOk(s, t) && s.calls[t] == Returned(Success(Some(l)))
    ensures l in s.regs && s.regs[l].listener.stopped
    ensures if t == DispatcherOf(l) then InUserCode(s.regs[l]) else s.regs[l].listener.control.Ended?
  {
    assert GoneFor(s, t, l) && RunsUserCode(s, t);
  }

  /** From the moment a listener is stopped, whatever every thread does, its dispatcher takes no
      further notification: the callback in flight, if any, is its last. */
  lemma {:induction false} StoppedForGood(s: System, acts: seq<Act>, l: Lid)
    requires Good(s) && IsRunOf(s, acts) && l in s.regs && s.regs[l].listener.stopped
    ensures l in Reach(s, acts).regs && Reach(s, acts).regs[l].listener.stopped
    ensures Popped(Reach(s, acts).regs[l].listener) == Popped(s.regs[l].listener)
    decreases |acts|
  {
    if acts != [] {
      StepFramesReg(s, acts[0], l);
      StepKeepsGood(s, acts[0]);
      StoppedForGood(After(s, acts[0]), acts[1..], l);
    }
  }

  /** The call holds or destroys this listener. */
  predicate Handles(pc: Pc, l: Lid) {
    match pc
    case Made(made) => made == l
    case Subscribed(made) => made == l
    case Snapped(made, _) => made == l
    case Ready(replacement) => replacement == Some(l)
    case LockedGlobal(replacement) => replacement == Some(l)
    case Taken(replacement, previous) => replacement == Some(l) || previous == Some(l)
    case Emptied(replacement, previous) => replacement == Some(l) || previous == Some(l)
    case Placed(replacement, previous) => replacement == Some(l) || previous == Some(l)
    case Swapped(previous) => previous == Some(l)
    case Stopping(dying, _) => dying == l
    case Unregistering(dying, _) => dying == l
    case Draining(dying, _) => dying == l
    case Releasing(dying, _) => dying == l
    case _ => false
  }

  /** A listener state is still allocated while its native registration, a native callback in
      progress, its dispatcher thread, the global or the call that holds or destroys it can touch it. */
  lemma StateOutlivesItsUsers(acts: seq<Act>, l: Lid, t: Thread)
    requires IsRunOf(INITIALLY, acts) && l in Reach(INITIALLY, acts).regs
    ensures var s := Reach(INITIALLY, acts);
      var r := s.regs[l];
      (r.registered || r.inNative > 0 || s.installed == Some(l)
       || (r.handle != NotStarted && !r.listener.control.Ended?)
       || (t in s.calls && Handles(s.calls[t], l)))
      ==> r.refs != {}
  {
    ReachableIsGood(acts);
    var s := Reach(INITIALLY, acts);
    assert RegOk(s, l);
    UsedIsHeld(s, l);
    if t in s.calls && Handles(s.calls[t], l) {
      assert ThreadOk(s, t);
      if InSwap(s.calls[t]) { SwappedIsOwned(s, t, l); } else { HandledIsOwned(s, t, l); }
    }
  }

  lemma UsedIsHeld(s: System, l: Lid)
    requires l in s.regs && RegOk(s, l)
    ensures var r := s.regs[l];
      (r.registered || r.inNative > 0 || s.installed == Some(l)
       || (r.handle != NotStarted && !r.listener.control.Ended?) || r.owner != Destroyed)
      ==> r.refs != {}
  {
    assert OwnerRef in s.regs[l].refs || ThreadRef in s.regs[l].refs || s.regs[l].owner == Destroyed;
  }

  lemma SwappedIsOwned(s: System, t: Thread, l: Lid)
    requires t in s.calls && CallOk(s, t) && InSwap(s.calls[t]) && Handles(s.calls[t], l)
    requires l in s.regs && RegOk(s, l)
    ensures s.regs[l].owner != Destroyed
  {
  }

  lemma HandledIsOwned(s: System, t: Thread, l: Lid)
    requires t in s.calls && CallOk(s, t) && !InSwap(s.calls[t]) && Handles(s.calls[t], l)
    ensures l in s.regs && s.regs[l].owner != Destroyed
  {
  }

  // ----- Theorem: no deadlock -----

  /** Whom a thread is waiting for: the holder of the global mutex, the native callbacks that
      CM_Unregister_Notification lets finish, or the dispatcher being joined. */
  function WaitsFor(s: System, t: Thread): Option<Thread> {
    if !MidCall(s, t) then None
    else
      match s.calls[t]
      case Ready(_) => s.mutex
      case Draining(l, _) => if l in s.regs && s.regs[l].inNative > 0 then Some(NativeOf(l)) else None
      case Releasing(l, _) =>
        if l in s.regs && s.regs[l].handle == Joinable && t != DispatcherOf(l) && !s.regs[l].listener.control.Ended?
        then Some(DispatcherOf(l)) else None
      case _ => None
  }

  function Rank(s: System, t: Thread): nat {
    if t.DispatcherOf? && t.lid in s.regs && s.regs[t.lid].rank.Some? && s.regs[t.lid].rank.value < |s.installs|
    then |s.installs| - s.regs[t.lid].rank.value
    else |s.installs| + 1
  }

  function Height(s: System, t: Thread): nat {
    if !MidCall(s, t) then 0
    else
      match s.calls[t]
      case Ready(_) => 1
      case Draining(_, _) => 1
      case Releasing(_, _) => 2 + Rank(s, t)
      case _ => 0
  }

  /** A dispatcher joins only listeners installed after its own, and a mutex holder waits for nobody. */
  lemma JoinsClimb(s: System, t: Thread)
    requires Good(s)
    ensures s.mutex == Some(t) ==> WaitsFor(s, t).None?
    ensures t.DispatcherOf? && MidCall(s, t) && s.calls[t].Releasing? && WaitsFor(s, t).Some? ==>
      var l := WaitsFor(s, t).value.lid;
      && t.lid in s.regs && s.regs[t.lid].rank.Some? && l in s.regs && s.regs[l].rank.Some?
      && s.regs[t.lid].rank.value < s.regs[l].rank.value
  {
    if t in s.calls {
      assert ThreadOk(s, t);
      if WaitsFor(s, t).Some? && s.calls[t].Releasing? {
        var l := WaitsFor(s, t).value.lid;
        assert RegOk(s, l);
        if t.DispatcherOf? {
          assert RegOk(s, t.lid);
        }
      }
    }
  }

  /** The whole wait-for graph (mutex, native callbacks, joins) is acyclic: waiting goes downhill. */
  lemma WaitingDescends(s: System, t: Thread)
    requires Good(s) && WaitsFor(s, t).Some?
    ensures Height(s, WaitsFor(s, t).value) < Height(s, t)
  {
    var u := WaitsFor(s, t).value;
    assert ThreadOk(s, t);
    JoinsClimb(s, t);
    if u in s.calls {
      assert ThreadOk(s, u);
    }
    if s.calls[t].Releasing? {
      assert RegOk(s, u.lid);
      if t.DispatcherOf? {
        assert RegOk(s, t.lid);
      }
    }
  }

  /** Where the chain of waits from `t` ends. */
  ghost function ChainEnd(s: System, t: Thread): Thread
    requires Good(s)
    decreases Height(s, t)
  {
    match WaitsFor(s, t)
    case None => t
    case Some(u) => WaitingDescends(s, t); ChainEnd(s, u)
  }

  /** The threads somebody may be waiting for, and every thread inside a call. */
  predicate Owing(s: System, t: Thread) {
    || MidCall(s, t)
    || (t.NativeOf? && t.lid in s.regs && s.regs[t.lid].inNative > 0)
    || (t.DispatcherOf? && t.lid in s.regs && s.regs[t.lid].handle != NotStarted
        && s.regs[t.lid].listener.stopped && !s.regs[t.lid].listener.control.Ended?)
  }

  lemma WaitedForIsOwing(s: System, t: Thread)
    requires Good(s) && WaitsFor(s, t).Some?
    ensures Owing(s, WaitsFor(s, t).value)
  {
    assert ThreadOk(s, t);
    if s.calls[t].Ready? {
      assert ThreadOk(s, s.mutex.value);
    }
  }

  lemma UnblockedCanStep(s: System, t: Thread) returns (a: Act)
    requires Good(s) && Owing(s, t) && WaitsFor(s, t).None?
    ensures Possible(s, a) && Actor(a) == t
  {
    if MidCall(s, t) {
      a := Advance(t, map[]);
      assert ThreadOk(s, t);
    } else if t.NativeOf? {
      a := NativeExit(t.lid, None);
    } else {
      assert ListenerOk(s, t.lid);
      var answer := Answer(None, false);
      StoppedDispatcherEnds(s.regs[t.lid].listener, answer);
      a := DispatcherStep(t.lid, OwnStep(s.regs[t.lid].listener, answer));
    }
  }

  lemma {:induction false} ChainEndCanStep(s: System, t: Thread)
    requires Good(s) && Owing(s, t)
    ensures exists a :: Possible(s, a) && Actor(a) == ChainEnd(s, t)
    decreases Height(s, t)
  {
    match WaitsFor(s, t)
    case None => var a := UnblockedCanStep(s, t);
    case Some(u) =>
      WaitingDescends(s, t);
      WaitedForIsOwing(s, t);
      ChainEndCanStep(s, u);
  }

  /** In every reachable state, for every call in progress, the waiting ends at a thread that can
      take a step: handover never deadlocks. */
  lemma HandoverNeverDeadlocks(acts: seq<Act>, t: Thread)
    requires IsRunOf(INITIALLY, acts) && MidCall(Reach(INITIALLY, acts), t)
    ensures var s := Reach(INITIALLY, acts);
      Good(s) && exists a :: Possible(s, a) && Actor(a) == ChainEnd(s, t)
  {
    ReachableIsGood(acts);
    ChainEndCanStep(Reach(INITIALLY, acts), t);
  }
}
