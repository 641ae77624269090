/** One EventListenerState and its dispatcher thread as a transition system: each section
    that holds `mutex_` is one step, and any order of steps of any number of threads is a
    run (event_listener_state.hpp:22-102). */
module ListenerSteps {
  import opened Options
  import opened PortDispatch

  /** Where the dispatcher thread is. `AtWait` is about to lock and test the predicate;
      `Asleep` has released the lock inside `wakeup_.wait`; `InFlight` has popped one
      notification and runs outside the lock; `Reporting` runs the queue-failure report. */
  datatype Control =
    | AtWait
    | Asleep(signalled: bool)
    | InFlight(note: Notification)
    | Reporting
    | Ended

  /** Besides the fields of the class: the dispatcher's local port map, its log, and the
      history the properties are about (what was accepted and consumed, how many queue
      failures were noted and how many were reported). */
  datatype Listener = Listener(
    pending: seq<Notification>, active: bool, stopped: bool, queueFailed: bool,
    control: Control, snapshot: PortMap, ports: PortMap, log: seq<Entry>,
    accepted: seq<Notification>, consumed: seq<Item>, failures: nat, reports: nat)

  function Fresh(snapshot: PortMap): Listener {
    Listener([], false, false, false, AtWait, snapshot, snapshot, [], [], [], 0, 0)
  }

  datatype Action =
    | Enqueue(note: Notification)
    | FailQueue
    | Activate
    | Stop
    | Check(spurious: bool)
    | FinishDispatch(answer: Answer)
    | FinishReport

  /** The predicate of `wakeup_.wait`. */
  predicate WaitOver(s: Listener) {
    s.stopped || (s.active && (s.queueFailed || s.pending != []))
  }

  /** `notify_one`: it reaches the dispatcher only if the dispatcher is asleep. */
  function Notify(c: Control): Control {
    if c.Asleep? then Asleep(true) else c
  }

  predicate Enabled(s: Listener, a: Action) {
    match a
    case Check(spurious) => s.control == AtWait || s.control == Asleep(true) || (s.control.Asleep? && spurious)
    case FinishDispatch(_) => s.control.InFlight?
    case FinishReport => s.control.Reporting?
    case _ => true
  }

  function Apply(s: Listener, a: Action): Listener
    requires Enabled(s, a)
  {
    match a
    case Enqueue(note) =>
      if s.stopped then s
      else s.(pending := s.pending + [note], accepted := s.accepted + [note], control := Notify(s.control))
    case FailQueue => s.(queueFailed := true, failures := s.failures + 1, control := Notify(s.control))
    case Activate => s.(active := true, control := Notify(s.control))
    case Stop => s.(stopped := true, control := Notify(s.control))
    case Check(_) => Locked(s)
    case FinishDispatch(answer) =>
      var item := Item(s.control.note, answer);
      var after := Extend(Outcome(s.ports, s.log), item);
      s.(control := AtWait, consumed := s.consumed + [item], ports := after.ports, log := after.log)
    case FinishReport => s.(control := AtWait)
  }

  /** The dispatcher's own locked section, from the predicate test to the unlock. */
  function Locked(s: Listener): Listener {
    if !WaitOver(s) then s.(control := Asleep(false))
    else if s.stopped then s.(control := Ended)
    else if s.queueFailed then s.(queueFailed := false, control := Reporting, reports := s.reports + 1)
    else s.(control := InFlight(s.pending[0]), pending := s.pending[1..])
  }

  predicate IsRun(s: Listener, acts: seq<Action>)
    decreases |acts|
  {
    acts == [] || (Enabled(s, acts[0]) && IsRun(Apply(s, acts[0]), acts[1..]))
  }

  function Execute(s: Listener, acts: seq<Action>): Listener
    requires IsRun(s, acts)
    decreases |acts|
  {
    if acts == [] then s else Execute(Apply(s, acts[0]), acts[1..])
  }

  lemma {:induction false} RunConcat(s: Listener, first: seq<Action>, more: seq<Action>)
    requires IsRun(s, first) && IsRun(Execute(s, first), more)
    ensures IsRun(s, first + more) && Execute(s, first + more) == Execute(Execute(s, first), more)
    decreases |first|
  {
    if first == [] {
      assert first + more == more;
    } else {
      RunConcat(Apply(s, first[0]), first[1..], more);
      assert (first + more)[1..] == first[1..] + more;
    }
  }

  // ----- What every step keeps -----

  function Notes(items: seq<Item>): seq<Notification> {
    seq(|items|, i requires 0 <= i < |items| => items[i].note)
  }

  function InHand(c: Control): seq<Notification> {
    if c.InFlight? then [c.note] else []
  }

  function Popped(s: Listener): nat {
    |s.consumed| + |InHand(s.control)|
  }

  /** Accepted notifications are the consumed ones, then the one in flight, then the pending ones. */
  predicate Conserved(s: Listener) {
    s.accepted == Notes(s.consumed) + InHand(s.control) + s.pending
  }

  /** The dispatcher's map and log are the pure fold over what it consumed. */
  predicate Folds(s: Listener) {
    Outcome(s.ports, s.log) == Dispatch(s.snapshot, s.consumed)
  }

  predicate NoLostWakeup(s: Listener) {
    s.control == Asleep(false) ==> !WaitOver(s)
  }

  predicate FailuresReported(s: Listener) {
    s.reports + (if s.queueFailed then 1 else 0) <= s.failures
  }

  predicate QuietBeforeActivation(s: Listener) {
    !s.active ==> Popped(s) == 0 && s.reports == 0 && !s.control.Reporting?
  }

  predicate EndedOnlyIfStopped(s: Listener) {
    s.control.Ended? ==> s.stopped
  }

  predicate Inv(s: Listener) {
    && Conserved(s)
    && Folds(s)
    && NoLostWakeup(s)
    && FailuresReported(s)
    && QuietBeforeActivation(s)
    && EndedOnlyIfStopped(s)
  }

  lemma StepConserves(s: Listener, a: Action)
    requires Conserved(s) && Enabled(s, a)
    ensures Conserved(Apply(s, a))
  {
    var s' := Apply(s, a);
    match a
    case FinishDispatch(answer) =>
      assert Notes(s'.consumed) == Notes(s.consumed) + [s.control.note];
    case Check(_) =>
      if s'.control.InFlight? {
        assert s.pending == [s.pending[0]] + s.pending[1..];
      }
    case _ =>
  }

  lemma StepFolds(s: Listener, a: Action)
    requires Folds(s) && Enabled(s, a)
    ensures Folds(Apply(s, a))
  {
    if a.FinishDispatch? {
      DispatchAppend(s.snapshot, s.consumed, Item(s.control.note, a.answer));
    }
  }

  lemma StepKeepsInv(s: Listener, a: Action)
    requires Inv(s) && Enabled(s, a)
    ensures Inv(Apply(s, a))
  {
    StepConserves(s, a);
    StepFolds(s, a);
  }

  lemma FreshInv(snapshot: PortMap)
    ensures Inv(Fresh(snapshot))
  {
    assert Notes([]) == [];
  }

  lemma {:induction false} RunKeepsInv(s: Listener, acts: seq<Action>)
    requires Inv(s) && IsRun(s, acts)
    ensures Inv(Execute(s, acts)) && Execute(s, acts).snapshot == s.snapshot
    decreases |acts|
  {
    if acts != [] {
      StepKeepsInv(s, acts[0]);
      RunKeepsInv(Apply(s, acts[0]), acts[1..]);
    }
  }

  // ----- Theorems over whole runs -----

  /** In every reachable state: a sleeping, unsignalled dispatcher has nothing to do; accepted
      notifications are consumed, in flight or pending, in order; nothing happens before
      activation; failure reports never outnumber failures; the port map is the snapshot
      replayed through the log; callbacks about each path alternate. */
  lemma ListenerIsFaithful(snapshot: PortMap, acts: seq<Action>, path: Path)
    requires IsRun(Fresh(snapshot), acts)
    ensures var s := Execute(Fresh(snapshot), acts);
      && (s.control == Asleep(false) ==> !WaitOver(s))
      && s.accepted == Notes(s.consumed) + InHand(s.control) + s.pending
      && (!s.active ==> s.consumed == [] && s.log == [] && !s.control.InFlight? && s.reports == 0)
      && s.reports <= s.failures
      && s.ports == Replay(snapshot, s.log)
      && Alternates(Lookup(snapshot, path), CallsOn(s.log, path))
  {
    FreshInv(snapshot);
    RunKeepsInv(Fresh(snapshot), acts);
    var s := Execute(Fresh(snapshot), acts);
    DispatchIsReplay(snapshot, s.consumed);
    CallbacksAlternate(snapshot, s.consumed, path);
  }

  lemma StoppedStep(s: Listener, a: Action)
    requires s.stopped && Enabled(s, a)
    ensures var s' := Apply(s, a);
      && s'.stopped && s'.accepted == s.accepted && s'.pending == s.pending
      && Popped(s') == Popped(s) && s'.reports == s.reports
  {
  }

  /** After stop(): nothing more is accepted, popped or reported, so at most the one dispatch
      already in flight completes, whatever every thread does. */
  lemma {:induction false} StopIsFinal(s: Listener, acts: seq<Action>)
    requires s.stopped && IsRun(s, acts)
    ensures var s' := Execute(s, acts);
      && s'.stopped && s'.accepted == s.accepted && s'.pending == s.pending
      && Popped(s') == Popped(s) && s'.reports == s.reports
      && |s'.consumed| <= |s.consumed| + |InHand(s.control)| <= |s.consumed| + 1
    decreases |acts|
  {
    if acts != [] {
      StoppedStep(s, acts[0]);
      StopIsFinal(Apply(s, acts[0]), acts[1..]);
    }
  }

  /** The dispatcher's own next step, with whatever answer it meets. */
  function OwnStep(s: Listener, answer: Answer): Action {
    match s.control
    case InFlight(_) => FinishDispatch(answer)
    case Reporting => FinishReport
    case _ => Check(false)
  }

  /** A stopped dispatcher is never stuck: without any further wakeup it takes at most two
      steps of its own and has ended. */
  lemma StoppedDispatcherEnds(s: Listener, answer: Answer)
    requires Inv(s) && s.stopped && !s.control.Ended?
    ensures Enabled(s, OwnStep(s, answer))
    ensures var s1 := Apply(s, OwnStep(s, answer));
      s1.control.Ended? || (Enabled(s1, OwnStep(s1, answer)) && Apply(s1, OwnStep(s1, answer)).control.Ended?)
  {
  }

  // ----- One turn of the loop -----

  predicate FromOutside(a: Action) {
    a.Enqueue? || a.FailQueue? || a.Activate? || a.Stop?
  }

  type Others = acts: seq<Action> | forall i :: 0 <= i < |acts| ==> FromOutside(acts[i])

  /** What happens around one turn of the dispatcher loop: the calls other threads make before
      the dispatcher owns the mutex, the calls made (also by the callback itself) while it is
      outside the lock, and the answers the dispatched notification meets. */
  datatype Turn = Turn(before: Others, during: Others, answer: Answer)

  /** What calls from outside leave alone: the dispatcher's own position (beyond a wakeup), map and log. */
  ghost predicate OnlyOthersActed(s: Listener, s': Listener) {
    && (s.control.Asleep? <==> s'.control.Asleep?)
    && (!s.control.Asleep? ==> s'.control == s.control)
    && s'.ports == s.ports && s'.log == s.log && s'.snapshot == s.snapshot
    && s'.consumed == s.consumed && s'.reports == s.reports
  }

  lemma {:induction false} OthersRun(s: Listener, calls: seq<Action>)
    requires forall i :: 0 <= i < |calls| ==> FromOutside(calls[i])
    ensures IsRun(s, calls) && OnlyOthersActed(s, Execute(s, calls))
    decreases |calls|
  {
    if calls != [] {
      OthersRun(Apply(s, calls[0]), calls[1..]);
    }
  }

  /** At the top of the loop or in the wait. */
  predicate InLoop(s: Listener) {
    s.control == AtWait || s.control.Asleep?
  }

  /** Where the dispatcher meets the turn: after the calls that came before it. */
  function Met(s: Listener, turn: Turn): Listener {
    OthersRun(s, turn.before);
    Execute(s, turn.before)
  }

  /** The steps of a turn from the locked section on; if that ends outside the lock, what others do
      meanwhile and then the dispatcher's own end. */
  function AwakeTrace(met: Listener, turn: Turn): seq<Action> {
    var checked := Locked(met);
    if checked.control.InFlight? then [Check(false)] + (turn.during + [FinishDispatch(turn.answer)])
    else if checked.control.Reporting? then [Check(false)] + (turn.during + [FinishReport])
    else [Check(false)]
  }

  /** The steps of one turn of the loop; the dispatcher takes none while it sleeps unsignalled. */
  function TurnTrace(s: Listener, turn: Turn): seq<Action>
    requires InLoop(s)
  {
    if Met(s, turn).control == Asleep(false) then turn.before else turn.before + AwakeTrace(Met(s, turn), turn)
  }

  /** What an awake or signalled dispatcher does: it ends if the listener is stopped, goes to sleep if there
      is nothing to do, reports one queue failure, or consumes exactly the oldest pending notification,
      with the answer it meets. */
  lemma AwakeDoes(met: Listener, turn: Turn)
    requires met.control == AtWait || met.control == Asleep(true)
    ensures IsRun(met, AwakeTrace(met, turn))
    ensures var s' := Execute(met, AwakeTrace(met, turn));
      && s'.snapshot == met.snapshot
      && if met.stopped then s'.control == Ended && s'.consumed == met.consumed && s'.reports == met.reports
         else if !met.active || (!met.queueFailed && met.pending == []) then
           s'.control == Asleep(false) && s'.consumed == met.consumed && s'.reports == met.reports
         else if met.queueFailed then
           s'.control == AtWait && s'.consumed == met.consumed && s'.reports == met.reports + 1
         else
           && s'.control == AtWait && s'.reports == met.reports
           && s'.consumed == met.consumed + [Item(met.pending[0], turn.answer)]
  {
    var checked := Locked(met);
    OneStep(met, Check(false));
    if checked.control.InFlight? || checked.control.Reporting? {
      var finish := if checked.control.InFlight? then FinishDispatch(turn.answer) else FinishReport;
      OthersRun(checked, turn.during);
      OneStep(Execute(checked, turn.during), finish);
      RunConcat(checked, turn.during, [finish]);
      RunConcat(met, [Check(false)], turn.during + [finish]);
    }
  }

  /** What a turn does, told from where the dispatcher meets it: an unsignalled sleeper sleeps on. */
  lemma TurnDoes(s: Listener, turn: Turn)
    requires InLoop(s)
    ensures IsRun(s, TurnTrace(s, turn))
    ensures var met, s' := Met(s, turn), Execute(s, TurnTrace(s, turn));
      && s'.snapshot == s.snapshot
      && if met.control == Asleep(false) then s' == met
         else if met.stopped then s'.control == Ended && s'.consumed == met.consumed && s'.reports == met.reports
         else if !met.active || (!met.queueFailed && met.pending == []) then
           s'.control == Asleep(false) && s'.consumed == met.consumed && s'.reports == met.reports
         else if met.queueFailed then
           s'.control == AtWait && s'.consumed == met.consumed && s'.reports == met.reports + 1
         else
           && s'.control == AtWait && s'.reports == met.reports
           && s'.consumed == met.consumed + [Item(met.pending[0], turn.answer)]
  {
    OthersRun(s, turn.before);
    if Met(s, turn).control != Asleep(false) {
      AwakeDoes(Met(s, turn), turn);
      RunConcat(s, turn.before, AwakeTrace(Met(s, turn), turn));
    }
  }

  lemma OneStep(s: Listener, a: Action)
    requires Enabled(s, a)
    ensures IsRun(s, [a]) && Execute(s, [a]) == Apply(s, a)
  {
    assert [a][1..] == [];
  }

  /** The steps of the loop over a script of turns, until it returns. */
  function LoopTrace(s: Listener, script: seq<Turn>): seq<Action>
    requires InLoop(s)
    decreases |script|
  {
    if script == [] then []
    else
      TurnDoes(s, script[0]);
      var s' := Execute(s, TurnTrace(s, script[0]));
      if s'.control.Ended? then TurnTrace(s, script[0]) else TurnTrace(s, script[0]) + LoopTrace(s', script[1..])
  }

  lemma {:induction false} LoopRuns(s: Listener, script: seq<Turn>)
    requires InLoop(s)
    ensures IsRun(s, LoopTrace(s, script))
    decreases |script|
  {
    if script != [] {
      TurnDoes(s, script[0]);
      var s' := Execute(s, TurnTrace(s, script[0]));
      if !s'.control.Ended? {
        LoopRuns(s', script[1..]);
        RunConcat(s, TurnTrace(s, script[0]), LoopTrace(s', script[1..]));
      }
    }
  }

  /** One turn taken off the script: `whole` is what has been done and what is still to come. */
  lemma LoopTurn(s: Listener, script: seq<Turn>, i: nat, whole: seq<Action>, trace: seq<Action>, more: seq<Action>,
                 s': Listener, trace': seq<Action>)
    requires InLoop(s) && i < |script| && whole == trace + LoopTrace(s, script[i..])
    requires more == TurnTrace(s, script[i]) && IsRun(s, more) && s' == Execute(s, more) && trace' == trace + more
    ensures s'.control.Ended? ==> whole == trace'
    ensures !s'.control.Ended? ==> InLoop(s') && whole == trace' + LoopTrace(s', script[i + 1..])
  {
    var rest := script[i..];
    assert rest[0] == script[i] && rest[1..] == script[i + 1..];
    LoopFirst(s, rest);
    if !s'.control.Ended? {
      Associative(trace, more, LoopTrace(s', script[i + 1..]));
    }
  }

  lemma Associative(a: seq<Action>, b: seq<Action>, c: seq<Action>)
    ensures a + (b + c) == a + b + c
  {
  }

  lemma LoopFirst(s: Listener, script: seq<Turn>)
    requires InLoop(s) && script != []
    ensures IsRun(s, TurnTrace(s, script[0]))
    ensures var s' := Execute(s, TurnTrace(s, script[0]));
      && (s'.control.Ended? || InLoop(s'))
      && LoopTrace(s, script) ==
        if s'.control.Ended? then TurnTrace(s, script[0]) else TurnTrace(s, script[0]) + LoopTrace(s', script[1..])
  {
    TurnDoes(s, script[0]);
  }

  /** Nobody else does anything during the script. */
  predicate Undisturbed(script: seq<Turn>) {
    forall i :: 0 <= i < |script| ==> script[i].before == [] && script[i].during == []
  }

  /** The pending notifications, each with the answer of its turn. */
  function Answered(pending: seq<Notification>, script: seq<Turn>): seq<Item>
    requires |pending| <= |script|
  {
    seq(|pending|, i requires 0 <= i < |pending| => Item(pending[i], script[i].answer))
  }

  lemma AnsweredStep(pending: seq<Notification>, script: seq<Turn>)
    requires 0 < |pending| < |script|
    ensures Answered(pending, script) == [Item(pending[0], script[0].answer)] + Answered(pending[1..], script[1..])
  {
  }

  lemma LoopOfNothing(s: Listener, script: seq<Turn>)
    requires InLoop(s) && script == []
    ensures LoopTrace(s, script) == []
  {
  }

  /** The loop drains its queue: an active, unstopped dispatcher that is awake or signalled consumes every
      pending notification, in order, one in each turn, and then sleeps. */
  lemma {:induction false} LoopDrainsQueue(s: Listener, script: seq<Turn>)
    requires s.control == AtWait || s.control == Asleep(true)
    requires s.active && !s.stopped && !s.queueFailed && Undisturbed(script) && |script| == |s.pending| + 1
    ensures IsRun(s, LoopTrace(s, script))
    ensures var s' := Execute(s, LoopTrace(s, script));
      s'.control == Asleep(false) && s'.pending == [] && s'.consumed == s.consumed + Answered(s.pending, script)
    decreases |script|
  {
    QuietTurn(s, script[0]);
    LoopFirst(s, script);
    var first := TurnTrace(s, script[0]);
    var s' := Execute(s, first);
    var rest := LoopTrace(s', script[1..]);
    if s.pending == [] {
      LoopOfNothing(s', script[1..]);
    } else {
      LoopDrainsQueue(s', script[1..]);
      AnsweredStep(s.pending, script);
    }
    LoopRuns(s', script[1..]);
    RunConcat(s, first, rest);
  }

  lemma QuietTurn(s: Listener, turn: Turn)
    requires s.control == AtWait || s.control == Asleep(true)
    requires s.active && !s.stopped && !s.queueFailed && turn.before == [] && turn.during == []
    ensures IsRun(s, TurnTrace(s, turn))
    ensures var s' := Execute(s, TurnTrace(s, turn));
      && (if s.pending == [] then s'.control == Asleep(false) && s'.consumed == s.consumed
          else s'.control == AtWait && s'.consumed == s.consumed + [Item(s.pending[0], turn.answer)])
      && s'.active && !s'.stopped && !s'.queueFailed
      && s'.pending == if s.pending == [] then [] else s.pending[1..]
  {
    TurnDoes(s, turn);
    if s.pending == [] {
      assert TurnTrace(s, turn) == [Check(false)];
      OneStep(s, Check(false));
    } else {
      var checked := Locked(s);
      var finish := FinishDispatch(turn.answer);
      assert TurnTrace(s, turn) == [Check(false)] + ([] + [finish]) == [Check(false)] + [finish];
      OneStep(s, Check(false));
      OneStep(checked, finish);
      RunConcat(s, [Check(false)], [finish]);
    }
  }
}
