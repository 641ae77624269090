/** The class EventListenerState with its mutable fields and its dispatcher loop `run`,
    each method tied to one step of ListenerSteps (event_listener_state.hpp:22-116). */
module EventListener {
  import opened Options
  import opened PortDispatch
  import opened ListenerSteps

  /** The condition variable `wakeup_`: whether the dispatcher sleeps on it, and whether a
      notify_one has reached it since. */
  datatype Wakeup = NoSleeper | Sleeper(signalled: bool)

  class EventListenerState {
    var wakeup: Wakeup
    var pending: seq<Notification>
    var active: bool
    var stopped: bool
    var queueFailed: bool
    ghost var system: Listener

    ghost predicate Valid()
      reads this
    {
      && Inv(system)
      && system.pending == pending && system.active == active
      && system.stopped == stopped && system.queueFailed == queueFailed
      && wakeup == match system.control { case Asleep(signalled) => Sleeper(signalled) case _ => NoSleeper }
    }

    constructor ()
      ensures Valid() && system == Fresh(map[])
    {
      wakeup, pending, active, stopped, queueFailed := NoSleeper, [], false, false, false;
      system := Fresh(map[]);
      new;
      FreshInv(map[]);
    }

    method NotifyOne()
      modifies this`wakeup
      ensures wakeup == if old(wakeup).Sleeper? then Sleeper(true) else old(wakeup)
    {
      if wakeup.Sleeper? {
        wakeup := Sleeper(true);
      }
    }

    method EnqueueNote(note: Notification)
      requires Valid()
      modifies this
      ensures Valid() && system == Apply(old(system), Enqueue(note))
      ensures pending == if old(stopped) then old(pending) else old(pending) + [note]
      ensures active == old(active) && stopped == old(stopped) && queueFailed == old(queueFailed)
    {
      StepKeepsInv(system, Enqueue(note));
      if !stopped {
        pending := pending + [note];
        NotifyOne();
      }
      system := Apply(system, Enqueue(note));
    }

    method ReportQueueFailure()
      requires Valid()
      modifies this
      ensures Valid() && system == Apply(old(system), FailQueue)
      ensures queueFailed && pending == old(pending) && active == old(active) && stopped == old(stopped)
    {
      StepKeepsInv(system, FailQueue);
      queueFailed := true;
      NotifyOne();
      system := Apply(system, FailQueue);
    }

    method ActivateListener()
      requires Valid()
      modifies this
      ensures Valid() && system == Apply(old(system), Activate)
      ensures active && pending == old(pending) && queueFailed == old(queueFailed) && stopped == old(stopped)
    {
      StepKeepsInv(system, Activate);
      active := true;
      NotifyOne();
      system := Apply(system, Activate);
    }

    method StopListener()
      requires Valid()
      modifies this
      ensures Valid() && system == Apply(old(system), Stop)
      ensures stopped && pending == old(pending) && active == old(active) && queueFailed == old(queueFailed)
    {
      StepKeepsInv(system, Stop);
      stopped := true;
      NotifyOne();
      system := Apply(system, Stop);
    }

    method Perform(call: Action)
      requires Valid() && FromOutside(call)
      modifies this
      ensures Valid() && system == Apply(old(system), call)
      ensures OnlyOthersActed(old(system), system)
    {
      match call {
        case Enqueue(note) => EnqueueNote(note);
        case FailQueue => ReportQueueFailure();
        case Activate => ActivateListener();
        case Stop => StopListener();
        case _ =>
      }
    }

    /** Calls made by other threads, or by the callback, in the given order. */
    method Interleave(calls: Others)
      requires Valid()
      modifies this
      ensures Valid() && IsRun(old(system), calls) && system == Execute(old(system), calls)
      ensures OnlyOthersActed(old(system), system)
    {
      var i := 0;
      assert calls[..0] == [];
      while i < |calls|
        invariant 0 <= i <= |calls|
        invariant Valid() && IsRun(old(system), calls[..i]) && system == Execute(old(system), calls[..i])
        invariant OnlyOthersActed(old(system), system)
      {
        RunConcat(old(system), calls[..i], [calls[i]]);
        assert calls[..i + 1] == calls[..i] + [calls[i]];
        Perform(calls[i]);
        i := i + 1;
      }
      assert calls[..i] == calls;
    }

    /** The locked section of the loop, from the predicate test to the unlock. */
    method LockedSection() returns (next: Control)
      requires Valid() && Enabled(system, Check(false))
      modifies this
      ensures Valid() && system == Apply(old(system), Check(false)) && next == system.control
    {
      StepKeepsInv(system, Check(false));
      system := Apply(system, Check(false));
      if !(stopped || (active && (queueFailed || pending != []))) {
        wakeup := Sleeper(false);
        return Asleep(false);
      }
      wakeup := NoSleeper;
      if stopped {
        return Ended;
      }
      if queueFailed {
        queueFailed := false;
        return Reporting;
      }
      next := InFlight(pending[0]);
      pending := pending[1..];
    }

    /** The unlocked part of the loop: look the path up, resolve, remember, call back. */
    static method HandleNotification(ports: PortMap, log: seq<Entry>, note: Notification, answer: Answer)
      returns (ports': PortMap, log': seq<Entry>)
      ensures Outcome(ports', log') == Extend(Outcome(ports, log), Item(note, answer))
      ensures note.event.Attached? && note.path !in ports ==>
        match answer.resolved {
          case Some(name) =>
            ports' == ports[note.path := name] && log' == log + [Called(Attached, note.path, name, answer.throws)]
          case None => ports' == ports && log' == log + [Unresolved(note.path)]
        }
      ensures note.event.Detached? && note.path in ports ==>
        ports' == ports - {note.path} && log' == log + [Called(Detached, note.path, ports[note.path], answer.throws)]
      ensures (note.event.Attached? <==> note.path in ports) ==> ports' == ports && log' == log
    {
      ports', log' := ports, log;
      if note.event == Attached {
        if note.path !in ports {
          match answer.resolved {
            case None => log' := log + [Unresolved(note.path)];
            case Some(name) =>
              ports' := ports[note.path := name];
              log' := log + [Called(Attached, note.path, name, answer.throws)];
          }
        }
      } else if note.path in ports {
        var port := ports[note.path];
        ports' := ports - {note.path};
        log' := log + [Called(Detached, note.path, port, answer.throws)];
      }
    }

    ghost method Finish(finish: Action)
      requires Valid() && (finish.FinishDispatch? || finish.FinishReport?) && Enabled(system, finish)
      modifies this`system
      ensures Valid() && system == Apply(old(system), finish)
    {
      StepKeepsInv(system, finish);
      system := Apply(system, finish);
    }

    /** What follows the unlock: a report or one notification, while others keep calling. */
    method Unlocked(next: Control, turn: Turn, ports: PortMap, log: seq<Entry>)
      returns (ports': PortMap, log': seq<Entry>, ghost trace: seq<Action>)
      requires Valid() && next == system.control && (next.InFlight? || next.Reporting?)
      requires system.ports == ports && system.log == log
      modifies this
      ensures Valid() && IsRun(old(system), trace) && system == Execute(old(system), trace)
      ensures system.ports == ports' && system.log == log' && system.snapshot == old(system).snapshot
      ensures system.control == AtWait
      ensures trace == turn.during + [if next.InFlight? then FinishDispatch(turn.answer) else FinishReport]
    {
      ports', log' := ports, log;
      Interleave(turn.during);
      ghost var finish := FinishReport;
      if next.InFlight? {
        ports', log' := HandleNotification(ports, log, next.note, turn.answer);
        finish := FinishDispatch(turn.answer);
      }
      trace := turn.during + [finish];
      RunConcat(old(system), turn.during, [finish]);
      Finish(finish);
    }

    /** A turn from the locked section on. */
    method Awake(turn: Turn, ports: PortMap, log: seq<Entry>)
      returns (ports': PortMap, log': seq<Entry>, ended: bool, ghost trace: seq<Action>)
      requires Valid() && (system.control == AtWait || system.control == Asleep(true))
      requires system.ports == ports && system.log == log
      modifies this
      ensures trace == AwakeTrace(old(system), turn)
      ensures Valid() && IsRun(old(system), trace) && system == Execute(old(system), trace)
      ensures system.ports == ports' && system.log == log' && system.snapshot == old(system).snapshot
      ensures if ended then system.control.Ended? else InLoop(system)
    {
      ports', log', ended, trace := ports, log, false, [Check(false)];
      OneStep(system, Check(false));
      var next := LockedSection();
      if next.Asleep? {
        return;
      }
      if next.Ended? {
        ended := true;
        return;
      }
      ghost var more;
      ports', log', more := Unlocked(next, turn, ports, log);
      RunConcat(old(system), [Check(false)], more);
      trace := [Check(false)] + more;
    }

    /** One turn of the endless loop; `ended` means the loop returned. */
    method RunTurn(turn: Turn, ports: PortMap, log: seq<Entry>)
      returns (ports': PortMap, log': seq<Entry>, ended: bool, ghost trace: seq<Action>)
      requires Valid() && InLoop(system)
      requires system.ports == ports && system.log == log
      modifies this
      ensures trace == TurnTrace(old(system), turn)
      ensures Valid() && IsRun(old(system), trace) && system == Execute(old(system), trace)
      ensures system.ports == ports' && system.log == log' && system.snapshot == old(system).snapshot
      ensures if ended then system.control.Ended? else InLoop(system)
    {
      ports', log', ended := ports, log, false;
      Interleave(turn.before);
      trace := turn.before;
      if wakeup == Sleeper(false) {
        return;
      }
      ghost var more;
      ports', log', ended, more := Awake(turn, ports, log);
      RunConcat(old(system), trace, more);
      trace := trace + more;
    }

    /** `run`, for any finite prefix of its endless loop: it takes exactly the steps of the loop over the
        script, ends only when stopped, and its map and log are the fold over what it consumed. */
    method Run(snapshot: PortMap, script: seq<Turn>)
      returns (ports: PortMap, log: seq<Entry>, ended: bool, ghost trace: seq<Action>)
      requires Valid() && system.control == AtWait && system.consumed == [] && system.log == []
      modifies this
      ensures Valid() && system.snapshot == snapshot
      ensures var start := old(system).(snapshot := snapshot, ports := snapshot);
        trace == LoopTrace(start, script) && IsRun(start, trace) && system == Execute(start, trace)
      ensures Outcome(ports, log) == Dispatch(snapshot, system.consumed)
      ensures ended ==> stopped
      ensures !ended && wakeup == Sleeper(false) ==> !WaitOver(system)
    {
      ports, log, ended, trace := snapshot, [], false, [];
      system := system.(snapshot := snapshot, ports := snapshot);
      ghost var start := system;
      ghost var whole := LoopTrace(start, script);
      var i := 0;
      assert script[0..] == script;
      while i < |script| && !ended
        invariant 0 <= i <= |script|
        invariant Valid() && system.snapshot == snapshot
        invariant IsRun(start, trace) && system == Execute(start, trace)
        invariant ports == system.ports && log == system.log
        invariant if ended then system.control.Ended? else InLoop(system)
        invariant whole == if ended then trace else trace + LoopTrace(system, script[i..])
      {
        ghost var before, done, more := system, trace, [];
        ports, log, ended, more := RunTurn(script[i], ports, log);
        RunConcat(start, trace, more);
        trace := trace + more;
        LoopTurn(before, script, i, whole, done, more, system, trace);
        i := i + 1;
      }
      assert script[|script|..] == [];
    }
  }
}
