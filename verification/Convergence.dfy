/** The initial snapshot overlapping the event queue: registration comes first, then the
    enumeration and one name lookup per listed path, then the dispatcher starts
    (serial_set_event_callback.cpp:209-219, 116-136). Devices come and go meanwhile. */
module Convergence {
  import opened Options
  import opened PortDispatch
  import opened ListenerSteps

  datatype Phase =
    | Registered                                       // before CM_Get_Device_Interface_ListW
    | Sampling(todo: set<Path>, snapshot: PortMap)     // resolving the listed paths one by one
    | Dispatching                                      // the dispatcher thread exists

  /** `present` are the devices there now; `transit` the notifications the system has not yet
      handed to the native callback; `lost` the paths whose latest notification could not be
      queued (deviceNotification's catch branch). */
  datatype World = World(present: set<Path>, transit: seq<Notification>, lost: set<Path>, phase: Phase,
                         listener: Listener)

  datatype Move =
    | Change(path: Path)
    | Deliver
    | Lose
    | List
    | Sample(path: Path, name: Name)
    | StartThread
    | Thread(action: Action)

  function Initial(present: set<Path>): World {
    World(present, [], {}, Registered, Fresh(map[]))
  }

  /** A lookup can fail only for a device that is gone. */
  predicate ResolvesIfPresent(w: World, a: Action)
    requires a.FinishDispatch? ==> w.listener.control.InFlight?
  {
    a.FinishDispatch? && w.listener.control.note.path in w.present ==> a.answer.resolved.Some?
  }

  predicate Possible(w: World, m: Move) {
    match m
    case Change(_) => true
    case Deliver => w.transit != []
    case Lose => w.transit != []
    case List => w.phase.Registered?
    case Sample(path, _) => w.phase.Sampling? && path in w.phase.todo
    case StartThread => w.phase.Sampling? && w.phase.todo == {}
    case Thread(a) =>
      && !a.Enqueue? && !a.FailQueue?
      && Enabled(w.listener, a)
      && (a.Check? || a.FinishDispatch? || a.FinishReport? ==> w.phase.Dispatching?)
      && ResolvesIfPresent(w, a)
  }

  function After(w: World, m: Move): World
    requires Possible(w, m)
  {
    match m
    case Change(path) =>
      if path in w.present
      then w.(present := w.present - {path}, transit := w.transit + [Notification(Detached, path)])
      else w.(present := w.present + {path}, transit := w.transit + [Notification(Attached, path)])
    case Deliver =>
      w.(transit := w.transit[1..], lost := w.lost - {w.transit[0].path},
         listener := Apply(w.listener, Enqueue(w.transit[0])))
    case Lose =>
      w.(transit := w.transit[1..], lost := w.lost + {w.transit[0].path},
         listener := Apply(w.listener, FailQueue))
    case List => w.(phase := Sampling(w.present, map[]))
    case Sample(path, name) =>
      var snapshot := if path in w.present then w.phase.snapshot[path := name] else w.phase.snapshot;
      w.(phase := Sampling(w.phase.todo - {path}, snapshot))
    case StartThread =>
      w.(phase := Dispatching, listener := w.listener.(snapshot := w.phase.snapshot, ports := w.phase.snapshot))
    case Thread(a) => w.(listener := Apply(w.listener, a))
  }

  predicate IsHistory(w: World, moves: seq<Move>)
    decreases |moves|
  {
    moves == [] || (Possible(w, moves[0]) && IsHistory(After(w, moves[0]), moves[1..]))
  }

  function Reach(w: World, moves: seq<Move>): World
    requires IsHistory(w, moves)
    decreases |moves|
  {
    if moves == [] then w else Reach(After(w, moves[0]), moves[1..])
  }

  // ----- The invariant -----

  /** The last word of `notes` about `path`. */
  function LastWord(notes: seq<Notification>, path: Path): Option<Event> {
    if notes == [] then None
    else if notes[|notes| - 1].path == path then Some(notes[|notes| - 1].event)
    else LastWord(notes[..|notes| - 1], path)
  }

  /** Everything the dispatcher has still to see, oldest first. */
  function Outstanding(w: World): seq<Notification> {
    InHand(w.listener.control) + w.listener.pending + w.transit
  }

  /** Where the knowledge of `path` stands once nothing is outstanding. */
  predicate Known(w: World, path: Path) {
    match w.phase
    case Registered => true
    case Sampling(todo, snapshot) => path in w.present <==> path in todo || path in snapshot
    case Dispatching => path in w.present <==> path in w.listener.ports
  }

  predicate Tracks(w: World, path: Path) {
    match LastWord(Outstanding(w), path)
    case Some(event) => path in w.present <==> event.Attached?
    case None => Known(w, path)
  }

  /** The system's own backlog always ends in the truth about every path. */
  predicate TransitIsTrue(w: World, path: Path) {
    match LastWord(w.transit, path)
    case Some(event) => path in w.present <==> event.Attached?
    case None => true
  }

  predicate Follows(w: World, path: Path) {
    && TransitIsTrue(w, path)
    && (!w.listener.stopped && path !in w.lost ==> Tracks(w, path))
  }

  predicate Parked(w: World) {
    !w.phase.Dispatching? ==> w.listener.control == AtWait
  }

  lemma {:induction false} LastWordOfConcat(a: seq<Notification>, b: seq<Notification>, path: Path)
    ensures LastWord(a + b, path) == if LastWord(b, path).Some? then LastWord(b, path) else LastWord(a, path)
  {
    if b == [] {
      assert a + b == a;
    } else {
      assert (a + b)[..|a + b| - 1] == a + b[..|b| - 1];
      LastWordOfConcat(a, b[..|b| - 1], path);
    }
  }

  lemma LastWordOfOne(n: Notification, path: Path)
    ensures LastWord([n], path) == if n.path == path then Some(n.event) else None
  {
    assert [n][..0] == [];
  }

  /** Taking the oldest notification away changes the last word about its own path only. */
  lemma LastWordOfRest(notes: seq<Notification>, path: Path)
    requires notes != []
    ensures LastWord(notes, path) ==
      if LastWord(notes[1..], path).None? && notes[0].path == path then Some(notes[0].event)
      else LastWord(notes[1..], path)
  {
    assert notes == [notes[0]] + notes[1..];
    LastWordOfConcat([notes[0]], notes[1..], path);
    LastWordOfOne(notes[0], path);
  }

  lemma ChangeFollows(w: World, m: Move, path: Path)
    requires m.Change? && Follows(w, path)
    ensures Follows(After(w, m), path)
  {
    var w' := After(w, m);
    var note := w'.transit[|w.transit|];
    assert Outstanding(w') == Outstanding(w) + [note];
    LastWordOfConcat(Outstanding(w), [note], path);
    LastWordOfConcat(w.transit, [note], path);
    LastWordOfOne(note, path);
  }

  /** A native callback takes the head of `transit`: queued, nothing outstanding changes, and a
      path lost before is caught up with. */
  lemma DeliverFollows(w: World, path: Path)
    requires Possible(w, Deliver) && Follows(w, path)
    ensures Follows(After(w, Deliver), path)
  {
    var w' := After(w, Deliver);
    LastWordOfRest(w.transit, path);
    if !w.listener.stopped {
      assert w.transit == [w.transit[0]] + w.transit[1..];
      assert InHand(w'.listener.control) == InHand(w.listener.control);
      assert Outstanding(w') == Outstanding(w);
      LastWordOfConcat(InHand(w.listener.control) + w.listener.pending, w.transit, path);
    }
  }

  lemma LoseFollows(w: World, path: Path)
    requires Possible(w, Lose) && Follows(w, path)
    ensures Follows(After(w, Lose), path)
  {
    var w' := After(w, Lose);
    LastWordOfRest(w.transit, path);
    var kept := InHand(w.listener.control) + w.listener.pending;
    assert InHand(w'.listener.control) == InHand(w.listener.control);
    LastWordOfConcat(kept, w.transit, path);
    LastWordOfConcat(kept, w.transit[1..], path);
  }

  lemma SnapshotFollows(w: World, m: Move, path: Path)
    requires m.List? || m.Sample? || m.StartThread?
    requires Possible(w, m) && Follows(w, path)
    ensures Follows(After(w, m), path)
  {
    assert Outstanding(After(w, m)) == Outstanding(w);
  }

  /** Consuming the oldest notification: if it was the last word about its path, it was true. */
  lemma FinishFollows(w: World, a: Action, path: Path)
    requires a.FinishDispatch? && Possible(w, Thread(a)) && Follows(w, path)
    ensures Follows(After(w, Thread(a)), path)
  {
    LastWordOfRest(Outstanding(w), path);
    assert Outstanding(w)[1..] == Outstanding(After(w, Thread(a)));
  }

  /** Every other step of the listener only moves notifications along. */
  lemma NothingConsumed(s: Listener, a: Action)
    requires Enabled(s, a) && !a.FinishDispatch? && !a.Enqueue?
    ensures InHand(Apply(s, a).control) + Apply(s, a).pending == InHand(s.control) + s.pending
    ensures Apply(s, a).ports == s.ports && (s.stopped ==> Apply(s, a).stopped)
  {
  }

  lemma ThreadFollows(w: World, a: Action, path: Path)
    requires Possible(w, Thread(a)) && Follows(w, path)
    ensures Follows(After(w, Thread(a)), path)
  {
    if a.FinishDispatch? {
      FinishFollows(w, a, path);
    } else {
      NothingConsumed(w.listener, a);
    }
  }

  lemma MoveFollows(w: World, m: Move, path: Path)
    requires Possible(w, m) && Parked(w) && Follows(w, path)
    ensures Parked(After(w, m)) && Follows(After(w, m), path)
  {
    match m
    case Change(_) => ChangeFollows(w, m, path);
    case Deliver => DeliverFollows(w, path);
    case Lose => LoseFollows(w, path);
    case Thread(a) => ThreadFollows(w, a, path);
    case _ => SnapshotFollows(w, m, path);
  }

  lemma {:induction false} HistoryFollows(w: World, moves: seq<Move>, path: Path)
    requires IsHistory(w, moves) && Parked(w) && Follows(w, path)
    ensures Follows(Reach(w, moves), path)
    decreases |moves|
  {
    if moves != [] {
      MoveFollows(w, moves[0], path);
      HistoryFollows(After(w, moves[0]), moves[1..], path);
    }
  }

  // ----- The theorems -----

  predicate Drained(w: World) {
    w.phase.Dispatching? && !w.listener.stopped && Outstanding(w) == []
  }

  /** However changes, enumeration, lookups, delivery and dispatching overlapped: once nothing is
      outstanding, the dispatcher knows exactly the present devices, except paths whose latest
      notification could not be queued. A later notification about such a path heals it. */
  lemma SnapshotAndQueueConverge(present: set<Path>, moves: seq<Move>, path: Path)
    requires IsHistory(Initial(present), moves) && Drained(Reach(Initial(present), moves))
    requires path !in Reach(Initial(present), moves).lost
    ensures var w := Reach(Initial(present), moves);
      path in w.listener.ports <==> path in w.present
  {
    HistoryFollows(Initial(present), moves, path);
  }

  lemma {:induction false} NothingLost(w: World, moves: seq<Move>)
    requires IsHistory(w, moves) && w.lost == {}
    requires forall i :: 0 <= i < |moves| ==> moves[i] != Lose
    ensures Reach(w, moves).lost == {}
    decreases |moves|
  {
    if moves != [] {
      NothingLost(After(w, moves[0]), moves[1..]);
    }
  }

  lemma EveryQueuedHistoryConverges(present: set<Path>, moves: seq<Move>)
    requires IsHistory(Initial(present), moves) && Drained(Reach(Initial(present), moves))
    requires forall i :: 0 <= i < |moves| ==> moves[i] != Lose
    ensures var w := Reach(Initial(present), moves);
      w.listener.ports.Keys == w.present
  {
    var w := Reach(Initial(present), moves);
    NothingLost(Initial(present), moves);
    forall path: Path ensures path in w.listener.ports.Keys <==> path in w.present {
      SnapshotAndQueueConverge(present, moves, path);
    }
  }

  // ----- Losing the last word about a device -----

  /** The dispatcher will know the truth about `path` if the device does not change any more and
      nothing about it is on its way: the listing and the lookups still to come see it as it is, and
      what has been recorded must be true already. */
  predicate WillKnow(w: World, path: Path) {
    match w.phase
    case Registered => true
    case Sampling(todo, snapshot) =>
      path in w.present <==> path in snapshot || (path in todo && path in w.present)
    case Dispatching => path in w.present <==> path in w.listener.ports
  }

  /** The same with notifications about it still on their way: the last of them must be true. */
  predicate Foretold(w: World, path: Path) {
    match LastWord(Outstanding(w), path)
    case Some(event) => path in w.present <==> event.Attached?
    case None => WillKnow(w, path)
  }

  /** The system has no more to say about `path`, and what is queued will be consumed for sure: not a
      stale arrival of a device that is gone, whose lookup may or may not still succeed. */
  predicate Firm(w: World, path: Path) {
    && LastWord(w.transit, path) == None
    && (path in w.present || LastWord(Outstanding(w), path) != Some(Attached))
  }

  predicate Settled(w: World, w': World, path: Path) {
    && (path in w.present <==> path in w'.present)
    && Firm(w', path) && (Foretold(w', path) <==> Foretold(w, path))
  }

  lemma FinishKeepsSettled(w: World, a: Action, path: Path)
    requires a.FinishDispatch? && Possible(w, Thread(a)) && Firm(w, path)
    ensures Settled(w, After(w, Thread(a)), path)
  {
    LastWordOfRest(Outstanding(w), path);
    assert Outstanding(w)[1..] == Outstanding(After(w, Thread(a)));
  }

  lemma ThreadKeepsSettled(w: World, a: Action, path: Path)
    requires Possible(w, Thread(a)) && Firm(w, path)
    ensures Settled(w, After(w, Thread(a)), path)
  {
    if a.FinishDispatch? {
      FinishKeepsSettled(w, a, path);
    } else {
      NothingConsumed(w.listener, a);
      assert Outstanding(After(w, Thread(a))) == Outstanding(w);
    }
  }

  /** What the dispatcher has in hand or in its queue. */
  function Queued(w: World): seq<Notification> {
    InHand(w.listener.control) + w.listener.pending
  }

  /** Nothing new about `path` comes up, and nothing that was said about it gets lost. */
  predicate SameWords(w: World, w': World, path: Path) {
    LastWord(w'.transit, path) == None && LastWord(Outstanding(w'), path) == LastWord(Outstanding(w), path)
  }

  lemma ChangeKeepsWords(w: World, m: Move, path: Path)
    requires m.Change? && m.path != path && LastWord(w.transit, path) == None
    ensures SameWords(w, After(w, m), path)
  {
    var note := After(w, m).transit[|w.transit|];
    assert Outstanding(After(w, m)) == Outstanding(w) + [note];
    LastWordOfConcat(Outstanding(w), [note], path);
    LastWordOfConcat(w.transit, [note], path);
    LastWordOfOne(note, path);
  }

  /** The head of a silent `transit` goes: to the end of the queue, or nowhere. */
  lemma WordsWithoutHead(queued: seq<Notification>, queued': seq<Notification>, transit: seq<Notification>, path: Path)
    requires transit != [] && LastWord(transit, path) == None
    requires queued' == queued || queued' == queued + [transit[0]]
    ensures LastWord(transit[1..], path) == None
    ensures LastWord(queued' + transit[1..], path) == LastWord(queued + transit, path)
  {
    LastWordOfRest(transit, path);
    LastWordOfOne(transit[0], path);
    LastWordOfConcat(queued, [transit[0]], path);
    LastWordOfConcat(queued, transit, path);
    LastWordOfConcat(queued', transit[1..], path);
  }

  /** The head of `transit`, which is about another device, is queued, dropped or lost. */
  lemma HeadGoes(w: World, m: Move)
    requires (m.Deliver? || m.Lose?) && Possible(w, m)
    ensures var w' := After(w, m);
      && (Queued(w') == Queued(w) || Queued(w') == Queued(w) + [w.transit[0]])
      && w'.transit == w.transit[1..]
  {
    var w' := After(w, m);
    assert InHand(w'.listener.control) == InHand(w.listener.control);
  }

  lemma HeadKeepsWords(w: World, m: Move, path: Path)
    requires (m.Deliver? || m.Lose?) && Possible(w, m) && LastWord(w.transit, path) == None
    ensures SameWords(w, After(w, m), path)
  {
    HeadGoes(w, m);
    WordsWithoutHead(Queued(w), Queued(After(w, m)), w.transit, path);
  }

  /** A move of the outside world that says nothing about `path`. */
  lemma WorldKeepsSettled(w: World, m: Move, path: Path)
    requires (m.Change? && m.path != path) || m.Deliver? || m.Lose?
    requires Possible(w, m) && Firm(w, path) && SameWords(w, After(w, m), path)
    ensures Settled(w, After(w, m), path)
  {
    assert WillKnow(After(w, m), path) <==> WillKnow(w, path);
  }

  lemma SnapshotKeepsSettled(w: World, m: Move, path: Path)
    requires m.List? || m.Sample? || m.StartThread?
    requires Possible(w, m) && Firm(w, path)
    ensures Settled(w, After(w, m), path)
  {
    assert Outstanding(After(w, m)) == Outstanding(w);
  }

  lemma {:induction false} StaysSettled(w: World, moves: seq<Move>, path: Path)
    requires IsHistory(w, moves) && Firm(w, path)
    requires forall i :: 0 <= i < |moves| ==> moves[i] != Change(path)
    ensures Settled(w, Reach(w, moves), path)
    decreases |moves|
  {
    if moves != [] {
      match moves[0] {
        case Thread(a) => ThreadKeepsSettled(w, a, path);
        case Change(_) =>
          ChangeKeepsWords(w, moves[0], path);
          WorldKeepsSettled(w, moves[0], path);
        case Deliver =>
          HeadKeepsWords(w, moves[0], path);
          WorldKeepsSettled(w, moves[0], path);
        case Lose =>
          HeadKeepsWords(w, moves[0], path);
          WorldKeepsSettled(w, moves[0], path);
        case _ => SnapshotKeepsSettled(w, moves[0], path);
      }
      StaysSettled(After(w, moves[0]), moves[1..], path);
    }
  }

  /** What the dispatcher will believe about `path` if the head of `transit` is lost: the last word queued
      about it, or else what has been recorded, is true. */
  predicate TrueWithoutHead(w: World, path: Path) {
    match LastWord(Queued(w), path)
    case Some(event) => path in w.present <==> event.Attached?
    case None => WillKnow(w, path)
  }

  lemma LoseIsFirm(w: World, path: Path)
    requires Possible(w, Lose) && LastWord(w.transit[1..], path) == None
    requires path in w.present || LastWord(Queued(w), path) != Some(Attached)
    ensures Firm(After(w, Lose), path) && (Foretold(After(w, Lose), path) <==> TrueWithoutHead(w, path))
  {
    assert InHand(After(w, Lose).listener.control) == InHand(w.listener.control);
    LastWordOfConcat(Queued(w), w.transit[1..], path);
  }

  /** The last word about a device cannot be queued. As long as the device does not change again, the
      dispatcher, once it has consumed what is queued about it, agrees with the device if and only if
      what had been queued or recorded by then was true anyway, in whichever phase the loss comes. */
  lemma LossDecides(w: World, moves: seq<Move>, path: Path)
    requires Possible(w, Lose) && w.transit[0].path == path && LastWord(w.transit[1..], path) == None
    requires path in w.present || LastWord(Queued(w), path) != Some(Attached)
    requires IsHistory(After(w, Lose), moves) && forall i :: 0 <= i < |moves| ==> moves[i] != Change(path)
    requires var end := Reach(After(w, Lose), moves);
      end.phase.Dispatching? && LastWord(Outstanding(end), path) == None
    ensures var end := Reach(After(w, Lose), moves);
      (path in end.listener.ports <==> path in end.present) <==> TrueWithoutHead(w, path)
  {
    LoseIsFirm(w, path);
    StaysSettled(After(w, Lose), moves, path);
  }

  /** The case LossDecides leaves out: the arrival of a device that has gone since is still queued, and its
      removal is lost. Then the lookup decides, and both answers are possible. */
  lemma StaleArrivalIsOpen(w: World, path: Path, resolved: Option<Name>)
    requires Possible(w, Lose) && w.transit == [Notification(Detached, path)] && w.phase.Dispatching?
    requires w.listener.pending == [Notification(Attached, path)] && w.listener.control == AtWait
    requires w.listener.active && !w.listener.stopped && path !in w.present && path !in w.listener.ports
    ensures var moves := Consuming(Answer(resolved, false));
      && IsHistory(After(w, Lose), moves)
      && var end := Reach(After(w, Lose), moves);
        Drained(end) && path !in end.present && (path in end.listener.ports <==> resolved.Some?)
  {
    var w0 := After(w, Lose);
    var w1 := After(w0, Thread(Check(false)));
    var w2 := After(w1, Thread(FinishReport));
    var w3 := After(w2, Thread(Check(false)));
    assert w3.listener.control == InFlight(Notification(Attached, path)) && w3.listener.pending == [];
    var last := Thread(FinishDispatch(Answer(resolved, false)));
    var w4 := After(w3, last);
    assert Outstanding(w4) == [];
    HistoryCons(w3, last, []);
    HistoryCons(w2, Thread(Check(false)), [last]);
    HistoryCons(w1, Thread(FinishReport), [Thread(Check(false)), last]);
    HistoryCons(w0, Thread(Check(false)), [Thread(FinishReport), Thread(Check(false)), last]);
    assert [Thread(Check(false))] + ([Thread(FinishReport)] + ([Thread(Check(false))] + ([last] + [])))
      == Consuming(Answer(resolved, false));
  }

  /** The dispatcher reports the loss, then consumes the one notification that is queued. */
  function Consuming(answer: Answer): seq<Move> {
    [Thread(Check(false)), Thread(FinishReport), Thread(Check(false)), Thread(FinishDispatch(answer))]
  }

  /** Nothing about `path` is queued or on its way, the thread runs: it stays so until the device changes. */
  predicate Idle(w: World, path: Path) {
    w.phase.Dispatching? && LastWord(Outstanding(w), path) == None
  }

  lemma SilentTransit(w: World, path: Path)
    requires LastWord(Outstanding(w), path) == None
    ensures LastWord(w.transit, path) == None
  {
    LastWordOfConcat(Queued(w), w.transit, path);
  }

  lemma IdleThread(w: World, a: Action, path: Path)
    requires Possible(w, Thread(a)) && Idle(w, path)
    ensures Idle(After(w, Thread(a)), path)
  {
    var w' := After(w, Thread(a));
    if a.FinishDispatch? {
      LastWordOfRest(Outstanding(w), path);
      assert Outstanding(w)[1..] == Outstanding(w');
    } else {
      NothingConsumed(w.listener, a);
      assert Outstanding(w') == Outstanding(w);
    }
  }

  lemma IdleStep(w: World, m: Move, path: Path)
    requires Possible(w, m) && m != Change(path) && Idle(w, path)
    ensures Idle(After(w, m), path)
  {
    SilentTransit(w, path);
    match m
    case Thread(a) => IdleThread(w, a, path);
    case Change(_) => ChangeKeepsWords(w, m, path);
    case Deliver => HeadKeepsWords(w, m, path);
    case Lose => HeadKeepsWords(w, m, path);
    case _ =>
  }

  lemma {:induction false} StaysIdle(w: World, moves: seq<Move>, path: Path)
    requires IsHistory(w, moves) && Idle(w, path)
    requires forall i :: 0 <= i < |moves| ==> moves[i] != Change(path)
    ensures Idle(Reach(w, moves), path)
    decreases |moves|
  {
    if moves != [] {
      IdleStep(w, moves[0], path);
      StaysIdle(After(w, moves[0]), moves[1..], path);
    }
  }

  /** A loss while the dispatcher runs and nothing else about the device is queued or on its way: at every
      later moment until the device changes again, its entry is what it was. */
  lemma LossFreezesEntry(w: World, moves: seq<Move>, path: Path)
    requires Possible(w, Lose) && w.transit[0].path == path && w.phase.Dispatching?
    requires LastWord(Queued(w) + w.transit[1..], path) == None
    requires IsHistory(After(w, Lose), moves) && forall i :: 0 <= i < |moves| ==> moves[i] != Change(path)
    ensures var end := Reach(After(w, Lose), moves);
      && (path in end.present <==> path in w.present)
      && (path in end.listener.ports <==> path in w.listener.ports)
  {
    var lost := After(w, Lose);
    LastWordOfConcat(Queued(w), w.transit[1..], path);
    LoseIsFirm(w, path);
    assert Outstanding(lost) == Queued(w) + w.transit[1..];
    StaysSettled(lost, moves, path);
    StaysIdle(lost, moves, path);
  }

  /** So an arrival so lost leaves the device unknown until it changes again. */
  lemma LostArrivalStaysUnknown(w: World, moves: seq<Move>, path: Path)
    requires Possible(w, Lose) && w.transit[0].path == path && w.phase.Dispatching?
    requires LastWord(Queued(w) + w.transit[1..], path) == None
    requires path in w.present && path !in w.listener.ports
    requires IsHistory(After(w, Lose), moves) && forall i :: 0 <= i < |moves| ==> moves[i] != Change(path)
    ensures var end := Reach(After(w, Lose), moves);
      path in end.present && path !in end.listener.ports
  {
    LossFreezesEntry(w, moves, path);
  }

  /** And a removal so lost leaves an entry for a device that is gone until the device changes again: its
      next arrival then finds the entry and calls nobody. */
  lemma LostRemovalLeavesEntry(w: World, moves: seq<Move>, path: Path, answer: Answer)
    requires Possible(w, Lose) && w.transit[0].path == path && w.phase.Dispatching?
    requires LastWord(Queued(w) + w.transit[1..], path) == None
    requires path !in w.present && path in w.listener.ports
    requires IsHistory(After(w, Lose), moves) && forall i :: 0 <= i < |moves| ==> moves[i] != Change(path)
    ensures var end := Reach(After(w, Lose), moves);
      && path !in end.present && path in end.listener.ports
      && HandleOne(end.listener.ports, Item(Notification(Attached, path), answer))
        == OneOutcome(end.listener.ports, None)
  {
    LossFreezesEntry(w, moves, path);
  }

  /** Such a run, from the start to the moment when nothing is outstanding. */
  lemma ArrivalCanBeLost(path: Path)
    ensures var moves := [List, StartThread, Change(path), Lose];
      && IsHistory(Initial({}), moves)
      && var w := Reach(Initial({}), moves);
        Drained(w) && path in w.present && path !in w.listener.ports
  {
    var w0 := Initial({});
    var w1 := After(w0, List);
    var w2 := After(w1, StartThread);
    var w3 := After(w2, Change(path));
    var w4 := After(w3, Lose);
    HistoryCons(w3, Lose, []);
    HistoryCons(w2, Change(path), [Lose]);
    HistoryCons(w1, StartThread, [Change(path), Lose]);
    HistoryCons(w0, List, [StartThread, Change(path), Lose]);
    assert [List] + ([StartThread] + ([Change(path)] + ([Lose] + []))) == [List, StartThread, Change(path), Lose];
    assert w4.present == {path} && Outstanding(w4) == [];
  }

  lemma HistoryCons(w: World, m: Move, rest: seq<Move>)
    requires Possible(w, m) && IsHistory(After(w, m), rest)
    ensures IsHistory(w, [m] + rest) && Reach(w, [m] + rest) == Reach(After(w, m), rest)
  {
    assert ([m] + rest)[1..] == rest;
  }
}
