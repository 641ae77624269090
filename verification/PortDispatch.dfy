/** What one dispatcher does to its port map and to its callback log, as a pure fold
    over the notifications it consumes (event_listener_state.hpp, the body of `run`
    after the lock is released). */
module PortDispatch {

  import opened Options

  /** A device interface path, already upper-cased by `interfaceKey`. */
  datatype Path = Path(key: string)
  /** A COM port name. */
  datatype Name = Name(text: string)
  type PortMap = map<Path, Name>

  datatype Event = Attached | Detached
  datatype Notification = Notification(event: Event, path: Path)

  /** What the outside world answers while one notification is dispatched: the name
      `resolve_port` returns (None when it throws) and whether the callback throws. */
  datatype Answer = Answer(resolved: Option<Name>, throws: bool)

  /** A consumed notification together with the answers it met. */
  datatype Item = Item(note: Notification, answer: Answer)

  /** The dispatcher's log: callback invocations and failed resolutions. Both a throwing
      callback and a failed resolution end in one error report. */
  datatype Entry =
    | Called(event: Event, path: Path, name: Name, threw: bool)
    | Unresolved(path: Path)

  datatype Outcome = Outcome(ports: PortMap, log: seq<Entry>)
  datatype OneOutcome = OneOutcome(ports: PortMap, entry: Option<Entry>)

  function HandleOne(ports: PortMap, item: Item): OneOutcome {
    var path := item.note.path;
    match item.note.event
    case Attached =>
      if path in ports then OneOutcome(ports, None)
      else (
        match item.answer.resolved
        case None => OneOutcome(ports, Some(Unresolved(path)))
        case Some(name) => OneOutcome(ports[path := name], Some(Called(Attached, path, name, item.answer.throws)))
      )
    case Detached =>
      if path in ports
      then OneOutcome(ports - {path}, Some(Called(Detached, path, ports[path], item.answer.throws)))
      else OneOutcome(ports, None)
  }

  function Record(log: seq<Entry>, entry: Option<Entry>): seq<Entry> {
    match entry
    case None => log
    case Some(e) => log + [e]
  }

  function Extend(before: Outcome, item: Item): Outcome {
    var one := HandleOne(before.ports, item);
    Outcome(one.ports, Record(before.log, one.entry))
  }

  /** The dispatcher started on `snapshot`, after consuming `items`. */
  function Dispatch(snapshot: PortMap, items: seq<Item>): Outcome {
    if items == [] then Outcome(snapshot, [])
    else Extend(Dispatch(snapshot, items[..|items| - 1]), items[|items| - 1])
  }

  lemma DispatchAppend(snapshot: PortMap, items: seq<Item>, item: Item)
    ensures Dispatch(snapshot, items + [item]) == Extend(Dispatch(snapshot, items), item)
  {
    assert (items + [item])[..|items|] == items;
  }

  /** What a reader of the log alone believes about the attached ports. */
  function ReplayOne(ports: PortMap, e: Entry): PortMap {
    match e
    case Called(Attached, path, name, _) => ports[path := name]
    case Called(Detached, path, _, _) => ports - {path}
    case Unresolved(_) => ports
  }

  function Replay(snapshot: PortMap, log: seq<Entry>): PortMap {
    if log == [] then snapshot
    else ReplayOne(Replay(snapshot, log[..|log| - 1]), log[|log| - 1])
  }

  lemma ReplayRecord(snapshot: PortMap, log: seq<Entry>, e: Entry)
    ensures Replay(snapshot, log + [e]) == ReplayOne(Replay(snapshot, log), e)
  {
    assert (log + [e])[..|log|] == log;
  }

  lemma HandleOneIsReplay(ports: PortMap, item: Item)
    ensures var one := HandleOne(ports, item);
      one.ports == match one.entry { case None => ports case Some(e) => ReplayOne(ports, e) }
  {
  }

  /** The port map is exactly the snapshot replayed through the log. */
  lemma {:induction false} DispatchIsReplay(snapshot: PortMap, items: seq<Item>)
    ensures Dispatch(snapshot, items).ports == Replay(snapshot, Dispatch(snapshot, items).log)
  {
    if items != [] {
      var init, item := items[..|items| - 1], items[|items| - 1];
      DispatchIsReplay(snapshot, init);
      var before := Dispatch(snapshot, init);
      HandleOneIsReplay(before.ports, item);
      match HandleOne(before.ports, item).entry
      case None =>
      case Some(e) => ReplayRecord(snapshot, before.log, e);
    }
  }

  // ----- Every item gets its answer, every entry has its item -----

  /** What becomes of one more notification, whatever came before: a duplicate is dropped; an arrival is
      remembered and called back under the name it resolves to, or reported if it does not resolve; a
      removal is called back under the remembered name and forgotten. */
  lemma ItemIsAnswered(snapshot: PortMap, items: seq<Item>, item: Item)
    ensures var before, after := Dispatch(snapshot, items), Dispatch(snapshot, items + [item]);
      var path, answer := item.note.path, item.answer;
      if item.note.event.Attached? && path !in before.ports && answer.resolved.Some? then
        var name := answer.resolved.value;
        && after.log == before.log + [Called(Attached, path, name, answer.throws)]
        && after.ports == before.ports[path := name]
      else if item.note.event.Attached? && path !in before.ports then
        after.log == before.log + [Unresolved(path)] && after.ports == before.ports
      else if item.note.event.Detached? && path in before.ports then
        && after.log == before.log + [Called(Detached, path, before.ports[path], answer.throws)]
        && after.ports == before.ports - {path}
      else after == before
  {
    DispatchAppend(snapshot, items, item);
  }

  /** The item says what the entry says. */
  predicate Explains(item: Item, e: Entry) {
    match e
    case Called(event, path, name, threw) =>
      && item.note == Notification(event, path) && item.answer.throws == threw
      && (event.Attached? ==> item.answer.resolved == Some(name))
    case Unresolved(path) => item.note == Notification(Attached, path) && item.answer.resolved == None
  }

  /** No entry is made up: each stems from an item with that event, path, name and exception. */
  lemma {:induction false} EveryEntryHasItsItem(snapshot: PortMap, items: seq<Item>, k: nat)
    requires k < |Dispatch(snapshot, items).log|
    ensures exists i :: 0 <= i < |items| && Explains(items[i], Dispatch(snapshot, items).log[k])
  {
    var n := |items| - 1;
    var init, item := items[..n], items[n];
    assert items == init + [item];
    ItemIsAnswered(snapshot, init, item);
    if k < |Dispatch(snapshot, init).log| {
      EveryEntryHasItsItem(snapshot, init, k);
      var i :| 0 <= i < |init| && Explains(init[i], Dispatch(snapshot, init).log[k]);
      assert items[i] == init[i];
    } else {
      assert Explains(items[n], Dispatch(snapshot, items).log[k]);
    }
  }

  // ----- What one device sees -----

  function EntriesOn(log: seq<Entry>, path: Path): seq<Entry> {
    if log == [] then []
    else
      var e := log[|log| - 1];
      var before := EntriesOn(log[..|log| - 1], path);
      if e.path == path then before + [e] else before
  }

  /** The callback invocations about `path`, in order. */
  function CallsOn(log: seq<Entry>, path: Path): (calls: seq<Entry>)
    ensures forall i :: 0 <= i < |calls| ==> calls[i].Called?
  {
    if log == [] then []
    else
      var e := log[|log| - 1];
      var before := CallsOn(log[..|log| - 1], path);
      if e.Called? && e.path == path then before + [e] else before
  }

  function ItemsOn(items: seq<Item>, path: Path): seq<Item> {
    if items == [] then []
    else
      var last := items[|items| - 1];
      var before := ItemsOn(items[..|items| - 1], path);
      if last.note.path == path then before + [last] else before
  }

  function Lookup(ports: PortMap, path: Path): Option<Name> {
    if path in ports then Some(ports[path]) else None
  }

  function Only(ports: PortMap, path: Path): PortMap {
    if path in ports then map[path := ports[path]] else map[]
  }

  /** The name under which a path is attached after `calls`, all about that path. */
  function NameAfter(start: Option<Name>, calls: seq<Entry>): Option<Name>
    requires forall i :: 0 <= i < |calls| ==> calls[i].Called?
  {
    if calls == [] then start
    else if calls[|calls| - 1].event.Attached? then Some(calls[|calls| - 1].name)
    else None
  }

  predicate Continues(current: Option<Name>, next: Entry)
    requires next.Called?
  {
    match current
    case None => next.event.Attached?
    case Some(name) => next.event.Detached? && next.name == name
  }

  /** Callbacks about one path strictly alternate; the first is Detached exactly when the
      snapshot held the path; every Detached carries the name of the Attached before it,
      or the snapshot's name. */
  ghost predicate Alternates(start: Option<Name>, calls: seq<Entry>)
    requires forall i :: 0 <= i < |calls| ==> calls[i].Called?
  {
    forall i :: 0 <= i < |calls| ==> Continues(NameAfter(start, calls[..i]), calls[i])
  }

  lemma CallsOnRecord(log: seq<Entry>, e: Entry, path: Path)
    ensures CallsOn(log + [e], path) ==
      if e.Called? && e.path == path then CallsOn(log, path) + [e] else CallsOn(log, path)
  {
    assert (log + [e])[..|log|] == log;
  }

  lemma AlternatesExtends(start: Option<Name>, calls: seq<Entry>, next: Entry)
    requires forall i :: 0 <= i < |calls| ==> calls[i].Called?
    requires Alternates(start, calls) && next.Called? && Continues(NameAfter(start, calls), next)
    ensures Alternates(start, calls + [next])
    ensures NameAfter(start, calls + [next]) == if next.event.Attached? then Some(next.name) else None
  {
    var longer := calls + [next];
    forall i | 0 <= i < |longer|
      ensures Continues(NameAfter(start, longer[..i]), longer[i])
    {
      assert longer[..i] == calls[..i];
      if i == |calls| {
        assert calls[..i] == calls;
      }
    }
  }

  lemma HandleOneContinues(ports: PortMap, item: Item, path: Path)
    ensures var one := HandleOne(ports, item);
      if one.entry.Some? && one.entry.value.Called? && one.entry.value.path == path then
        && Continues(Lookup(ports, path), one.entry.value)
        && Lookup(one.ports, path) == if one.entry.value.event.Attached? then Some(one.entry.value.name) else None
      else
        Lookup(one.ports, path) == Lookup(ports, path)
  {
  }

  lemma LogAlternates(start: Option<Name>, before: Outcome, item: Item, path: Path)
    requires var calls := CallsOn(before.log, path);
      Alternates(start, calls) && Lookup(before.ports, path) == NameAfter(start, calls)
    ensures var calls := CallsOn(Extend(before, item).log, path);
      Alternates(start, calls) && Lookup(Extend(before, item).ports, path) == NameAfter(start, calls)
  {
    HandleOneContinues(before.ports, item, path);
    match HandleOne(before.ports, item).entry
    case None =>
    case Some(e) =>
      CallsOnRecord(before.log, e, path);
      if e.Called? && e.path == path {
        AlternatesExtends(start, CallsOn(before.log, path), e);
      }
  }

  lemma {:induction false} CallbacksAlternate(snapshot: PortMap, items: seq<Item>, path: Path)
    ensures var calls := CallsOn(Dispatch(snapshot, items).log, path);
      && Alternates(Lookup(snapshot, path), calls)
      && Lookup(Dispatch(snapshot, items).ports, path) == NameAfter(Lookup(snapshot, path), calls)
  {
    if items != [] {
      var init, item := items[..|items| - 1], items[|items| - 1];
      CallbacksAlternate(snapshot, init, path);
      var before := Dispatch(snapshot, init);
      LogAlternates(Lookup(snapshot, path), before, item, path);
    }
  }

  // ----- Independence of devices -----

  lemma EntriesOnRecord(log: seq<Entry>, e: Entry, path: Path)
    ensures EntriesOn(log + [e], path) == if e.path == path then EntriesOn(log, path) + [e] else EntriesOn(log, path)
  {
    assert (log + [e])[..|log|] == log;
  }

  lemma HandleOneIsLocal(ports: PortMap, item: Item, path: Path)
    ensures var one := HandleOne(ports, item);
      && (one.entry.Some? ==> one.entry.value.path == item.note.path)
      && Only(one.ports, path) ==
        (if item.note.path == path then HandleOne(Only(ports, path), item).ports else Only(ports, path))
      && (item.note.path == path ==> one.entry == HandleOne(Only(ports, path), item).entry)
  {
  }

  /** One device's log is what the dispatcher would produce if that device were alone. */
  lemma {:induction false} DeviceIsIndependent(snapshot: PortMap, items: seq<Item>, path: Path)
    ensures var whole := Dispatch(snapshot, items);
      var alone := Dispatch(Only(snapshot, path), ItemsOn(items, path));
      && EntriesOn(whole.log, path) == alone.log
      && Only(whole.ports, path) == alone.ports
  {
    if items != [] {
      var init, item := items[..|items| - 1], items[|items| - 1];
      DeviceIsIndependent(snapshot, init, path);
      var before := Dispatch(snapshot, init);
      var one := HandleOne(before.ports, item);
      HandleOneIsLocal(before.ports, item, path);
      if one.entry.Some? {
        EntriesOnRecord(before.log, one.entry.value, path);
      }
      if item.note.path == path {
        DispatchAppend(Only(snapshot, path), ItemsOn(init, path), item);
      } else {
        assert ItemsOn(items, path) == ItemsOn(init, path);
      }
    }
  }

  /** Any two interleavings that agree device by device give device-by-device equal logs. */
  lemma InterleavingDoesNotMatter(s1: PortMap, items1: seq<Item>, s2: PortMap, items2: seq<Item>, path: Path)
    requires Lookup(s1, path) == Lookup(s2, path) && ItemsOn(items1, path) == ItemsOn(items2, path)
    ensures EntriesOn(Dispatch(s1, items1).log, path) == EntriesOn(Dispatch(s2, items2).log, path)
    ensures Lookup(Dispatch(s1, items1).ports, path) == Lookup(Dispatch(s2, items2).ports, path)
  {
    DeviceIsIndependent(s1, items1, path);
    DeviceIsIndependent(s2, items2, path);
    assert Only(s1, path) == Only(s2, path);
    var p1, p2 := Dispatch(s1, items1).ports, Dispatch(s2, items2).ports;
    assert Only(p1, path) == Only(p2, path);
    assert forall p: PortMap :: path in Only(p, path) <==> path in p;
    assert forall p: PortMap :: path in p ==> Only(p, path)[path] == p[path];
  }
}
