/** The initial snapshot: the walk over the double-NUL-terminated list of interface paths, the folded
    map keys and the map the listener starts on (serial_set_event_callback.cpp, interfaceKey and
    existingPorts). */
module MultiString {
  import opened Options
  import opened PortDispatch

  const NUL: char := '\0'

  // ----- Layout and walk -----

  predicate NulFree(s: string) {
    forall i :: 0 <= i < |s| ==> s[i] != NUL
  }

  /** A list that has a layout at all: no entry is empty or holds a NUL. */
  predicate Listable(list: seq<string>) {
    forall i :: 0 <= i < |list| ==> list[i] != "" && NulFree(list[i])
  }

  /** The layout: every entry with its NUL, and a NUL at the end. */
  function Layout(list: seq<string>): string {
    if list == [] then [NUL] else list[0] + [NUL] + Layout(list[1..])
  }

  /** The position of the first NUL at or after `from`. */
  function NextNul(buffer: string, from: nat): (r: Option<nat>)
    ensures r.Some? ==> from <= r.value < |buffer| && buffer[r.value] == NUL && NulFree(buffer[from..r.value])
    ensures r.None? ==> forall i :: from <= i < |buffer| ==> buffer[i] != NUL
    decreases |buffer| - from
  {
    if from >= |buffer| then None
    else if buffer[from] == NUL then Some(from)
    else NextNul(buffer, from + 1)
  }

  /** The entries from `from` on; None if the walk runs out of the buffer. */
  function Walk(buffer: string, from: nat): Option<seq<string>>
    decreases |buffer| - from
  {
    if from >= |buffer| then None
    else if buffer[from] == NUL then Some([])
    else
      match NextNul(buffer, from)
      case None => None
      case Some(end) =>
        match Walk(buffer, end + 1)
        case None => None
        case Some(rest) => Some([buffer[from..end]] + rest)
  }

  lemma {:induction false} NextNulIs(buffer: string, from: nat, end: nat)
    requires from <= end < |buffer| && buffer[end] == NUL && NulFree(buffer[from..end])
    ensures NextNul(buffer, from) == Some(end)
    decreases end - from
  {
    if from < end {
      assert buffer[from..end][0] == buffer[from];
      assert buffer[from + 1..end] == buffer[from..end][1..];
      NextNulIs(buffer, from + 1, end);
    }
  }

  /** `part` stands in the buffer at `from`. */
  predicate StandsAt(buffer: string, from: nat, part: string) {
    from + |part| <= |buffer| && buffer[from..from + |part|] == part
  }

  lemma EntryStands(buffer: string, from: nat, entry: string, rest: string)
    requires StandsAt(buffer, from, entry + [NUL] + rest)
    ensures StandsAt(buffer, from, entry) && StandsAt(buffer, from + |entry| + 1, rest)
    ensures buffer[from + |entry|] == NUL
  {
    var all := buffer[from..from + |entry| + 1 + |rest|];
    assert all == entry + [NUL] + rest;
    assert all[..|entry|] == entry && all[|entry|] == NUL && all[|entry| + 1..] == rest;
  }

  /** One entry and its NUL: the walk yields it and goes on behind it. */
  lemma WalkTakesEntry(buffer: string, from: nat, entry: string)
    requires entry != "" && NulFree(entry) && StandsAt(buffer, from, entry)
    requires from + |entry| < |buffer| && buffer[from + |entry|] == NUL
    ensures Walk(buffer, from) ==
      match Walk(buffer, from + |entry| + 1) { case None => None case Some(rest) => Some([entry] + rest) }
  {
    assert buffer[from..from + |entry|][0] == entry[0];
    NextNulIs(buffer, from, from + |entry|);
  }

  lemma {:induction false} WalkReadsAt(buffer: string, from: nat, list: seq<string>)
    requires Listable(list) && StandsAt(buffer, from, Layout(list))
    ensures Walk(buffer, from) == Some(list)
    decreases |list|
  {
    if list == [] {
      assert buffer[from..from + 1][0] == NUL;
    } else {
      var entry, rest := list[0], list[1..];
      EntryStands(buffer, from, entry, Layout(rest));
      WalkTakesEntry(buffer, from, entry);
      WalkReadsAt(buffer, from + |entry| + 1, rest);
      assert [entry] + rest == list;
    }
  }

  /** Wherever in a buffer a layout stands, and whatever follows it, the walk reads back exactly the
      list, without leaving the buffer. */
  lemma WalkReadsLayout(before: string, list: seq<string>, after: string)
    requires Listable(list)
    ensures Walk(before + Layout(list) + after, |before|) == Some(list)
  {
    var buffer := before + Layout(list) + after;
    assert buffer[|before|..|before| + |Layout(list)|] == Layout(list);
    WalkReadsAt(buffer, |before|, list);
  }

  /** Conversely, what a walk yields is a listable list, and its layout is what stands there: no two
      lists share a layout, and no entry is made up. */
  lemma {:induction false} WalkIsLayout(buffer: string, from: nat)
    requires Walk(buffer, from).Some?
    ensures from <= |buffer| && Listable(Walk(buffer, from).value) && Layout(Walk(buffer, from).value) <= buffer[from..]
    decreases |buffer| - from
  {
    if buffer[from] != NUL {
      var end := NextNul(buffer, from).value;
      WalkIsLayout(buffer, end + 1);
      var rest := Walk(buffer, end + 1).value;
      assert buffer[from..] == buffer[from..end] + [NUL] + buffer[end + 1..];
      assert (([buffer[from..end]] + rest))[1..] == rest;
    }
  }

  /** The double NUL the walk needs: a NUL at `from`, or two in a row after it. */
  predicate DoubleNul(buffer: string, from: nat, at: nat) {
    from <= at < |buffer| && buffer[at] == NUL && (at == from || buffer[at - 1] == NUL)
  }

  /** The walk stays inside the buffer if and only if the buffer has its double NUL. */
  lemma {:induction false} WalkIsSafe(buffer: string, from: nat)
    ensures Walk(buffer, from).Some? <==> exists at :: DoubleNul(buffer, from, at)
    decreases |buffer| - from
  {
    if from < |buffer| {
      var next := NextNul(buffer, from);
      if buffer[from] == NUL {
        assert DoubleNul(buffer, from, from);
      } else if next.Some? {
        var end := next.value;
        WalkIsSafe(buffer, end + 1);
        if Walk(buffer, end + 1).Some? {
          var at :| DoubleNul(buffer, end + 1, at);
          assert DoubleNul(buffer, from, at);
        }
        forall at | DoubleNul(buffer, from, at) ensures DoubleNul(buffer, end + 1, at) {
          assert forall k :: from <= k < end ==> buffer[from..end][k - from] == buffer[k];
        }
      }
    }
  }

  /** wcslen. */
  method Wcslen(buffer: string, path: nat) returns (length: nat)
    requires NextNul(buffer, path).Some?
    ensures NextNul(buffer, path) == Some(path + length)
  {
    length := 0;
    while buffer[path + length] != NUL
      invariant path + length < |buffer| && NextNul(buffer, path) == NextNul(buffer, path + length)
      decreases |buffer| - length
    {
      length := length + 1;
    }
  }

  // ----- Keys and the map -----

  /** CharUpperBuffW upper-cases one character at a time. */
  function Folded(path: string, upper: char -> char): string {
    seq(|path|, i requires 0 <= i < |path| => upper(path[i]))
  }

  /** The key is the path, character by character in upper case. */
  predicate Spells(key: Path, path: string, upper: char -> char) {
    |key.key| == |path| && forall i :: 0 <= i < |path| ==> key.key[i] == upper(path[i])
  }

  lemma SpellsIsFolded(key: Path, path: string, upper: char -> char)
    ensures Spells(key, path, upper) <==> key == Path(Folded(path, upper))
  {
    if Spells(key, path, upper) {
      assert key.key == Folded(path, upper);
    }
  }

  /** Two spellings share a key if and only if they agree character by character in upper case. */
  lemma SpellingsShareKey(a: string, b: string, upper: char -> char)
    ensures Path(Folded(a, upper)) == Path(Folded(b, upper)) <==>
      |a| == |b| && forall i :: 0 <= i < |a| ==> upper(a[i]) == upper(b[i])
  {
    SpellsIsFolded(Path(Folded(a, upper)), a, upper);
    SpellsIsFolded(Path(Folded(b, upper)), b, upper);
    if |a| == |b| && forall i :: 0 <= i < |a| ==> upper(a[i]) == upper(b[i]) {
      assert Spells(Path(Folded(a, upper)), b, upper);
      SpellsIsFolded(Path(Folded(a, upper)), b, upper);
    }
  }

  /** interfaceKey, in place on its own copy of the path. */
  method InterfaceKey(path: string, upper: char -> char) returns (key: Path)
    ensures |key.key| == |path| && forall i :: 0 <= i < |path| ==> key.key[i] == upper(path[i])
    ensures key == Path(Folded(path, upper))
  {
    var data := new char[|path|](i requires 0 <= i < |path| => path[i]);
    var i := 0;
    while i < data.Length
      invariant 0 <= i <= data.Length
      invariant forall k :: 0 <= k < i ==> data[k] == upper(path[k])
      invariant forall k :: i <= k < data.Length ==> data[k] == path[k]
    {
      data[i] := upper(data[i]);
      i := i + 1;
    }
    assert data[..] == Folded(path, upper);
    return Path(data[..]);
  }

  /** What looking up the port name of one entry yields: a name, one of the errors of an interface
      that is gone, or any other error. */
  datatype NameLookup = Named(name: Name) | Gone | Broken

  /** What becomes of the map with one entry more; None once an error other than Gone has left the
      function. */
  function Added(ports: PortMap, entry: string, answer: NameLookup, upper: char -> char): Option<PortMap> {
    var key := Path(Folded(entry, upper));
    match answer
    case Broken => None
    case Gone => Some(ports)
    case Named(name) => Some(if key in ports then ports else ports[key := name])
  }

  /** The map after the first `n` entries, `answers[i]` being the outcome for entry i. */
  function Snapshot(list: seq<string>, answers: seq<NameLookup>, upper: char -> char, n: nat): Option<PortMap>
    requires n <= |list| && |list| <= |answers|
  {
    if n == 0 then Some(map[])
    else
      match Snapshot(list, answers, upper, n - 1)
      case None => None
      case Some(ports) => Added(ports, list[n - 1], answers[n - 1], upper)
  }

  /** Entry i has this key and resolves. */
  predicate Resolves(list: seq<string>, answers: seq<NameLookup>, upper: char -> char, i: nat, key: Path)
    requires i < |list| && |list| <= |answers|
  {
    answers[i].Named? && Spells(key, list[i], upper)
  }

  /** The first of the first `n` entries that has this key and resolves. */
  function FirstNamed(list: seq<string>, answers: seq<NameLookup>, upper: char -> char, n: nat,
                      key: Path): (first: Option<nat>)
    requires n <= |list| && |list| <= |answers|
    ensures first.Some? ==>
      && first.value < n && Resolves(list, answers, upper, first.value, key)
      && forall j :: 0 <= j < first.value ==> !Resolves(list, answers, upper, j, key)
    ensures first.None? ==> forall j :: 0 <= j < n ==> !Resolves(list, answers, upper, j, key)
  {
    if n == 0 then None
    else
      var before := FirstNamed(list, answers, upper, n - 1, key);
      if before.Some? then before else if Resolves(list, answers, upper, n - 1, key) then Some(n - 1) else None
  }

  /** The call fails exactly when some lookup fails with an error other than Gone. */
  lemma {:induction false} SnapshotFails(list: seq<string>, answers: seq<NameLookup>, upper: char -> char, n: nat)
    requires n <= |list| && |list| <= |answers|
    ensures Snapshot(list, answers, upper, n).None? <==> exists i :: 0 <= i < n && answers[i].Broken?
  {
    if n > 0 {
      SnapshotFails(list, answers, upper, n - 1);
    }
  }

  /** Otherwise a key is in the map exactly when one of its entries resolves, and it carries the name
      of the first that does. */
  lemma {:induction false} SnapshotKeepsFirst(list: seq<string>, answers: seq<NameLookup>, upper: char -> char, n: nat,
                                              key: Path)
    requires n <= |list| && |list| <= |answers| && Snapshot(list, answers, upper, n).Some?
    ensures var ports, first := Snapshot(list, answers, upper, n).value, FirstNamed(list, answers, upper, n, key);
      && (key in ports <==> first.Some?)
      && (first.Some? ==> answers[first.value] == Named(ports[key]))
  {
    if n > 0 {
      SnapshotKeepsFirst(list, answers, upper, n - 1, key);
      SpellsIsFolded(key, list[n - 1], upper);
    }
  }

  /** Asking for the size of the interface list and then for the list: either call may fail, and the
      list may have outgrown the buffer meanwhile (CR_BUFFER_SMALL). */
  datatype Attempt = SizeFails | BufferSmall | ListFails | Listed(interfaces: string)

  /** The first answer that is not CR_BUFFER_SMALL. */
  function Settled(attempts: seq<Attempt>): Option<Attempt> {
    if attempts == [] then None
    else if attempts[0] != BufferSmall then Some(attempts[0])
    else Settled(attempts[1..])
  }

  lemma {:induction false} SettledIsFirst(attempts: seq<Attempt>, i: nat)
    requires i < |attempts| && attempts[i] != BufferSmall && forall j :: 0 <= j < i ==> attempts[j] == BufferSmall
    ensures Settled(attempts) == Some(attempts[i])
    decreases i
  {
    if i > 0 {
      SettledIsFirst(attempts[1..], i - 1);
    }
  }

  /** The retry loop. `attempts` is what the system answers; it settles in the end. */
  method ListInterfaces(attempts: seq<Attempt>) returns (r: Attempt)
    requires Settled(attempts).Some?
    ensures Settled(attempts) == Some(r)
  {
    var i := 0;
    while attempts[i] == BufferSmall
      invariant i < |attempts| && Settled(attempts[i..]) == Settled(attempts)
      decreases |attempts| - i
    {
      assert attempts[i..][1..] == attempts[i + 1..];
      i := i + 1;
    }
    return attempts[i];
  }

  /** One turn of the walk's loop: look the entry up and remember it under its folded key. */
  method AddEntry(ports: PortMap, entry: string, answer: NameLookup, upper: char -> char) returns (r: Option<PortMap>)
    ensures r == Added(ports, entry, answer, upper)
  {
    var key := InterfaceKey(entry, upper);
    match answer {
      case Broken => return None;
      case Gone => return Some(ports);
      case Named(name) => return Some(if key in ports then ports else ports[key := name]);
    }
  }

  /** The walk's loop in existingPorts. */
  method WalkPorts(interfaces: string, answers: seq<NameLookup>, upper: char -> char) returns (r: Option<PortMap>)
    requires exists at :: DoubleNul(interfaces, 0, at)
    requires Walk(interfaces, 0).Some? ==> |Walk(interfaces, 0).value| <= |answers|
    ensures Walk(interfaces, 0).Some?
    ensures r == Snapshot(Walk(interfaces, 0).value, answers, upper, |Walk(interfaces, 0).value|)
  {
    WalkIsSafe(interfaces, 0);
    ghost var list := Walk(interfaces, 0).value;
    var path, n := 0, 0;
    r := Some(map[]);
    while interfaces[path] != NUL && r.Some?
      invariant path < |interfaces| && n <= |list| && Walk(interfaces, path) == Some(list[n..])
      invariant r == Snapshot(list, answers, upper, n)
      decreases |interfaces| - path
    {
      var length := Wcslen(interfaces, path);
      WalkStep(interfaces, path, path + length, list, n);
      r := AddEntry(r.value, interfaces[path..path + length], answers[n], upper);
      path, n := path + length + 1, n + 1;
    }
    if r.None? {
      SnapshotStaysFailed(list, answers, upper, n, |list|);
    }
  }

  lemma WalkStep(interfaces: string, path: nat, end: nat, list: seq<string>, n: nat)
    requires path < |interfaces| && interfaces[path] != NUL && NextNul(interfaces, path) == Some(end)
    requires n <= |list| && Walk(interfaces, path) == Some(list[n..])
    ensures n < |list| && list[n] == interfaces[path..end] && Walk(interfaces, end + 1) == Some(list[n + 1..])
    ensures end + 1 < |interfaces|
  {
    assert list[n..] != [];
    assert list[n..][0] == list[n] && list[n..][1..] == list[n + 1..];
  }

  lemma {:induction false} SnapshotStaysFailed(list: seq<string>, answers: seq<NameLookup>, upper: char -> char,
                                               n: nat, m: nat)
    requires n <= m <= |list| <= |answers| && Snapshot(list, answers, upper, n).None?
    ensures Snapshot(list, answers, upper, m).None?
    decreases m - n
  {
    if n < m {
      SnapshotStaysFailed(list, answers, upper, n, m - 1);
    }
  }

  /** existingPorts: None when it throws. A list that came through ends in its double NUL. */
  method ExistingPorts(attempts: seq<Attempt>, answers: seq<NameLookup>, upper: char -> char)
    returns (r: Option<PortMap>)
    requires Settled(attempts).Some?
    requires Settled(attempts).value.Listed? ==> exists at :: DoubleNul(Settled(attempts).value.interfaces, 0, at)
    requires Settled(attempts).value.Listed? && Walk(Settled(attempts).value.interfaces, 0).Some? ==>
      |Walk(Settled(attempts).value.interfaces, 0).value| <= |answers|
    ensures !Settled(attempts).value.Listed? ==> r == None
    ensures Settled(attempts).value.Listed? ==>
      var list := Walk(Settled(attempts).value.interfaces, 0);
      list.Some? && r == Snapshot(list.value, answers, upper, |list.value|)
  {
    var attempt := ListInterfaces(attempts);
    if !attempt.Listed? {
      return None;
    }
    r := WalkPorts(attempt.interfaces, answers, upper);
  }
}
