/** The shared state of a handle: one lane a direction and the byte counters, with the I/O callbacks
    (handle_types.hpp, note_bytes_transferred.hpp), and what a read or write call may do to them. */
module Handles {
  import opened Options
  import opened PendingIo
  import opened Directions
  import opened ChunkSections
  import opened ChunkIo
  import opened Timeouts

  /** The registered I/O callbacks, and what each has been told. */
  class IoCallbacks {
    var onRead: bool
    var onWrite: bool
    var readReports: seq<nat>
    var writeReports: seq<nat>

    predicate Registered(op: Operation)
      reads this
    {
      if op.Read? then onRead else onWrite
    }
  }

  class HandleState {
    const readLane: Lane
    const writeLane: Lane
    var bytesReadTotal: int
    var bytesWrittenTotal: int
    /** Every completed chunk noted so far, in the order in which they came. */
    ghost var readNotes: seq<nat>
    ghost var writeNotes: seq<nat>

    constructor ()
      ensures Ready(Read) && Ready(Write) && bytesReadTotal == 0 && bytesWrittenTotal == 0
      ensures fresh(readLane) && fresh(writeLane)
    {
      readLane := new Lane();
      writeLane := new Lane();
      bytesReadTotal, bytesWrittenTotal, readNotes, writeNotes := 0, 0, [], [];
    }

    function LaneOf(op: Operation): Lane {
      if op.Read? then readLane else writeLane
    }

    ghost function TotalOf(op: Operation): int
      reads this
    {
      if op.Read? then bytesReadTotal else bytesWrittenTotal
    }

    ghost function NotesOf(op: Operation): seq<nat>
      reads this
    {
      if op.Read? then readNotes else writeNotes
    }

    /** The counter is the sum of all chunks ever completed. */
    ghost predicate Accounts(op: Operation)
      reads this
    {
      TotalOf(op) == Sum(NotesOf(op))
    }

    /** A call of this direction can start; the other direction may be anywhere, also inside a call. */
    ghost predicate Ready(op: Operation)
      reads this, LaneOf(op), LaneOf(op).pending
    {
      && readLane != writeLane && LaneOf(op).Valid() && LaneOf(op).pending == null
      && Accounts(op)
    }

    /** Of the calls ever made on this handle in this direction (`Remembers` keeps them all): those that
        ended by an abort are at most two for each abort request on it, and none without a request. */
    lemma AbortedCallsWereRequested(op: Operation, f: Fid)
      requires LaneOf(op).Valid() && EndsAs(LaneOf(op).protocol, f, ByAbort)
      ensures LaneOf(op).protocol.aborters != map[]
      ensures f in AbortedCalls(LaneOf(op).protocol)
        && |AbortedCalls(LaneOf(op).protocol)| <= 2 * |LaneOf(op).protocol.aborters|
    {
      ReachableIsAccounted(LaneOf(op).protocol);
      assert f in AbortedCalls(LaneOf(op).protocol);
    }

    /** Over any history of a handle its counter is the sum of all completed chunks of that direction,
        and at least the sum of the non-negative returns. The calls may overlap in any way, within a
        direction and across: `notes` are their chunks in the order in which they were noted. */
    lemma CountersOverHistory(op: Operation, calls: seq<Past>, notes: seq<Note>)
      requires Accounts(op)
      requires forall k :: 0 <= k < |notes| ==> notes[k].call < |calls|
      requires NotesOf(op) == NotesIn(op, calls, notes)
      requires forall i :: 0 <= i < |calls| ==> Promised(calls[i], NotedBy(notes, i))
      ensures TotalOf(op) == CompletedBytes(op, calls, notes) >= ReturnedBytes(op, calls)
    {
      NotesSumByCall(op, calls, notes);
      CompletedCoversReturned(op, calls, notes);
    }

    method NoteBytesTransferred(op: Operation, bytes: nat, callbacks: IoCallbacks)
      requires Accounts(op)
      modifies (if op.Read? then {this} else {})`bytesReadTotal, (if op.Write? then {this} else {})`bytesWrittenTotal
      modifies (if op.Read? then {this} else {})`readNotes, (if op.Write? then {this} else {})`writeNotes
      modifies (if op.Read? then {callbacks} else {})`readReports, (if op.Write? then {callbacks} else {})`writeReports
      ensures Accounts(op) && Counters(op, callbacks).total == old(Counters(op, callbacks)).total + bytes
      ensures Counters(op, callbacks).notes == old(Counters(op, callbacks)).notes + [bytes]
      ensures Counters(op, callbacks).reports == old(Counters(op, callbacks)).reports +
        if callbacks.Registered(op) then [bytes] else []
    {
      SumAppend(NotesOf(op), bytes);
      if op.Read? {
        bytesReadTotal := bytesReadTotal + bytes;
        readNotes := readNotes + [bytes];
        if callbacks.onRead {
          callbacks.readReports := callbacks.readReports + [bytes];
        }
        return;
      }
      bytesWrittenTotal := bytesWrittenTotal + bytes;
      writeNotes := writeNotes + [bytes];
      if callbacks.onWrite {
        callbacks.writeReports := callbacks.writeReports + [bytes];
      }
    }

    /** The loops note a chunk call that completed with bytes, and no other. */
    method NoteChunk(op: Operation, result: IoResult, callbacks: IoCallbacks, ghost e: Books, ghost noted: seq<nat>)
      requires Accounts(op) && Booked(e, Counters(op, callbacks), callbacks.Registered(op), noted)
      modifies (if op.Read? then {this} else {})`bytesReadTotal, (if op.Write? then {this} else {})`bytesWrittenTotal
      modifies (if op.Read? then {this} else {})`readNotes, (if op.Write? then {this} else {})`writeNotes
      modifies (if op.Read? then {callbacks} else {})`readReports, (if op.Write? then {callbacks} else {})`writeReports
      ensures Accounts(op) && Booked(e, Counters(op, callbacks), callbacks.Registered(op), Noted(noted, result))
    {
      if result.outcome == kCompleted && result.bytesTransferred > 0 {
        ghost var before := Counters(op, callbacks);
        NoteBytesTransferred(op, result.bytesTransferred, callbacks);
        BooksGrow(e, before, Counters(op, callbacks), callbacks.Registered(op), noted, result.bytesTransferred);
      }
    }

    ghost function Counters(op: Operation, callbacks: IoCallbacks): Books
      reads this, callbacks
    {
      if op.Read? then Books(bytesReadTotal, readNotes, callbacks.readReports)
      else Books(bytesWrittenTotal, writeNotes, callbacks.writeReports)
    }
  }

  /** One direction's counter, the chunks it counts, and what its callback has been told. */
  datatype Books = Books(total: int, notes: seq<nat>, reports: seq<nat>)

  /** The books of a direction after the completed chunks `noted`; `told` says whether its callback is
      registered. */
  ghost predicate Booked(e: Books, now: Books, told: bool, noted: seq<nat>) {
    && now.total == e.total + Sum(noted) && now.notes == e.notes + noted
    && now.reports == if told then e.reports + noted else e.reports
  }

  lemma BooksGrow(e: Books, before: Books, after: Books, told: bool, noted: seq<nat>, bytes: nat)
    requires Booked(e, before, told, noted)
    requires after.total == before.total + bytes && after.notes == before.notes + [bytes]
    requires after.reports == before.reports + if told then [bytes] else []
    ensures Booked(e, after, told, noted + [bytes])
  {
    SumAppend(noted, bytes);
    assert e.notes + noted + [bytes] == e.notes + (noted + [bytes]);
    if told {
      assert e.reports + noted + [bytes] == e.reports + (noted + [bytes]);
    }
  }

  /** The status codes a read or write call can return, named as the source names them. */
  datatype StatusCode =
    | kSetTimeoutError | kBufferError | kInvalidHandleError | kGetStateError
    | kReadError | kAbortReadError | kWriteError | kAbortWriteError

  /** A non-negative byte count, or a negative status code. */
  datatype Return = Count(bytes: nat) | Fail(code: StatusCode)

  /** Why a call left its loop. */
  datatype End = ByTimeout | ByAbort | ByError | ByEmptyChunk | ByMatch | ByFullBuffer | ByNoState

  /** What a call that left its loop returns. */
  ghost predicate Reports(op: Operation, end: End, total: int, r: Return) {
    match end
    case ByAbort => r == Fail(if op.Read? then kAbortReadError else kAbortWriteError)
    case ByError => r == Fail(if op.Read? then kReadError else kWriteError)
    case ByNoState => r == Fail(kGetStateError)
    case _ => r.Count? && r.bytes == total
  }

  /** The last chunk call, frame `f` of protocol state `p`, ended the way the loop says. */
  ghost predicate EndsAs(p: Io, f: Fid, end: End) {
    && f in p.frames && p.frames[f].pc.Returned?
    && match p.frames[f].pc.outcome {
      case TimedOut => end == ByTimeout
      case Aborted => end == ByAbort
      case Error(_) => end == ByError
      case Transferred(n) => if n == 0 then end == ByEmptyChunk else end == ByMatch || end == ByFullBuffer
    }
  }

  function CountedBytes(result: IoResult): nat {
    if result.outcome == kCompleted then result.bytesTransferred else 0
  }

  function Noted(noted: seq<nat>, result: IoResult): seq<nat> {
    if CountedBytes(result) > 0 then noted + [CountedBytes(result)] else noted
  }

  /** How the loop ends when the chunk call brought nothing to go on with. */
  function EndOf(outcome: IoOutcome): End {
    match outcome
    case kTimedOut => ByTimeout
    case kAborted => ByAbort
    case kError => ByError
    case kCompleted => ByEmptyChunk
  }

  function ReturnOf(op: Operation, outcome: IoOutcome, total: nat): Return {
    if outcome == kAborted then Fail(if op.Read? then kAbortReadError else kAbortWriteError)
    else if outcome == kError then Fail(if op.Read? then kReadError else kWriteError)
    else Count(total)
  }

  // ----- What the chunk calls of one read or write call came to -----

  /** Some chunk call made since protocol state `before` has timed out. */
  ghost predicate TimedOutSince(before: Io, now: Io) {
    exists f :: f in now.frames && f !in before.frames && now.frames[f].pc == Pc.Returned(TimedOut)
  }

  /** Some chunk call made since then was aborted. */
  ghost predicate AbortedSince(before: Io, now: Io) {
    exists f :: f in now.frames && f !in before.frames && now.frames[f].pc == Pc.Returned(Aborted)
  }

  /** Some chunk call made since then ended in an error. */
  ghost predicate FailedSince(before: Io, now: Io) {
    exists f :: f in now.frames && f !in before.frames && now.frames[f].pc.Returned? && now.frames[f].pc.outcome.Error?
  }

  predicate WentOn(pc: Pc) {
    pc.Returned? && pc.outcome.Transferred? && pc.outcome.bytes > 0
  }

  /** Every chunk call made since then, but for `last`, has moved bytes and let the loop go on. */
  ghost predicate AllWentOn(before: Io, now: Io, last: Option<Fid>) {
    forall f :: f in now.frames && f !in before.frames && last != Some(f) ==> WentOn(now.frames[f].pc)
  }

  /** The calls of one chunk call to the system: on this stretch of the buffer, with this timeout. */
  predicate Asked(made: seq<OsCall>, op: Operation, start: nat, size: nat, timeoutMs: int) {
    forall k :: 0 <= k < |made| ==> AsksFor(made[k], op, start, size, timeoutMs)
  }

  predicate AsksFor(call: OsCall, op: Operation, start: nat, size: nat, timeoutMs: int) {
    match call
    case Started(o, s, n, _) => o == op && s == start && n == size
    case Waited(t, _) => t == timeoutMs
    case QueueAnswer(_) => false
    case _ => true
  }

  lemma AsAnsweredAsked(made: seq<OsCall>, op: Operation, start: nat, size: nat, timeoutMs: int, fr: Frame, r: IoResult)
    requires AsAnswered(made, op, start, size, timeoutMs, fr, r)
    ensures Asked(made, op, start, size, timeoutMs)
  {
    if made[0].EventMade? && |made| > 1 {
      assert made[1] == made[1..][0];
      if |made| > 2 {
        assert made[1..][1..] == [made[2]] && |made| == 3;
      }
    }
  }

  /** The driver would once not say how much is waiting. */
  ghost predicate QueueFailed(made: seq<OsCall>) {
    exists k :: 0 <= k < |made| && made[k] == QueueAnswer(None)
  }

  lemma AskedHasNoQueue(made: seq<OsCall>, op: Operation, start: nat, size: nat, timeoutMs: int)
    requires Asked(made, op, start, size, timeoutMs)
    ensures !QueueFailed(made)
  {
    forall k | 0 <= k < |made| ensures made[k] != QueueAnswer(None) {
      assert AsksFor(made[k], op, start, size, timeoutMs);
    }
  }

  lemma QueueFailedJoin(a: seq<OsCall>, b: seq<OsCall>)
    ensures QueueFailed(a + b) <==> QueueFailed(a) || QueueFailed(b)
  {
    if k :| 0 <= k < |a| && a[k] == QueueAnswer(None) { assert (a + b)[k] == a[k]; }
    if k :| 0 <= k < |b| && b[k] == QueueAnswer(None) { assert (a + b)[|a| + k] == b[k]; }
  }

  /** One chunk call has been made, `f`, and has ended. */
  ghost predicate OneMore(before: Io, now: Io, f: Fid) {
    && Remembers(before, now) && f !in before.frames && now.frames.Keys == before.frames.Keys + {f}
    && now.frames[f].pc.Returned?
  }

  lemma AllStillWentOn(start: Io, before: Io, now: Io, f: Fid)
    requires Remembers(start, before) && AllWentOn(start, before, None) && OneMore(before, now, f)
    ensures Remembers(start, now) && f !in start.frames && AllWentOn(start, now, Some(f))
    ensures WentOn(now.frames[f].pc) ==> AllWentOn(start, now, None)
  {
  }

  /** The loop ended as its last chunk call did, or without one. */
  ghost predicate EndsSince(before: Io, now: Io, f: Fid, end: End) {
    if end == ByNoState || end == ByFullBuffer then AllWentOn(before, now, None)
    else f !in before.frames && EndsAs(now, f, end) && AllWentOn(before, now, Some(f))
  }

  /** What one turn of a loop did: without a chunk call it ended; with one it ended as that did, or goes on. */
  ghost predicate TurnMade(before: Io, now: Io, f: Fid, done: bool, end: End) {
    if done && end == ByNoState then now == before
    else
      && OneMore(before, now, f)
      && if done then EndsAs(now, f, end) && end != ByFullBuffer else WentOn(now.frames[f].pc)
  }

  lemma TurnMadeSince(start: Io, before: Io, now: Io, f: Fid, done: bool, end: End)
    requires Remembers(start, before) && AllWentOn(start, before, None) && TurnMade(before, now, f, done, end)
    ensures Remembers(start, now)
    ensures if done then EndsSince(start, now, f, end) else AllWentOn(start, now, None)
  {
    if !(done && end == ByNoState) {
      AllStillWentOn(start, before, now, f);
    }
  }

  /** What the call returns tells what its chunk calls came to: an abort code if and only if one was
      aborted, an error code if and only if one failed, and a timeout is no failure. */
  lemma ReturnTells(op: Operation, before: Io, now: Io, f: Fid, end: End, total: int, r: Return)
    requires EndsSince(before, now, f, end) && Reports(op, end, total, r)
    ensures AbortedSince(before, now) <==> r == Fail(if op.Read? then kAbortReadError else kAbortWriteError)
    ensures FailedSince(before, now) <==> r == Fail(if op.Read? then kReadError else kWriteError)
    ensures TimedOutSince(before, now) ==> r.Count?
  {
    if end != ByNoState && end != ByFullBuffer {
      assert f in now.frames && f !in before.frames;
    }
  }

  // ----- The counters over a history of calls -----

  /** One finished read or write call. */
  datatype Past = Past(op: Operation, r: Return)

  /** One noteBytesTransferred, and the number of the call that made it. */
  datatype Note = Note(call: nat, bytes: nat)

  /** The completed chunks of one call. */
  function NotedBy(notes: seq<Note>, call: nat): seq<nat> {
    if notes == [] then []
    else
      var last := notes[|notes| - 1];
      var before := NotedBy(notes[..|notes| - 1], call);
      if last.call == call then before + [last.bytes] else before
  }

  /** The sum of all completed chunks of all calls of a direction. */
  function CompletedBytes(op: Operation, calls: seq<Past>, notes: seq<Note>): int {
    if calls == [] then 0
    else
      var i := |calls| - 1;
      CompletedBytes(op, calls[..i], notes) + if calls[i].op == op then Sum(NotedBy(notes, i)) else 0
  }

  /** The sum of the non-negative returns of a direction. */
  function ReturnedBytes(op: Operation, calls: seq<Past>): int {
    if calls == [] then 0
    else
      var c := calls[|calls| - 1];
      ReturnedBytes(op, calls[..|calls| - 1]) + if c.op == op && c.r.Count? then c.r.bytes else 0
  }

  lemma {:induction false} NoNotes(op: Operation, calls: seq<Past>)
    ensures CompletedBytes(op, calls, []) == 0
  {
    if calls != [] {
      NoNotes(op, calls[..|calls| - 1]);
    }
  }

  lemma {:induction false} OneMoreNote(op: Operation, calls: seq<Past>, notes: seq<Note>, n: Note)
    ensures CompletedBytes(op, calls, notes + [n]) ==
      CompletedBytes(op, calls, notes) + if n.call < |calls| && calls[n.call].op == op then n.bytes else 0
  {
    if calls != [] {
      var i := |calls| - 1;
      OneMoreNote(op, calls[..i], notes, n);
      assert (notes + [n])[..|notes|] == notes;
      SumAppend(NotedBy(notes, i), n.bytes);
    }
  }

  lemma {:induction false} SumOfNat(s: seq<nat>)
    ensures Sum(s) >= 0
  {
    if s != [] {
      SumOfNat(s[..|s| - 1]);
    }
  }

  /** A call that succeeded returned what it noted. */
  predicate Promised(c: Past, noted: seq<nat>) {
    c.r.Count? ==> c.r.bytes == Sum(noted)
  }

  lemma {:induction false} CompletedCoversReturned(op: Operation, calls: seq<Past>, notes: seq<Note>)
    requires forall i :: 0 <= i < |calls| ==> Promised(calls[i], NotedBy(notes, i))
    ensures CompletedBytes(op, calls, notes) >= ReturnedBytes(op, calls)
  {
    if calls != [] {
      var i := |calls| - 1;
      CompletedCoversReturned(op, calls[..i], notes);
      SumOfNat(NotedBy(notes, i));
      assert Promised(calls[i], NotedBy(notes, i));
    }
  }

  /** What the calls of one direction noted, in the order in which it came. */
  function NotesIn(op: Operation, calls: seq<Past>, notes: seq<Note>): seq<nat>
    requires forall k :: 0 <= k < |notes| ==> notes[k].call < |calls|
  {
    if notes == [] then []
    else
      var last := notes[|notes| - 1];
      var before := NotesIn(op, calls, notes[..|notes| - 1]);
      if calls[last.call].op == op then before + [last.bytes] else before
  }

  /** Sorted by call or in the order in which they came, the completed chunks have the same sum. */
  lemma {:induction false} NotesSumByCall(op: Operation, calls: seq<Past>, notes: seq<Note>)
    requires forall k :: 0 <= k < |notes| ==> notes[k].call < |calls|
    ensures Sum(NotesIn(op, calls, notes)) == CompletedBytes(op, calls, notes)
  {
    if notes == [] {
      NoNotes(op, calls);
    } else {
      var k := |notes| - 1;
      NotesSumByCall(op, calls, notes[..k]);
      OneMoreNote(op, calls, notes[..k], notes[k]);
      assert notes == notes[..k] + [notes[k]];
      SumAppend(NotesIn(op, calls, notes[..k]), notes[k].bytes);
    }
  }
}
