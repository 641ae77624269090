/** writeImpl: the write loop over chunk calls, what it puts on the wire, its counters and its time
    budget (write_impl.hpp). */
module WriteImpl {
  import opened Options
  import opened PendingIo
  import opened Directions
  import opened ChunkIo
  import opened Timeouts
  import opened Handles

  /** What a write call works on. */
  datatype Request = Request(input: seq<byte>, config: TimeoutConfig, told: bool)

  /** What a write call can change, at one moment. */
  datatype Moment = Moment(taken: nat, wire: seq<byte>, waits: seq<int>, books: Books, abort: bool)

  ghost function Now(state: HandleState, port: SerialPort, callbacks: IoCallbacks): Moment
    reads state, state.writeLane, port, callbacks
  {
    Moment(port.taken, port.wire, port.waits, state.Counters(Write, callbacks), state.writeLane.abort)
  }

  /** At the loop head: exactly the first `total` bytes of the input have gone out. */
  ghost predicate AtLoopHead(c: Request, e: Moment, wire: seq<byte>, abort: bool, total: nat, noted: seq<nat>) {
    && total <= |c.input| && Sum(noted) == total
    && wire == e.wire + c.input[..total]
    && (e.abort ==> total == 0 && abort)
  }

  /** Whatever the outcome, `sent` bytes have been added to the wire, and they are a prefix of the
      input: nothing is skipped, repeated or reordered. The completed chunks are among them, and all
      of them are, unless the call ended in a timeout or failed. */
  ghost predicate Stopped(c: Request, e: Moment, wire: seq<byte>, sent: nat, r: Return, end: End, noted: seq<nat>) {
    && 0 <= Sum(noted) <= sent <= |c.input|
    && wire == e.wire + c.input[..sent]
    && Reports(Write, end, Sum(noted), r) && end != ByMatch && end != ByNoState
    && (r.Count? ==> r.bytes <= sent && (end != ByTimeout ==> r.bytes == sent))
    && (end == ByFullBuffer ==> r == Count(|c.input|))
    && (e.abort ==> r.Fail? && sent == 0)
  }

  /** What a chunk call has put on the wire. */
  ghost predicate ChunkWent(c: Request, e: Moment, wire: seq<byte>, total: nat, noted: seq<nat>, result: IoResult,
                            moved: nat) {
    && total + moved <= |c.input| && Sum(noted) == total
    && (result.outcome == kCompleted ==> result.bytesTransferred == moved)
    && wire == e.wire + c.input[..total + moved]
    && (e.abort ==> total == 0 && moved == 0 && (result.outcome == kAborted || result.outcome == kError))
  }

  /** A chunk call without bytes ends the loop; with bytes, the loop goes on. */
  lemma TurnEnds(c: Request, e: Moment, wire: seq<byte>, total: nat, noted: seq<nat>, result: IoResult, moved: nat,
                 abort: bool)
    requires ChunkWent(c, e, wire, total, noted, result, moved)
    ensures
      if CountedBytes(result) == 0 then
        Stopped(c, e, wire, total + moved, ReturnOf(Write, result.outcome, total), EndOf(result.outcome),
                Noted(noted, result))
      else AtLoopHead(c, e, wire, abort, total + CountedBytes(result), Noted(noted, result))
  {
    SumAppend(noted, CountedBytes(result));
  }

  lemma WireGrows(wire: seq<byte>, before: seq<byte>, start: seq<byte>, input: seq<byte>, total: nat, moved: nat)
    requires total + moved <= |input| && before == start + input[..total]
    requires wire == before + input[total..total + moved]
    ensures wire == start + input[..total + moved]
  {
    assert input[..total + moved] == input[..total] + input[total..total + moved];
  }

  /** The chunk call itself: it goes on right behind the `total` bytes already sent. */
  method WriteCall(state: HandleState, port: SerialPort, buffer: array<byte>, bufferSize: nat, total: nat, timeout: int,
                   ghost start: seq<byte>)
    returns (result: IoResult, ghost moved: nat, ghost frame: Fid, ghost made: seq<OsCall>)
    requires state.Ready(Write) && port.Valid() && total <= bufferSize <= buffer.Length
    requires port.wire == start + buffer[..bufferSize][..total]
    modifies state.writeLane, port`taken, port`wire, port`waits, port`calls
    ensures state.Ready(Write) && port.Valid() && port.taken == old(port.taken)
    ensures total + moved <= bufferSize && (result.outcome == kCompleted ==> result.bytesTransferred == moved)
    ensures port.wire == start + buffer[..bufferSize][..total + moved]
    ensures port.waits == old(port.waits) || port.waits == old(port.waits) + [timeout]
    ensures port.calls == old(port.calls) + made && Asked(made, Write, total, bufferSize - total, timeout)
    ensures old(state.writeLane.abort) ==> (result.outcome == kAborted || result.outcome == kError) && moved == 0
    ensures OneMore(old(state.writeLane.protocol), state.writeLane.protocol, frame)
    ensures state.writeLane.protocol.frames[frame].pc == Pc.Returned(OutcomeOf(result))
  {
    ghost var before := port.wire;
    result, moved, frame, made := state.writeLane.Chunk(Write, port, buffer, total, bufferSize - total, timeout);
    AsAnsweredAsked(made, Write, total, bufferSize - total, timeout, state.writeLane.protocol.frames[frame], result);
    assert buffer[total..total + moved] == buffer[..bufferSize][total..total + moved];
    WireGrows(port.wire, before, start, buffer[..bufferSize], total, moved);
  }

  /** The chunk call of one turn and, when it completed with bytes, its count. */
  method WriteOnce(state: HandleState, port: SerialPort, callbacks: IoCallbacks, buffer: array<byte>, bufferSize: nat,
                   total: nat, timeout: int, ghost start: seq<byte>, ghost e: Books, ghost noted: seq<nat>)
    returns (result: IoResult, ghost moved: nat, ghost frame: Fid, ghost made: seq<OsCall>)
    requires state.Ready(Write) && port.Valid() && total <= bufferSize <= buffer.Length
    requires Booked(e, state.Counters(Write, callbacks), callbacks.onWrite, noted)
    requires port.wire == start + buffer[..bufferSize][..total]
    modifies state`bytesWrittenTotal, state`writeNotes, state.writeLane, callbacks`writeReports
    modifies port`taken, port`wire, port`waits, port`calls
    ensures state.Ready(Write) && port.Valid() && port.taken == old(port.taken)
    ensures Booked(e, state.Counters(Write, callbacks), callbacks.onWrite, Noted(noted, result))
    ensures total + moved <= bufferSize && (result.outcome == kCompleted ==> result.bytesTransferred == moved)
    ensures port.wire == start + buffer[..bufferSize][..total + moved]
    ensures port.waits == old(port.waits) || port.waits == old(port.waits) + [timeout]
    ensures port.calls == old(port.calls) + made && Asked(made, Write, total, bufferSize - total, timeout)
    ensures old(state.writeLane.abort) ==> (result.outcome == kAborted || result.outcome == kError) && moved == 0
    ensures OneMore(old(state.writeLane.protocol), state.writeLane.protocol, frame)
    ensures state.writeLane.protocol.frames[frame].pc == Pc.Returned(OutcomeOf(result))
  {
    result, moved, frame, made := WriteCall(state, port, buffer, bufferSize, total, timeout, start);
    state.NoteChunk(Write, result, callbacks, e, noted);
  }

  ghost predicate Going(c: Request, e: Moment, now: Moment, total: nat, noted: seq<nat>, chunks: nat)
  {
    && Booked(e.books, now.books, c.told, noted) && now.taken == e.taken
    && AtLoopHead(c, e, now.wire, now.abort, total, noted)
    && InBudget(e.waits, now.waits, c.config, chunks) && chunks <= total && (total == 0 <==> chunks == 0)
  }

  /** All that a write call has done when it returns `r`. */
  ghost predicate Ended(c: Request, e: Moment, now: Moment, sent: nat, r: Return, end: End, noted: seq<nat>,
                        chunks: nat)
  {
    && Booked(e.books, now.books, c.told, noted) && now.taken == e.taken
    && Stopped(c, e, now.wire, sent, r, end, noted)
    && InBudget(e.waits, now.waits, c.config, chunks) && chunks <= |c.input|
  }

  lemma Enters(c: Request, e: Moment)
    ensures Going(c, e, e, 0, [], 0)
  {
    assert e.books.reports + [] == e.books.reports;
    assert e.waits[|e.waits|..] == [] && e.wire + c.input[..0] == e.wire;
  }

  lemma AllSent(c: Request, e: Moment, now: Moment, total: nat, noted: seq<nat>, chunks: nat)
    requires Going(c, e, now, total, noted, chunks) && total == |c.input| > 0
    ensures Ended(c, e, now, total, Count(total), ByFullBuffer, noted, chunks)
  {
  }

  /** The reason the loop gives is how the frame of its last chunk call ended. */
  lemma TurnIsMade(before: Io, now: Io, f: Fid, result: IoResult)
    requires OneMore(before, now, f) && now.frames[f].pc == Pc.Returned(OutcomeOf(result))
    ensures TurnMade(before, now, f, CountedBytes(result) == 0, EndOf(result.outcome))
  {
  }

  /** One turn of the loop of writeImpl; `end` says why it left the loop, if it did. */
  method WriteTurn(state: HandleState, port: SerialPort, callbacks: IoCallbacks, buffer: array<byte>, bufferSize: nat,
                   total: nat, timeout: int, ghost c: Request, ghost e: Moment, ghost noted: seq<nat>)
    returns (done: bool, r: Return, total': nat, ghost sent: nat, ghost end: End, ghost noted': seq<nat>,
             ghost frame: Fid, ghost made: seq<OsCall>)
    requires state.Ready(Write) && port.Valid()
    requires total < bufferSize <= buffer.Length && c.input == buffer[..bufferSize]
    requires Booked(e.books, state.Counters(Write, callbacks), callbacks.onWrite, noted)
    requires AtLoopHead(c, e, port.wire, state.writeLane.abort, total, noted)
    modifies state`bytesWrittenTotal, state`writeNotes, state.writeLane, callbacks`writeReports
    modifies port`taken, port`wire, port`waits, port`calls
    ensures state.Ready(Write) && port.Valid() && port.taken == old(port.taken)
    ensures Booked(e.books, state.Counters(Write, callbacks), callbacks.onWrite, noted')
    ensures port.waits == old(port.waits) || port.waits == old(port.waits) + [timeout]
    ensures port.calls == old(port.calls) + made && Asked(made, Write, total, bufferSize - total, timeout)
    ensures !done ==> total < total' && AtLoopHead(c, e, port.wire, state.writeLane.abort, total', noted')
    ensures done ==> Stopped(c, e, port.wire, sent, r, end, noted')
    ensures TurnMade(old(state.writeLane.protocol), state.writeLane.protocol, frame, done, end)
  {
    ghost var moved;
    var result;
    result, moved, frame, made := WriteOnce(state, port, callbacks, buffer, bufferSize, total, timeout, e.wire, e.books,
                                      noted);
    sent, noted' := total + moved, Noted(noted, result);
    done, total' := CountedBytes(result) == 0, total + CountedBytes(result);
    r, end := ReturnOf(Write, result.outcome, total), EndOf(result.outcome);
    TurnEnds(c, e, port.wire, total, noted, result, moved, state.writeLane.abort);
    TurnIsMade(old(state.writeLane.protocol), state.writeLane.protocol, frame, result);
  }

  /** One turn with its timeout. */
  method WriteStep(state: HandleState, port: SerialPort, callbacks: IoCallbacks, buffer: array<byte>, bufferSize: nat,
                   config: TimeoutConfig, total: nat, ghost c: Request, ghost e: Moment, ghost noted: seq<nat>,
                   ghost chunks: nat)
    returns (done: bool, r: Return, total': nat, ghost sent: nat, ghost end: End, ghost noted': seq<nat>,
             ghost chunks': nat, ghost frame: Fid, ghost made: seq<OsCall>)
    requires state.Ready(Write) && port.Valid() && total < bufferSize <= buffer.Length && AcceptsTimeout(config)
    requires c == Request(buffer[..bufferSize], config, callbacks.onWrite)
    requires Going(c, e, Now(state, port, callbacks), total, noted, chunks)
    modifies state`bytesWrittenTotal, state`writeNotes, state.writeLane, callbacks`writeReports
    modifies port`taken, port`wire, port`waits, port`calls
    ensures state.Ready(Write) && port.Valid()
    ensures done ==> Ended(c, e, Now(state, port, callbacks), sent, r, end, noted', chunks')
    ensures port.calls == old(port.calls) + made
    ensures Asked(made, Write, total, bufferSize - total, CurrentTimeout(config, total))
    ensures TurnMade(old(state.writeLane.protocol), state.writeLane.protocol, frame, done, end)
    ensures !done ==> total < total' && Going(c, e, Now(state, port, callbacks), total', noted', chunks')
  {
    ghost var waits := port.waits;
    done, r, total', sent, end, noted', frame, made :=
      WriteTurn(state, port, callbacks, buffer, bufferSize, total, CurrentTimeout(config, total), c, e, noted);
    BudgetStep(e.waits, waits, port.waits, config, chunks, total);
    chunks' := chunks + 1;
  }

  /** The `while` loop of writeImpl. */
  method WriteLoop(state: HandleState, port: SerialPort, callbacks: IoCallbacks, buffer: array<byte>, bufferSize: nat,
                   config: TimeoutConfig)
    returns (r: Return, ghost sent: nat, ghost end: End, ghost noted: seq<nat>, ghost chunks: nat, ghost frame: Fid)
    requires state.Ready(Write) && port.Valid() && AcceptsTimeout(config) && 0 < bufferSize <= buffer.Length
    modifies state`bytesWrittenTotal, state`writeNotes, state.writeLane, callbacks`writeReports
    modifies port`taken, port`wire, port`waits, port`calls
    ensures state.Ready(Write) && port.Valid()
    ensures Ended(Request(buffer[..bufferSize], config, callbacks.onWrite), old(Now(state, port, callbacks)),
                  Now(state, port, callbacks), sent, r, end, noted, chunks)
    ensures EndsSince(old(state.writeLane.protocol), state.writeLane.protocol, frame, end)
    ensures Remembers(old(state.writeLane.protocol), state.writeLane.protocol)
  {
    ghost var e, c := Now(state, port, callbacks), Request(buffer[..bufferSize], config, callbacks.onWrite);
    var total, done := 0, false;
    r, sent, end, noted, chunks, frame := Count(0), 0, ByFullBuffer, [], 0, 0;
    Enters(c, e);
    while total < bufferSize && !done
      invariant state.Ready(Write) && port.Valid()
      invariant done ==> Ended(c, e, Now(state, port, callbacks), sent, r, end, noted, chunks)
      invariant done ==> EndsSince(old(state.writeLane.protocol), state.writeLane.protocol, frame, end)
      invariant !done ==> AllWentOn(old(state.writeLane.protocol), state.writeLane.protocol, None)
      invariant Remembers(old(state.writeLane.protocol), state.writeLane.protocol)
      invariant !done ==> Going(c, e, Now(state, port, callbacks), total, noted, chunks)
      decreases !done, bufferSize - total
    {
      ghost var before := state.writeLane.protocol;
      ghost var made;
      done, r, total, sent, end, noted, chunks, frame, made :=
        WriteStep(state, port, callbacks, buffer, bufferSize, config, total, c, e, noted, chunks);
      TurnMadeSince(old(state.writeLane.protocol), before, state.writeLane.protocol, frame, done, end);
    }
    if !done {
      AllSent(c, e, Now(state, port, callbacks), total, noted, chunks);
      r, end, sent := Count(total), ByFullBuffer, total;
    }
  }

  /** The first check of writeImpl that a call fails, in the order of the source. */
  function Rejection(config: Option<TimeoutConfig>, hasBuffer: bool, bufferSize: int,
                     hasHandle: bool): Option<StatusCode> {
    if config.None? || !AcceptsTimeout(config.value) then Some(kSetTimeoutError)
    else if !hasBuffer || bufferSize <= 0 then Some(kBufferError)
    else if !hasHandle then Some(kInvalidHandleError)
    else None
  }

  /** A rejected call touches nothing. Any other puts a prefix of the buffer on the wire, keeps the
      books and the budget, and reports how its last chunk call ended. */
  method WriteImpl(handle: HandleState?, port: SerialPort, callbacks: IoCallbacks, buffer: array?<byte>,
                   bufferSize: int32, config: Option<TimeoutConfig>)
    returns (r: Return, ghost sent: nat, ghost end: End, ghost noted: seq<nat>, ghost chunks: nat, ghost frame: Fid)
    requires port.Valid() && (handle != null ==> handle.Ready(Write))
      && (buffer != null ==> bufferSize <= buffer.Length)
    modifies (if handle != null then {handle} else {})`bytesWrittenTotal
    modifies (if handle != null then {handle} else {})`writeNotes
    modifies if handle != null then {handle.writeLane} else {}
    modifies callbacks`writeReports, port`taken, port`wire, port`waits, port`calls
    ensures port.Valid() && (handle != null ==> handle.Ready(Write))
    ensures handle != null ==> Remembers(old(handle.writeLane.protocol), handle.writeLane.protocol)
    ensures handle != null ==>
      var before, now := old(handle.writeLane.protocol), handle.writeLane.protocol;
      && (AbortedSince(before, now) <==> r == Fail(kAbortWriteError))
      && (FailedSince(before, now) <==> r == Fail(kWriteError))
      && (TimedOutSince(before, now) ==> r.Count?)
    ensures var code := Rejection(config, buffer != null, bufferSize, handle != null);
      code.Some? ==>
        && r == Fail(code.value) && noted == [] && unchanged(port) && unchanged(callbacks)
        && (handle != null ==> unchanged(handle) && unchanged(handle.writeLane))
    ensures Rejection(config, buffer != null, bufferSize, handle != null).None? ==>
      && Ended(Request(buffer[..bufferSize], config.value, callbacks.onWrite), old(Now(handle, port, callbacks)),
               Now(handle, port, callbacks), sent, r, end, noted, chunks)
      && EndsSince(old(handle.writeLane.protocol), handle.writeLane.protocol, frame, end)
      && old(port.waits) <= port.waits && BoundedWaits(port.waits[|old(port.waits)|..], config.value, bufferSize)
  {
    r, sent, end, noted, chunks, frame := Count(0), 0, ByError, [], 0, 0;
    if config.None? || !AcceptsTimeout(config.value) {
      r := Fail(kSetTimeoutError);
      return;
    }
    if buffer == null || bufferSize <= 0 {
      r := Fail(kBufferError);
      return;
    }
    if handle == null {
      r := Fail(kInvalidHandleError);
      return;
    }
    ghost var waits := port.waits;
    r, sent, end, noted, chunks, frame := WriteLoop(handle, port, callbacks, buffer, bufferSize, config.value);
    ReturnTells(Write, old(handle.writeLane.protocol), handle.writeLane.protocol, frame, end, Sum(noted), r);
    BudgetTotal(port.waits[|waits|..], config.value, chunks, bufferSize);
  }

  /** A call that succeeded returned what it noted. */
  lemma WriteIsPromised(c: Request, e: Moment, now: Moment, sent: nat, r: Return, end: End, noted: seq<nat>,
                        chunks: nat)
    requires Ended(c, e, now, sent, r, end, noted, chunks)
    ensures Promised(Past(Write, r), noted) && now.books.notes == e.books.notes + noted && 0 <= Sum(noted) <= sent
  {
  }

  /** serialWrite: whatever the outcome, a prefix of the buffer goes out; a non-negative return is its
      length, or less if a chunk call made meanwhile has timed out. */
  method SerialWrite(handle: HandleState?, port: SerialPort, callbacks: IoCallbacks, buffer: array?<byte>,
                     bufferSize: int32, config: Option<TimeoutConfig>)
    returns (r: Return, ghost sent: nat, ghost noted: seq<nat>)
    requires port.Valid() && (handle != null ==> handle.Ready(Write))
      && (buffer != null ==> bufferSize <= buffer.Length)
    modifies (if handle != null then {handle} else {})`bytesWrittenTotal
    modifies (if handle != null then {handle} else {})`writeNotes
    modifies if handle != null then {handle.writeLane} else {}
    modifies callbacks`writeReports, port`taken, port`wire, port`waits, port`calls
    ensures port.Valid() && (handle != null ==> handle.Ready(Write))
    ensures var config' := if config.Some? then config.value else TimeoutConfig(-1, -1);
      var accepted := 0 <= config'.timeoutMs && 0 <= config'.multiplier
        && config'.timeoutMs * config'.multiplier <= INT_MAX;
      && (!accepted ==> r == Fail(kSetTimeoutError))
      && (accepted && (buffer == null || bufferSize <= 0) ==> r == Fail(kBufferError))
      && (accepted && buffer != null && 0 < bufferSize && handle == null ==> r == Fail(kInvalidHandleError))
      && (accepted && buffer != null && 0 < bufferSize && handle != null ==>
            r.Count? || r.code in {kWriteError, kAbortWriteError})
      && (!accepted || buffer == null || bufferSize <= 0 || handle == null ==>
            unchanged(port) && unchanged(callbacks) && (buffer != null ==> unchanged(buffer))
            && (handle != null ==> unchanged(handle) && unchanged(handle.writeLane)))
    ensures handle != null ==> Remembers(old(handle.writeLane.protocol), handle.writeLane.protocol)
    ensures handle != null ==>
      var before, now := old(handle.writeLane.protocol), handle.writeLane.protocol;
      && (AbortedSince(before, now) <==> r == Fail(kAbortWriteError))
      && (FailedSince(before, now) <==> r == Fail(kWriteError))
      && (TimedOutSince(before, now) ==> r.Count?)
    ensures if sent == 0 then port.wire == old(port.wire)
      else buffer != null && sent <= bufferSize && port.wire == old(port.wire) + buffer[..sent]
    ensures port.taken == old(port.taken) && Promised(Past(Write, r), noted) && 0 <= Sum(noted) <= sent
    ensures if handle == null then noted == []
      else
        && handle.bytesWrittenTotal == old(handle.bytesWrittenTotal) + Sum(noted)
        && handle.writeNotes == old(handle.writeNotes) + noted
    ensures r.Count? ==>
      && handle != null && buffer != null && r.bytes <= sent <= bufferSize
      && (r.bytes == sent || TimedOutSince(old(handle.writeLane.protocol), handle.writeLane.protocol))
      && !old(handle.writeLane.abort)
  {
    ghost var end, chunks, frame;
    r, sent, end, noted, chunks, frame := WriteImpl(handle, port, callbacks, buffer, bufferSize, config);
    if Rejection(config, buffer != null, bufferSize, handle != null).None? {
      assert buffer[..bufferSize][..sent] == buffer[..sent];
    } else {
      sent := 0;
    }
  }
}