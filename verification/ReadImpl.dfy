/** readImpl: the read loop over chunk calls, what it leaves in the buffer and takes from the device,
    its counters and its time budget (read_impl.hpp). */
module ReadImpl {
  import opened Options
  import opened PendingIo
  import opened Directions
  import opened ChunkIo
  import opened Timeouts
  import opened Terminators
  import opened Handles

  /** What a read call works on; `terminator` is empty for a plain read. */
  datatype Request = Request(stream: seq<byte>, bufferSize: nat, terminator: seq<byte>, config: TimeoutConfig,
                             told: bool)

  /** What a read call can change, at one moment; `tail` is the part of the buffer behind its size. */
  datatype Moment = Moment(taken: nat, wire: seq<byte>, waits: seq<int>, tail: seq<byte>, books: Books, abort: bool)

  ghost function Now(state: HandleState, port: SerialPort, callbacks: IoCallbacks, buffer: array<byte>,
                     bufferSize: nat): Moment
    requires bufferSize <= buffer.Length
    reads state, state.readLane, port, callbacks, buffer
  {
    Moment(port.taken, port.wire, port.waits, buffer[bufferSize..], state.Counters(Read, callbacks),
           state.readLane.abort)
  }

  function TerminatorOf(terminator: seq<byte>, terminatorSize: int): seq<byte>
    requires terminatorSize <= |terminator|
  {
    if terminatorSize > 0 then terminator[..terminatorSize] else []
  }

  /** At the loop head: `total` stream bytes are in the buffer, no prefix of them matches. */
  ghost predicate AtLoopHead(c: Request, e: Moment, taken: nat, abort: bool, buffer: seq<byte>, total: nat,
                             noted: seq<nat>) {
    && total <= c.bufferSize <= |buffer| && Sum(noted) == total
    && taken == e.taken + total <= |c.stream|
    && buffer[..total] == c.stream[e.taken..e.taken + total]
    && (c.terminator != [] ==> Search(c.stream[e.taken..e.taken + total], c.terminator, 0) == None)
    && (e.abort ==> total == 0 && abort)
  }

  /** However the call ends, the completed chunks are in the buffer, in stream order from where the
      call began, and unless it ended in a timeout or failed, exactly the bytes returned have left
      the device. */
  ghost predicate ReadResult(c: Request, origin: nat, taken: nat, buffer: seq<byte>, r: Return, end: End,
                             noted: seq<nat>) {
    && 0 <= Sum(noted) <= c.bufferSize <= |buffer|
    && origin + Sum(noted) <= taken <= origin + c.bufferSize && taken <= |c.stream|
    && buffer[..Sum(noted)] == c.stream[origin..origin + Sum(noted)]
    && Reports(Read, end, Sum(noted), r)
    && (r.Count? && end != ByTimeout ==> taken == origin + r.bytes)
    && (end == ByFullBuffer ==> r == Count(c.bufferSize))
  }

  /** With a terminator: the call ends at the first match of a naive search of the stream, or no
      prefix of what was read matches. */
  ghost predicate ReadTerminated(c: Request, origin: nat, r: Return, end: End) {
    && (if c.terminator == [] then end != ByMatch else end != ByNoState)
    && (r.Count? && c.terminator != [] ==>
      && origin + r.bytes <= |c.stream|
      && Search(c.stream[origin..origin + r.bytes], c.terminator, 0) ==
        (if end == ByMatch then Some(r.bytes) else None))
  }

  /** The next chunk lands right behind what has been read so far. */
  lemma PrefixGrows(stream: seq<byte>, buffer: seq<byte>, before: seq<byte>, total: nat, moved: nat, origin: nat)
    requires total + moved <= |before| && origin + total + moved <= |stream|
    requires before[..total] == stream[origin..origin + total]
    requires buffer == before[..total] + stream[origin + total..origin + total + moved] + before[total + moved..]
    ensures buffer[..total] == before[..total]
    ensures buffer[..total + moved] == stream[origin..origin + total + moved]
    ensures forall k :: total + moved <= k <= |before| ==> buffer[k..] == before[k..]
  {
    assert buffer[..total + moved] == before[..total] + stream[origin + total..origin + total + moved];
  }

  /** What the chunk call has delivered, seen from the loop. */
  lemma ChunkArrives(port: SerialPort, c: Request, e: Moment, buffer: seq<byte>, taken: nat, wire: seq<byte>,
                     before: seq<byte>, was: nat, wireWas: seq<byte>, total: nat, noted: seq<nat>, result: IoResult,
                     size: nat, moved: nat, abort: bool)
    requires c.stream == port.stream && total + size <= c.bufferSize <= |before| && moved <= size
    requires AtLoopHead(c, e, was, abort, before, total, noted)
    requires port.Delivered(Read, buffer, total, moved, taken, wire, before, was, wireWas)
    requires result.outcome == kCompleted ==> result.bytesTransferred == moved
    requires abort ==> (result.outcome == kAborted || result.outcome == kError) && moved == 0
    ensures ChunkCame(c, e, taken, buffer, total, noted, result, size)
    ensures buffer[c.bufferSize..] == before[c.bufferSize..] && wire == wireWas
  {
    PrefixGrows(c.stream, buffer, before, total, moved, e.taken);
    assert buffer[..total + CountedBytes(result)] == buffer[..total + moved][..total + CountedBytes(result)];
  }

  /** What a chunk is asked to read: as much as is waiting, but at least one byte and no more than fits. */
  function SizeFor(waiting: nat, remaining: nat): nat {
    if waiting == 0 then 1 else if waiting < remaining then waiting else remaining
  }

  /** The size of the next chunk: one byte with a terminator, otherwise by what the driver says is
      waiting in its queue; nothing if it would not say. */
  method ChunkSize(port: SerialPort, remaining: nat, terminatorSize: int) returns (size: nat, ghost made: seq<OsCall>)
    requires remaining > 0
    modifies port`calls
    ensures port.calls == old(port.calls) + made && size <= remaining
    ensures terminatorSize > 0 ==> made == [] && size == 1
    ensures terminatorSize <= 0 ==> |made| == 1 && made[0].QueueAnswer?
    ensures terminatorSize <= 0 ==>
      match made[0].waiting {
        case None => size == 0
        case Some(waiting) =>
          && 1 <= size && (waiting == 0 ==> size == 1)
          && (0 < waiting <= remaining ==> size == waiting) && (remaining < waiting ==> size == remaining)
      }
  {
    size, made := 1, [];
    if terminatorSize <= 0 {
      var waiting := port.BytesWaiting();
      made := [QueueAnswer(waiting)];
      size := if waiting.None? then 0 else SizeFor(waiting.value, remaining);
    }
  }

  /** The calls of one turn to the system. */
  predicate TurnAsked(made: seq<OsCall>, start: nat, remaining: nat, terminatorSize: int, timeoutMs: int) {
    if terminatorSize > 0 then Asked(made, Read, start, 1, timeoutMs)
    else
      && made != [] && made[0].QueueAnswer?
      && match made[0].waiting {
        case None => |made| == 1
        case Some(waiting) => Asked(made[1..], Read, start, SizeFor(waiting, remaining), timeoutMs)
      }
  }

  lemma TurnQueueFailed(made: seq<OsCall>, start: nat, remaining: nat, terminatorSize: int, timeoutMs: int)
    requires TurnAsked(made, start, remaining, terminatorSize, timeoutMs)
    ensures QueueFailed(made) <==> made == [QueueAnswer(None)]
  {
    if terminatorSize > 0 {
      AskedHasNoQueue(made, Read, start, 1, timeoutMs);
    } else if made[0].waiting.None? {
      assert made[0] == QueueAnswer(None);
    } else {
      AskedHasNoQueue(made[1..], Read, start, SizeFor(made[0].waiting.value, remaining), timeoutMs);
      assert made == [made[0]] + made[1..];
      QueueFailedJoin([made[0]], made[1..]);
    }
  }

  /** The chunk call itself: new bytes land behind the `total` already there, and nothing behind the
      chunk changes. */
  method ReadCall(state: HandleState, port: SerialPort, buffer: array<byte>, total: nat, size: nat, timeout: int,
                  ghost c: Request, ghost e: Moment, ghost noted: seq<nat>)
    returns (result: IoResult, ghost frame: Fid, ghost made: seq<OsCall>)
    requires state.Ready(Read) && port.Valid() && c.stream == port.stream
    requires total + size <= c.bufferSize <= buffer.Length
    requires AtLoopHead(c, e, port.taken, state.readLane.abort, buffer[..], total, noted)
    modifies state.readLane, buffer, port`taken, port`wire, port`waits, port`calls
    ensures state.Ready(Read) && port.Valid() && port.wire == old(port.wire)
    ensures ChunkCame(c, e, port.taken, buffer[..], total, noted, result, size)
    ensures buffer[c.bufferSize..] == old(buffer[c.bufferSize..])
    ensures port.waits == old(port.waits) || port.waits == old(port.waits) + [timeout]
    ensures port.calls == old(port.calls) + made && Asked(made, Read, total, size, timeout)
    ensures OneMore(old(state.readLane.protocol), state.readLane.protocol, frame)
    ensures state.readLane.protocol.frames[frame].pc == Pc.Returned(OutcomeOf(result))
  {
    ghost var before, was, wire, abort := buffer[..], port.taken, port.wire, state.readLane.abort;
    var moved: nat;
    result, moved, frame, made := state.readLane.Chunk(Read, port, buffer, total, size, timeout);
    AsAnsweredAsked(made, Read, total, size, timeout, state.readLane.protocol.frames[frame], result);
    ChunkArrives(port, c, e, buffer[..], port.taken, port.wire, before, was, wire, total, noted, result, size, moved,
                 abort);
  }

  /** The chunk call of one turn and, when it completed with bytes, its count. */
  method ReadOnce(state: HandleState, port: SerialPort, callbacks: IoCallbacks, buffer: array<byte>,
                  total: nat, size: nat, timeout: int, ghost c: Request, ghost e: Moment, ghost noted: seq<nat>)
    returns (result: IoResult, ghost frame: Fid, ghost made: seq<OsCall>)
    requires state.Ready(Read) && port.Valid() && c.stream == port.stream
    requires total + size <= c.bufferSize <= buffer.Length
    requires Booked(e.books, state.Counters(Read, callbacks), callbacks.onRead, noted)
    requires AtLoopHead(c, e, port.taken, state.readLane.abort, buffer[..], total, noted)
    modifies state`bytesReadTotal, state`readNotes, state.readLane, buffer, callbacks`readReports
    modifies port`taken, port`wire, port`waits, port`calls
    ensures state.Ready(Read) && port.Valid() && port.wire == old(port.wire)
    ensures buffer[c.bufferSize..] == old(buffer[c.bufferSize..])
    ensures Booked(e.books, state.Counters(Read, callbacks), callbacks.onRead, Noted(noted, result))
    ensures port.waits == old(port.waits) || port.waits == old(port.waits) + [timeout]
    ensures port.calls == old(port.calls) + made && Asked(made, Read, total, size, timeout)
    ensures ChunkCame(c, e, port.taken, buffer[..], total, noted, result, size)
    ensures OneMore(old(state.readLane.protocol), state.readLane.protocol, frame)
    ensures state.readLane.protocol.frames[frame].pc == Pc.Returned(OutcomeOf(result))
  {
    result, frame, made := ReadCall(state, port, buffer, total, size, timeout, c, e, noted);
    ghost var bytes := buffer[..];
    state.NoteChunk(Read, result, callbacks, e.books, noted);
    assert buffer[..] == bytes;
  }

  /** The call has left the loop. */
  ghost predicate Stopped(c: Request, e: Moment, taken: nat, buffer: seq<byte>, r: Return, end: End, noted: seq<nat>) {
    && ReadResult(c, e.taken, taken, buffer, r, end, noted) && ReadTerminated(c, e.taken, r, end)
    && (e.abort ==> r.Fail? && taken == e.taken)
  }

  /** What a chunk call has left in the buffer and taken from the device. */
  ghost predicate ChunkCame(c: Request, e: Moment, taken: nat, buffer: seq<byte>, total: nat, noted: seq<nat>,
                            result: IoResult, size: nat)
  {
    && total + size <= c.bufferSize <= |buffer| && Sum(noted) == total
    && CountedBytes(result) <= size && e.taken + total <= taken <= e.taken + total + size && taken <= |c.stream|
    && (result.outcome == kCompleted ==> taken == e.taken + total + result.bytesTransferred)
    && buffer[..total + CountedBytes(result)] == c.stream[e.taken..e.taken + total + CountedBytes(result)]
    && (c.terminator != [] ==> Search(c.stream[e.taken..e.taken + total], c.terminator, 0) == None)
    && (e.abort ==> (result.outcome == kAborted || result.outcome == kError) && taken == e.taken)
  }

  /** A chunk call without bytes ends the loop unmatched. */
  lemma TurnStops(c: Request, e: Moment, taken: nat, buffer: seq<byte>, total: nat, noted: seq<nat>, result: IoResult,
                  size: nat)
    requires ChunkCame(c, e, taken, buffer, total, noted, result, size) && CountedBytes(result) == 0
    ensures Stopped(c, e, taken, buffer, ReturnOf(Read, result.outcome, total), EndOf(result.outcome), noted)
  {
  }

  /** A chunk call with bytes ends the loop if what has been read now ends in the first match. */
  lemma TurnMatchesFirst(c: Request, e: Moment, taken: nat, buffer: seq<byte>, total: nat, noted: seq<nat>,
                         result: IoResult, size: nat)
    requires ChunkCame(c, e, taken, buffer, total, noted, result, size) && CountedBytes(result) > 0
      && c.terminator != []
    requires Search(c.stream[e.taken..taken], c.terminator, 0) == Some(total + CountedBytes(result))
    ensures Stopped(c, e, taken, buffer, Count(total + CountedBytes(result)), ByMatch, Noted(noted, result))
  {
    SumAppend(noted, CountedBytes(result));
  }

  /** Otherwise it goes on. */
  lemma TurnGoesOn(c: Request, e: Moment, taken: nat, buffer: seq<byte>, total: nat, noted: seq<nat>, result: IoResult,
                   size: nat, abort: bool)
    requires ChunkCame(c, e, taken, buffer, total, noted, result, size) && CountedBytes(result) > 0
    requires c.terminator != [] ==> Search(c.stream[e.taken..taken], c.terminator, 0) == None
    ensures AtLoopHead(c, e, taken, abort, buffer, total + CountedBytes(result), Noted(noted, result))
  {
    SumAppend(noted, CountedBytes(result));
  }

  /** Byte by byte: what the test says of the new byte is what the search says of the stream so far. */
  lemma TurnSearches(c: Request, e: Moment, taken: nat, buffer: seq<byte>, terminator: seq<byte>, terminatorSize: int,
                     total: nat, noted: seq<nat>, result: IoResult)
    requires ChunkCame(c, e, taken, buffer, total, noted, result, 1) && CountedBytes(result) > 0
    requires 0 < terminatorSize <= |terminator| && c.terminator == terminator[..terminatorSize]
    ensures Search(c.stream[e.taken..taken], c.terminator, 0) ==
      var total' := total + CountedBytes(result);
      if MatchesSuffix(buffer, total', terminator, terminatorSize) then Some(total') else None
  {
    assert CountedBytes(result) == 1 && taken == e.taken + total + 1;
    TurnMatches(c.stream, buffer, e.taken, total, terminator, terminatorSize);
  }

  /** How the loop ends after the chunk call, if it does. */
  function EndAfter(result: IoResult): End {
    if CountedBytes(result) == 0 then EndOf(result.outcome) else ByMatch
  }

  function ReturnAfter(result: IoResult, total: nat): Return {
    if CountedBytes(result) == 0 then ReturnOf(Read, result.outcome, total) else Count(total + CountedBytes(result))
  }

  /** The reason the loop gives is how the frame of its last chunk call ended. */
  lemma TurnIsMade(before: Io, now: Io, f: Fid, result: IoResult, done: bool, end: End)
    requires OneMore(before, now, f) && now.frames[f].pc == Pc.Returned(OutcomeOf(result))
    requires if done then end == EndAfter(result) else CountedBytes(result) > 0
    ensures TurnMade(before, now, f, done, end)
  {
  }

  /** What one chunk call means for the loop: it ends unmatched, ends at the first match, or goes on. */
  lemma TurnEnds(c: Request, e: Moment, taken: nat, buffer: seq<byte>, terminator: seq<byte>, terminatorSize: int,
                 total: nat, noted: seq<nat>, result: IoResult, size: nat, abort: bool,
                 done: bool, r: Return, end: End, total': nat, noted': seq<nat>)
    requires ChunkCame(c, e, taken, buffer, total, noted, result, size)
    requires terminatorSize <= |terminator| && c.terminator == TerminatorOf(terminator, terminatorSize)
    requires terminatorSize > 0 ==> size == 1
    requires total' == total + CountedBytes(result) && noted' == Noted(noted, result)
    requires r == ReturnAfter(result, total) && end == EndAfter(result)
    requires done <==> CountedBytes(result) == 0 || MatchesSuffix(buffer, total', terminator, terminatorSize)
    ensures done ==> Stopped(c, e, taken, buffer, r, end, noted')
    ensures !done ==> AtLoopHead(c, e, taken, abort, buffer, total', noted')
  {
    if CountedBytes(result) == 0 {
      TurnStops(c, e, taken, buffer, total, noted, result, size);
    } else {
      if terminatorSize > 0 {
        TurnSearches(c, e, taken, buffer, terminator, terminatorSize, total, noted, result);
      }
      if done {
        TurnMatchesFirst(c, e, taken, buffer, total, noted, result, size);
      } else {
        TurnGoesOn(c, e, taken, buffer, total, noted, result, size, abort);
      }
    }
  }

  /** One turn of the loop of readImpl; `end` says why it left the loop, if it did. */
  method ReadTurn(state: HandleState, port: SerialPort, callbacks: IoCallbacks, buffer: array<byte>,
                  chunkSize: nat, timeout: int, terminator: seq<byte>, terminatorSize: int, total: nat,
                  ghost c: Request, ghost e: Moment, ghost noted: seq<nat>)
    returns (done: bool, r: Return, total': nat, ghost end: End, ghost noted': seq<nat>,
             ghost result: IoResult, ghost frame: Fid, ghost made: seq<OsCall>)
    requires state.Ready(Read) && port.Valid() && total + chunkSize <= c.bufferSize <= buffer.Length
      && terminatorSize <= |terminator|
    requires c.stream == port.stream && c.terminator == TerminatorOf(terminator, terminatorSize)
    requires terminatorSize > 0 ==> chunkSize == 1
    requires Booked(e.books, state.Counters(Read, callbacks), callbacks.onRead, noted)
    requires AtLoopHead(c, e, port.taken, state.readLane.abort, buffer[..], total, noted)
    modifies state`bytesReadTotal, state`readNotes, state.readLane, buffer, callbacks`readReports
    modifies port`taken, port`wire, port`waits, port`calls
    ensures state.Ready(Read) && port.Valid() && port.wire == old(port.wire)
    ensures buffer[c.bufferSize..] == old(buffer[c.bufferSize..])
    ensures Booked(e.books, state.Counters(Read, callbacks), callbacks.onRead, noted')
    ensures port.waits == old(port.waits) || port.waits == old(port.waits) + [timeout]
    ensures port.calls == old(port.calls) + made && Asked(made, Read, total, chunkSize, timeout)
    ensures !done ==> total < total' && AtLoopHead(c, e, port.taken, state.readLane.abort, buffer[..], total', noted')
    ensures done ==> Stopped(c, e, port.taken, buffer[..], r, end, noted')
    ensures if done then end == EndAfter(result) else CountedBytes(result) > 0
    ensures OneMore(old(state.readLane.protocol), state.readLane.protocol, frame)
    ensures state.readLane.protocol.frames[frame].pc == Pc.Returned(OutcomeOf(result))
  {
    var chunk;
    chunk, frame, made := ReadOnce(state, port, callbacks, buffer, total, chunkSize, timeout, c, e, noted);
    result := chunk;
    noted' := Noted(noted, chunk);
    total' := total + CountedBytes(chunk);
    done := CountedBytes(chunk) == 0 || MatchesSuffix(buffer[..], total', terminator, terminatorSize);
    r, end := ReturnAfter(chunk, total), EndAfter(chunk);
    TurnEnds(c, e, port.taken, buffer[..], terminator, terminatorSize, total, noted, chunk, chunkSize,
             state.readLane.abort, done, r, end, total', noted');
  }

  /** Nothing but the books, the waits and the buffer has moved, and the waits are within the budget. */
  ghost predicate Kept(c: Request, e: Moment, now: Moment, noted: seq<nat>, chunks: nat) {
    && Booked(e.books, now.books, c.told, noted) && now.wire == e.wire && now.tail == e.tail
    && InBudget(e.waits, now.waits, c.config, chunks)
  }

  /** All that a read call has done when it returns `r`. */
  ghost predicate Ended(c: Request, e: Moment, now: Moment, buffer: seq<byte>, r: Return, end: End, noted: seq<nat>,
                        chunks: nat)
  {
    Kept(c, e, now, noted, chunks) && Stopped(c, e, now.taken, buffer, r, end, noted) && chunks <= c.bufferSize
  }

  /** The driver would not say how much is waiting. */
  lemma QueueUnknown(c: Request, e: Moment, taken: nat, abort: bool, buffer: seq<byte>, total: nat, noted: seq<nat>)
    requires AtLoopHead(c, e, taken, abort, buffer, total, noted) && c.terminator == []
    ensures Stopped(c, e, taken, buffer, Fail(kGetStateError), ByNoState, noted)
  {
  }

  lemma BufferFull(c: Request, e: Moment, taken: nat, abort: bool, buffer: seq<byte>, total: nat, noted: seq<nat>)
    requires AtLoopHead(c, e, taken, abort, buffer, total, noted) && total == c.bufferSize > 0
    ensures Stopped(c, e, taken, buffer, Count(total), ByFullBuffer, noted)
  {
  }

  lemma Enters(c: Request, e: Moment, buffer: seq<byte>)
    requires c.bufferSize <= |buffer| && e.taken <= |c.stream|
    ensures Kept(c, e, e, [], 0) && AtLoopHead(c, e, e.taken, e.abort, buffer, 0, [])
  {
    assert e.books.reports + [] == e.books.reports && e.books.notes + [] == e.books.notes;
    assert e.waits[|e.waits|..] == [];
  }

  lemma JoinCallSeqs(a: seq<OsCall>, b: seq<OsCall>, c: seq<OsCall>)
    ensures a + b + c == a + (b + c)
  {
  }

  lemma TurnAsks(made: seq<OsCall>, asked: seq<OsCall>, more: seq<OsCall>, start: nat, remaining: nat, size: nat,
                 terminatorSize: int, timeoutMs: int)
    requires made == asked + more && Asked(more, Read, start, size, timeoutMs)
    requires if terminatorSize > 0 then asked == [] && size == 1
      else
        && |asked| == 1 && asked[0].QueueAnswer? && asked[0].waiting.Some?
        && size == SizeFor(asked[0].waiting.value, remaining)
    ensures TurnAsked(made, start, remaining, terminatorSize, timeoutMs) && !QueueFailed(made)
  {
    if terminatorSize > 0 {
      assert made == more;
    } else {
      assert made[0] == asked[0] && made[1..] == more;
    }
    TurnQueueFailed(made, start, remaining, terminatorSize, timeoutMs);
  }

  /** One turn with its chunk size and timeout. */
  method ReadStep(state: HandleState, port: SerialPort, callbacks: IoCallbacks, buffer: array<byte>, bufferSize: nat,
                  config: TimeoutConfig, terminator: seq<byte>, terminatorSize: int, total: nat,
                  ghost c: Request, ghost e: Moment, ghost noted: seq<nat>, ghost chunks: nat)
    returns (done: bool, r: Return, total': nat, ghost end: End, ghost noted': seq<nat>, ghost chunks': nat,
             ghost frame: Fid, ghost made: seq<OsCall>)
    requires state.Ready(Read) && port.Valid() && total < bufferSize <= buffer.Length && terminatorSize <= |terminator|
    requires AcceptsTimeout(config)
    requires c == Request(port.stream, bufferSize, TerminatorOf(terminator, terminatorSize), config, callbacks.onRead)
    requires Kept(c, e, Now(state, port, callbacks, buffer, bufferSize), noted, chunks)
    requires AtLoopHead(c, e, port.taken, state.readLane.abort, buffer[..], total, noted)
    requires chunks <= total && (total == 0 <==> chunks == 0)
    modifies state`bytesReadTotal, state`readNotes, state.readLane, buffer, callbacks`readReports
    modifies port`taken, port`wire, port`waits, port`calls
    ensures state.Ready(Read) && port.Valid()
    ensures Kept(c, e, Now(state, port, callbacks, buffer, bufferSize), noted', chunks') && chunks' <= total + 1
    ensures done ==> Stopped(c, e, port.taken, buffer[..], r, end, noted')
    ensures port.calls == old(port.calls) + made
    ensures TurnAsked(made, total, bufferSize - total, terminatorSize, CurrentTimeout(config, total))
    ensures QueueFailed(made) <==> done && end == ByNoState
    ensures TurnMade(old(state.readLane.protocol), state.readLane.protocol, frame, done, end)
    ensures !done ==>
      && total < total' && 0 < chunks'
      && AtLoopHead(c, e, port.taken, state.readLane.abort, buffer[..], total', noted')
  {
    ghost var calls := port.calls;
    var chunkSize;
    chunkSize, made := ChunkSize(port, bufferSize - total, terminatorSize);
    if chunkSize == 0 {
      TurnQueueFailed(made, total, bufferSize - total, terminatorSize, CurrentTimeout(config, total));
      QueueUnknown(c, e, port.taken, state.readLane.abort, buffer[..], total, noted);
      done, r, total', end, noted', chunks', frame := true, Fail(kGetStateError), total, ByNoState, noted, chunks, 0;
      return;
    }
    ghost var waits := port.waits;
    ghost var result, more, asked := *, [], made;
    done, r, total', end, noted', result, frame, more := ReadTurn(state, port, callbacks, buffer, chunkSize,
      CurrentTimeout(config, total), terminator, terminatorSize, total, c, e, noted);
    made := asked + more;
    JoinCallSeqs(calls, asked, more);
    TurnAsks(made, asked, more, total, bufferSize - total, chunkSize, terminatorSize, CurrentTimeout(config, total));
    TurnIsMade(old(state.readLane.protocol), state.readLane.protocol, frame, result, done, end);
    BudgetStep(e.waits, waits, port.waits, config, chunks, total);
    chunks' := chunks + 1;
  }

  /** The `while` loop of readImpl. */
  method ReadLoop(state: HandleState, port: SerialPort, callbacks: IoCallbacks, buffer: array<byte>, bufferSize: nat,
                  config: TimeoutConfig, terminator: seq<byte>, terminatorSize: int)
    returns (r: Return, ghost end: End, ghost noted: seq<nat>, ghost chunks: nat, ghost frame: Fid,
             ghost made: seq<OsCall>)
    requires state.Ready(Read) && port.Valid() && AcceptsTimeout(config)
    requires 0 < bufferSize <= buffer.Length && terminatorSize <= |terminator|
    modifies state`bytesReadTotal, state`readNotes, state.readLane, buffer, callbacks`readReports
    modifies port`taken, port`wire, port`waits, port`calls
    ensures state.Ready(Read) && port.Valid()
    ensures var c := Request(port.stream, bufferSize, TerminatorOf(terminator, terminatorSize), config,
                             callbacks.onRead);
      Ended(c, old(Now(state, port, callbacks, buffer, bufferSize)), Now(state, port, callbacks, buffer, bufferSize),
            buffer[..], r, end, noted, chunks)
    ensures port.calls == old(port.calls) + made && (QueueFailed(made) <==> end == ByNoState)
    ensures EndsSince(old(state.readLane.protocol), state.readLane.protocol, frame, end)
    ensures Remembers(old(state.readLane.protocol), state.readLane.protocol)
  {
    ghost var e := Now(state, port, callbacks, buffer, bufferSize);
    ghost var c := Request(port.stream, bufferSize, TerminatorOf(terminator, terminatorSize), config, callbacks.onRead);
    var total, done := 0, false;
    r, end, noted, chunks, frame, made := Count(0), ByFullBuffer, [], 0, 0, [];
    Enters(c, e, buffer[..]);
    while total < bufferSize && !done
      invariant state.Ready(Read) && port.Valid()
      invariant Kept(c, e, Now(state, port, callbacks, buffer, bufferSize), noted, chunks) && chunks <= bufferSize
      invariant done ==> Stopped(c, e, port.taken, buffer[..], r, end, noted)
      invariant port.calls == old(port.calls) + made && (QueueFailed(made) <==> done && end == ByNoState)
      invariant done ==> EndsSince(old(state.readLane.protocol), state.readLane.protocol, frame, end)
      invariant !done ==> AllWentOn(old(state.readLane.protocol), state.readLane.protocol, None)
      invariant Remembers(old(state.readLane.protocol), state.readLane.protocol)
      invariant !done ==>
        && AtLoopHead(c, e, port.taken, state.readLane.abort, buffer[..], total, noted)
        && chunks <= total && (total == 0 <==> chunks == 0)
      decreases !done, bufferSize - total
    {
      ghost var before, more := state.readLane.protocol, [];
      done, r, total, end, noted, chunks, frame, more := ReadStep(state, port, callbacks, buffer, bufferSize,
        config, terminator, terminatorSize, total, c, e, noted, chunks);
      QueueFailedJoin(made, more);
      JoinCallSeqs(old(port.calls), made, more);
      made := made + more;
      TurnMadeSince(old(state.readLane.protocol), before, state.readLane.protocol, frame, done, end);
    }
    if !done {
      BufferFull(c, e, port.taken, state.readLane.abort, buffer[..], total, noted);
      r, end := Count(total), ByFullBuffer;
    }
  }

  /** The first match: `rest` is everything the device has still to hand out when the call begins,
      `left` the bytes that leave it meanwhile. If `found`, what was read ends with the terminator and
      is exactly what left the device, and a naive search of all of `rest` finds the same place. If
      not, nothing read so far matches, and what the search finds, if anything, lies further on. */
  ghost predicate ReadsToFirst(rest: seq<byte>, t: seq<byte>, read: seq<byte>, left: int, found: bool) {
    && read <= rest && |read| <= left
    && (EndsWith(read, t) <==> found)
    && (forall m :: 0 <= m < |read| ==> !EndsWith(read[..m], t))
    && (if found then Search(rest, t, 0) == Some(|read|) && left == |read|
        else Search(rest, t, 0).None? || Search(rest, t, 0).value > |read|)
  }

  lemma SearchedSoFar(rest: seq<byte>, t: seq<byte>, read: seq<byte>, found: bool)
    requires read <= rest && Search(read, t, 0) == (if found then Some(|read|) else None)
    ensures ReadsToFirst(rest, t, read, |read|, found)
  {
    assert read == rest[..|read|] && read[..|read|] == read;
    SearchFindsShortest(read, t, 0);
    SearchOfPrefix(rest, |read|, t, 0);
    if !found && |read| < |rest| {
      SearchFindsShortest(rest, t, |read| + 1);
    }
  }

  /** On a non-negative return a read with a terminator has read to the first match. */
  lemma ReadFindsFirstMatch(c: Request, e: Moment, now: Moment, buffer: seq<byte>, r: Return, end: End, noted: seq<nat>,
                            chunks: nat)
    requires Ended(c, e, now, buffer, r, end, noted, chunks) && c.terminator != [] && r.Count?
    ensures r.bytes <= c.bufferSize
    ensures ReadsToFirst(c.stream[e.taken..], c.terminator, buffer[..r.bytes], now.taken - e.taken, end == ByMatch)
  {
    var rest, read := c.stream[e.taken..], buffer[..r.bytes];
    assert rest[..r.bytes] == c.stream[e.taken..e.taken + r.bytes] == read;
    SearchedSoFar(rest, c.terminator, read, end == ByMatch);
  }

  /** Whatever the outcome: the chunks `noted` are in the buffer, in stream order from where the call
      began, and have left the device. */
  ghost predicate InOrder(stream: seq<byte>, origin: nat, taken: nat, buffer: seq<byte>, noted: seq<nat>) {
    && 0 <= Sum(noted) <= |buffer| && origin + Sum(noted) <= taken <= |stream|
    && buffer[..Sum(noted)] == stream[origin..origin + Sum(noted)]
  }

  /** A call that succeeded returned what it noted. */
  lemma ReadIsPromised(c: Request, e: Moment, now: Moment, buffer: seq<byte>, r: Return, end: End, noted: seq<nat>,
                       chunks: nat)
    requires Ended(c, e, now, buffer, r, end, noted, chunks)
    ensures Promised(Past(Read, r), noted) && now.books.notes == e.books.notes + noted
    ensures InOrder(c.stream, e.taken, now.taken, buffer, noted)
  {
  }

  /** The first check of readImpl that a call fails, in the order of the source. */
  function Rejection(config: Option<TimeoutConfig>, hasBuffer: bool, bufferSize: int, hasTerminator: bool,
                     terminatorSize: int, hasHandle: bool): Option<StatusCode>
  {
    if config.None? || !AcceptsTimeout(config.value) then Some(kSetTimeoutError)
    else if !hasBuffer || bufferSize <= 0 || (terminatorSize > 0 && !hasTerminator) then Some(kBufferError)
    else if !hasHandle then Some(kInvalidHandleError)
    else None
  }

  /** A rejected call touches nothing. Any other reads a stretch of the stream from where the device
      stands, keeps the books, the budget and the rest of the buffer, and reports how its last chunk
      call ended. */
  method ReadImpl(handle: HandleState?, port: SerialPort, callbacks: IoCallbacks, buffer: array?<byte>,
                  bufferSize: int32,
                  config: Option<TimeoutConfig>, terminator: Option<seq<byte>>, terminatorSize: int32)
    returns (r: Return, ghost end: End, ghost noted: seq<nat>, ghost chunks: nat, ghost frame: Fid,
             ghost made: seq<OsCall>)
    requires port.Valid() && (handle != null ==> handle.Ready(Read))
    requires (buffer != null ==> bufferSize <= buffer.Length)
      && (terminator.Some? ==> terminatorSize <= |terminator.value|)
    modifies (if handle != null then {handle} else {})`bytesReadTotal
    modifies (if handle != null then {handle} else {})`readNotes
    modifies if handle != null then {handle.readLane} else {}, buffer
    modifies callbacks`readReports, port`taken, port`wire, port`waits, port`calls
    ensures port.Valid() && (handle != null ==> handle.Ready(Read))
    ensures handle != null ==> Remembers(old(handle.readLane.protocol), handle.readLane.protocol)
    ensures handle != null ==>
      var before, now := old(handle.readLane.protocol), handle.readLane.protocol;
      && (AbortedSince(before, now) <==> r == Fail(kAbortReadError))
      && (FailedSince(before, now) <==> r == Fail(kReadError))
      && (TimedOutSince(before, now) ==> r.Count?)
    ensures port.wire == old(port.wire) && Promised(Past(Read, r), noted)
    ensures if handle == null || buffer == null then noted == []
      else
        && handle.bytesReadTotal == old(handle.bytesReadTotal) + Sum(noted)
        && handle.readNotes == old(handle.readNotes) + noted
        && InOrder(port.stream, old(port.taken), port.taken, buffer[..], noted)
        && (0 <= bufferSize ==> buffer[bufferSize..] == old(buffer[bufferSize..]))
    ensures port.calls == old(port.calls) + made && (QueueFailed(made) <==> r == Fail(kGetStateError))
    ensures var code := Rejection(config, buffer != null, bufferSize, terminator.Some?, terminatorSize, handle != null);
      code.Some? ==>
        && r == Fail(code.value) && noted == []
        && unchanged(port) && unchanged(callbacks) && (buffer != null ==> unchanged(buffer))
        && (handle != null ==> unchanged(handle) && unchanged(handle.readLane))
    ensures Rejection(config, buffer != null, bufferSize, terminator.Some?, terminatorSize, handle != null).None? ==>
      var c := Request(port.stream, bufferSize,
                       if terminator.Some? then TerminatorOf(terminator.value, terminatorSize) else [],
                       config.value, callbacks.onRead);
      Ended(c, old(Now(handle, port, callbacks, buffer, bufferSize)), Now(handle, port, callbacks, buffer, bufferSize),
            buffer[..], r, end, noted, chunks)
    ensures Rejection(config, buffer != null, bufferSize, terminator.Some?, terminatorSize, handle != null).None? ==>
      && EndsSince(old(handle.readLane.protocol), handle.readLane.protocol, frame, end)
      && old(port.waits) <= port.waits && BoundedWaits(port.waits[|old(port.waits)|..], config.value, bufferSize)
  {
    r, end, noted, chunks, frame, made := Count(0), ByError, [], 0, 0, [];
    if config.None? || !AcceptsTimeout(config.value) {
      r := Fail(kSetTimeoutError);
      return;
    }
    if buffer == null || bufferSize <= 0 {
      r := Fail(kBufferError);
      return;
    }
    if terminatorSize > 0 && terminator.None? {
      r := Fail(kBufferError);
      return;
    }
    if handle == null {
      r := Fail(kInvalidHandleError);
      return;
    }
    ghost var waits := port.waits;
    var bytes := if terminator.Some? then terminator.value else [];
    var size := if terminator.Some? then terminatorSize else 0;
    r, end, noted, chunks, frame, made :=
      ReadLoop(handle, port, callbacks, buffer, bufferSize, config.value, bytes, size);
    ReturnTells(Read, old(handle.readLane.protocol), handle.readLane.protocol, frame, end, Sum(noted), r);
    BudgetTotal(port.waits[|waits|..], config.value, chunks, bufferSize);
    ReadIsPromised(Request(port.stream, bufferSize, TerminatorOf(bytes, size), config.value, callbacks.onRead),
                   old(Now(handle, port, callbacks, buffer, bufferSize)),
                   Now(handle, port, callbacks, buffer, bufferSize), buffer[..], r, end, noted, chunks);
  }

  /** serialRead: a non-negative return r is the next r bytes of the stream, all of them counted, and
      exactly those have left the device unless a chunk call made meanwhile has timed out. */
  method SerialRead(handle: HandleState?, port: SerialPort, callbacks: IoCallbacks, buffer: array?<byte>,
                    bufferSize: int32, config: Option<TimeoutConfig>)
    returns (r: Return, ghost noted: seq<nat>, ghost made: seq<OsCall>)
    requires port.Valid() && (handle != null ==> handle.Ready(Read)) && (buffer != null ==> bufferSize <= buffer.Length)
    modifies (if handle != null then {handle} else {})`bytesReadTotal
    modifies (if handle != null then {handle} else {})`readNotes
    modifies if handle != null then {handle.readLane} else {}, buffer
    modifies callbacks`readReports, port`taken, port`wire, port`waits, port`calls
    ensures port.Valid() && (handle != null ==> handle.Ready(Read))
    ensures var config' := if config.Some? then config.value else TimeoutConfig(-1, -1);
      var accepted := 0 <= config'.timeoutMs && 0 <= config'.multiplier
        && config'.timeoutMs * config'.multiplier <= INT_MAX;
      && (!accepted ==> r == Fail(kSetTimeoutError))
      && (accepted && (buffer == null || bufferSize <= 0) ==> r == Fail(kBufferError))
      && (accepted && buffer != null && 0 < bufferSize && handle == null ==> r == Fail(kInvalidHandleError))
      && (accepted && buffer != null && 0 < bufferSize && handle != null ==>
            r.Count? || r.code in {kReadError, kAbortReadError, kGetStateError})
      && (!accepted || buffer == null || bufferSize <= 0 || handle == null ==>
            unchanged(port) && unchanged(callbacks) && (buffer != null ==> unchanged(buffer))
            && (handle != null ==> unchanged(handle) && unchanged(handle.readLane)))
    ensures port.calls == old(port.calls) + made && (QueueFailed(made) <==> r == Fail(kGetStateError))
    ensures handle != null ==> Remembers(old(handle.readLane.protocol), handle.readLane.protocol)
    ensures handle != null ==>
      var before, now := old(handle.readLane.protocol), handle.readLane.protocol;
      && (AbortedSince(before, now) <==> r == Fail(kAbortReadError))
      && (FailedSince(before, now) <==> r == Fail(kReadError))
      && (TimedOutSince(before, now) ==> r.Count?)
    ensures port.wire == old(port.wire) && Promised(Past(Read, r), noted)
    ensures if handle == null || buffer == null then noted == []
      else
        && handle.bytesReadTotal == old(handle.bytesReadTotal) + Sum(noted)
        && handle.readNotes == old(handle.readNotes) + noted
        && InOrder(port.stream, old(port.taken), port.taken, buffer[..], noted)
        && (0 <= bufferSize ==> buffer[bufferSize..] == old(buffer[bufferSize..]))
    ensures r.Count? ==>
      && handle != null && buffer != null && r.bytes <= bufferSize && !old(handle.readLane.abort)
      && old(port.taken) + r.bytes <= port.taken
      && buffer[..r.bytes] == port.stream[old(port.taken)..old(port.taken) + r.bytes]
      && (port.taken == old(port.taken) + r.bytes
          || TimedOutSince(old(handle.readLane.protocol), handle.readLane.protocol))
  {
    ghost var end, chunks, frame;
    r, end, noted, chunks, frame, made := ReadImpl(handle, port, callbacks, buffer, bufferSize, config, None, 0);
  }

  /** serialReadUntilSequence: one byte a turn, up to the first match. */
  method SerialReadUntilSequence(handle: HandleState?, port: SerialPort, callbacks: IoCallbacks, buffer: array?<byte>,
                                 bufferSize: int32, config: Option<TimeoutConfig>, sequence: Option<seq<byte>>,
                                 sequenceSize: int32)
    returns (r: Return, ghost noted: seq<nat>, ghost made: seq<OsCall>, ghost found: bool)
    requires port.Valid() && (handle != null ==> handle.Ready(Read)) && (buffer != null ==> bufferSize <= buffer.Length)
    requires sequence.Some? ==> sequenceSize <= |sequence.value|
    modifies (if handle != null then {handle} else {})`bytesReadTotal
    modifies (if handle != null then {handle} else {})`readNotes
    modifies if handle != null then {handle.readLane} else {}, buffer
    modifies callbacks`readReports, port`taken, port`wire, port`waits, port`calls
    ensures port.Valid() && (handle != null ==> handle.Ready(Read))
    ensures var config' := if config.Some? then config.value else TimeoutConfig(-1, -1);
      var accepted := 0 <= config'.timeoutMs && 0 <= config'.multiplier
        && config'.timeoutMs * config'.multiplier <= INT_MAX;
      var hasSequence := sequence.Some? && 0 < sequenceSize;
      && (!hasSequence ==> r == Fail(kBufferError))
      && (hasSequence && !accepted ==> r == Fail(kSetTimeoutError))
      && (hasSequence && accepted && (buffer == null || bufferSize <= 0) ==> r == Fail(kBufferError))
      && (hasSequence && accepted && buffer != null && 0 < bufferSize && handle == null ==>
            r == Fail(kInvalidHandleError))
      && (hasSequence && accepted && buffer != null && 0 < bufferSize && handle != null ==>
            r.Count? || r.code in {kReadError, kAbortReadError})
      && (!hasSequence || !accepted || buffer == null || bufferSize <= 0 || handle == null ==>
            unchanged(port) && unchanged(callbacks) && (buffer != null ==> unchanged(buffer))
            && (handle != null ==> unchanged(handle) && unchanged(handle.readLane)))
    ensures port.calls == old(port.calls) + made && (QueueFailed(made) <==> r == Fail(kGetStateError))
    ensures handle != null ==> Remembers(old(handle.readLane.protocol), handle.readLane.protocol)
    ensures handle != null ==>
      var before, now := old(handle.readLane.protocol), handle.readLane.protocol;
      && (AbortedSince(before, now) <==> r == Fail(kAbortReadError))
      && (FailedSince(before, now) <==> r == Fail(kReadError))
      && (TimedOutSince(before, now) ==> r.Count?)
    ensures port.wire == old(port.wire) && Promised(Past(Read, r), noted)
    ensures if handle == null || buffer == null then noted == []
      else
        && handle.bytesReadTotal == old(handle.bytesReadTotal) + Sum(noted)
        && handle.readNotes == old(handle.readNotes) + noted
        && InOrder(port.stream, old(port.taken), port.taken, buffer[..], noted)
        && (0 <= bufferSize ==> buffer[bufferSize..] == old(buffer[bufferSize..]))
    ensures sequence.None? || sequenceSize <= 0 ==> r == Fail(kBufferError) && unchanged(port)
    ensures r.Count? ==>
      && handle != null && buffer != null && sequence.Some? && 0 < sequenceSize && r.bytes <= bufferSize
      && ReadsToFirst(port.stream[old(port.taken)..], sequence.value[..sequenceSize], buffer[..r.bytes],
                      port.taken - old(port.taken), found)
      && (port.taken == old(port.taken) + r.bytes
          || TimedOutSince(old(handle.readLane.protocol), handle.readLane.protocol))
  {
    found, noted, made := false, [], [];
    if sequence.None? || sequenceSize <= 0 {
      r := Fail(kBufferError);
      return;
    }
    ghost var end, chunks, frame;
    r, end, noted, chunks, frame, made := ReadImpl(handle, port, callbacks, buffer, bufferSize, config, sequence,
                                             sequenceSize);
    found := end == ByMatch;
    if r.Count? {
      ghost var c := Request(port.stream, bufferSize, sequence.value[..sequenceSize], config.value, callbacks.onRead);
      ReadFindsFirstMatch(c, old(Now(handle, port, callbacks, buffer, bufferSize)),
                          Now(handle, port, callbacks, buffer, bufferSize), buffer[..], r, end, noted, chunks);
    }
  }
}