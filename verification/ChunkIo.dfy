/** The code of one chunk call, step by step, on the mutable HandleState: startPendingIo,
    waitForPendingIo, finishPendingIo, requestAbort, readChunk and writeChunk. One operation per
    direction; abort requests of other threads strike between any two sections. Every section is
    also a run of PendingIo, so everything proved there holds of these calls; all interleavings of
    many operations are the subject of that module. */
module ChunkIo {
  import opened Options
  import opened PendingIo
  import opened Directions
  import opened ChunkSections
  import Outcomes

  newtype byte = x: int | 0 <= x < 256

  const ERROR_IO_PENDING: nat := 997

  /** One OVERLAPPED, and the frame of the protocol it stands for. */
  class Overlapped {
    var kernel: Kernel
    ghost const id: Fid

    constructor (ghost id: Fid)
      ensures kernel == NotIssued && this.id == id
    {
      kernel := NotIssued;
      this.id := id;
    }
  }

  /** A call to the system and what it answered: an event to wait on, ReadFile or WriteFile on a stretch of
      the buffer, a wait, or how much is waiting in the driver's queue. */
  datatype OsCall =
    | EventMade
    | EventRefused(error: nat)
    | Started(op: Operation, start: nat, size: nat, choice: Choice)
    | Waited(timeoutMs: int, wait: WaitEnd)
    | QueueAnswer(waiting: Option<nat>)

  /** The device behind the handle: everything it will ever receive, how much of that the driver
      has handed out, what has been put on the wire, every wait that was requested, and every call to the
      system with its answer. */
  class SerialPort {
    const stream: seq<byte>
    var taken: nat
    var wire: seq<byte>
    var waits: seq<int>
    var calls: seq<OsCall>

    ghost predicate Valid()
      reads this
    {
      taken <= |stream|
    }

    constructor (stream: seq<byte>)
      ensures Valid() && this.stream == stream && taken == 0 && wire == [] && waits == [] && calls == []
    {
      this.stream, taken, wire, waits, calls := stream, 0, [], [], [];
    }

    /** The driver moves some bytes, at most `size`, between the line and `buffer[start..]`. */
    method Transfer(op: Operation, buffer: array<byte>, start: nat, size: nat) returns (moved: nat)
      requires Valid() && start + size <= buffer.Length
      modifies this`taken, this`wire, if op.Read? then {buffer} else {}
      ensures Valid() && moved <= size
      ensures Delivered(op, buffer[..], start, moved, taken, wire, old(buffer[..]), old(taken), old(wire))
    {
      moved :| 0 <= moved <= size && (op.Read? ==> taken + moved <= |stream|);
      if op.Write? {
        wire := wire + buffer[start..start + moved];
        return;
      }
      var i := 0;
      while i < moved
        invariant 0 <= i <= moved
        invariant taken == old(taken) && wire == old(wire)
        invariant forall k :: start <= k < start + i ==> buffer[k] == stream[taken + k - start]
        invariant forall k :: 0 <= k < start || start + i <= k < buffer.Length ==> buffer[k] == old(buffer[k])
      {
        buffer[start + i] := stream[taken + i];
        i := i + 1;
      }
      assert buffer[..] == old(buffer[..start]) + stream[taken..taken + moved] + old(buffer[start + moved..]);
      taken := taken + moved;
    }

    /** CreateEventW. */
    method CreateEvent() returns (refused: Option<nat>)
      modifies this`calls
      ensures calls == old(calls) + [if refused.None? then EventMade else EventRefused(refused.value)]
    {
      var fails: bool, error: nat := *, *;
      refused := if fails then Some(error) else None;
      calls := calls + [if refused.None? then EventMade else EventRefused(refused.value)];
    }

    /** WaitForSingleObject. */
    method WaitForObject(timeoutMs: int) returns (wait: WaitEnd)
      modifies this`waits, this`calls
      ensures wait.EventSignalled? || wait.TimeUp? || wait.WaitBroke?
      ensures waits == old(waits) + [timeoutMs] && calls == old(calls) + [Waited(timeoutMs, wait)]
    {
      var signalled: bool, timedOut: bool, error: nat := *, *, *;
      wait := if signalled then EventSignalled else if timedOut then TimeUp else WaitBroke(error);
      waits, calls := waits + [timeoutMs], calls + [Waited(timeoutMs, wait)];
    }

    /** ClearCommError, for the number of bytes in the driver's queue. */
    method BytesWaiting() returns (waiting: Option<nat>)
      modifies this`calls
      ensures calls == old(calls) + [QueueAnswer(waiting)]
    {
      var known: bool, bytes: nat := *, *;
      waiting := if known then Some(bytes) else None;
      calls := calls + [QueueAnswer(waiting)];
    }

    /** ReadFile or WriteFile on an overlapped handle: it completes at once, fails, or is pending. */
    method StartOperation(op: Operation, overlapped: Overlapped, buffer: array<byte>, start: nat, size: nat)
      returns (r: PendingIoStart)
      requires Valid() && start + size <= buffer.Length
      modifies overlapped, this`taken, this`wire, this`calls, if op.Read? then {buffer} else {}
      ensures Valid() && !r.aborted && r.transferred <= size
      ensures overlapped.kernel == IssuedAs(ChoiceOf(r))(BLANK_FRAME).kernel
      ensures calls == old(calls) + [Started(op, start, size, ChoiceOf(r))]
      ensures !r.completed ==> r.transferred == 0
      ensures Delivered(op, buffer[..], start, r.transferred, taken, wire, old(buffer[..]), old(taken), old(wire))
      ensures !r.completed ==> buffer[..] == old(buffer[..]) && taken == old(taken) && wire == old(wire)
    {
      var completed: bool, error: nat := *, *;
      if completed {
        var transferred := Transfer(op, buffer, start, size);
        overlapped.kernel := Done(Completed(transferred));
        r := PendingIoStart(true, 0, false, transferred);
        calls := calls + [Started(op, start, size, ChoiceOf(r))];
        return;
      }
      NothingDelivered(op, buffer[..], start);
      overlapped.kernel := if error != ERROR_IO_PENDING then Done(Failed(error)) else Issued(false);
      r := PendingIoStart(false, error, false, 0);
      calls := calls + [Started(op, start, size, ChoiceOf(r))];
    }

    lemma NothingDelivered(op: Operation, buffer: seq<byte>, start: nat)
      requires Valid() && start <= |buffer|
      ensures Delivered(op, buffer, start, 0, taken, wire, buffer, taken, wire)
    {
      assert buffer[..start] + stream[taken..taken] + buffer[start + 0..] == buffer;
      assert wire + buffer[start..start + 0] == wire;
    }

    /** Reading moves the next `moved` stream bytes to `buffer[start..]` and leaves the rest of the
        buffer; writing appends `buffer[start..start + moved]` to the wire. */
    ghost predicate Delivered(op: Operation, buffer': seq<byte>, start: nat, moved: nat, taken': nat, wire': seq<byte>,
                              buffer: seq<byte>, taken: nat, wire: seq<byte>)
      requires start + moved <= |buffer|
    {
      match op
      case Read =>
        && taken' == taken + moved <= |stream| && wire' == wire
        && buffer' == buffer[..start] + stream[taken..taken'] + buffer[start + moved..]
      case Write => taken' == taken && buffer' == buffer && wire' == wire + buffer[start..start + moved]
    }
  }

  datatype IoOutcome = kCompleted | kTimedOut | kAborted | kError
  datatype IoResult = IoResult(outcome: IoOutcome, bytesTransferred: nat, error: nat)
  datatype PendingIoStart = PendingIoStart(completed: bool, error: nat, aborted: bool, transferred: nat)

  const BLANK_FRAME := Frame(New, NotIssued, false, false, false, NoWait)

  /** What the operation run by startPendingIo chose. */
  function ChoiceOf(r: PendingIoStart): Choice {
    if r.completed then CompleteNow(r.transferred) else if r.error != ERROR_IO_PENDING then FailNow(r.error) else Go
  }

  /** The protocol's name for what a chunk call reports. */
  function OutcomeOf(r: IoResult): Outcome {
    match r.outcome
    case kCompleted => Transferred(r.bytesTransferred)
    case kTimedOut => TimedOut
    case kAborted => Aborted
    case kError => Error(r.error)
  }

  datatype WaitResult = WAIT_OBJECT_0 | WAIT_TIMEOUT | WAIT_FAILED

  /** The fields of one direction agree with protocol state `p`, which is reachable and between two
      sections: `late` are the requests that have stored the flag and not yet taken the mutex,
      `kernel` is the kernel's view of the OVERLAPPED in the slot. */
  ghost predicate Shadow(flag: bool, late: set<Aid>, slot: Option<Fid>, kernel: Kernel, nextId: nat, p: Io) {
    && Reachable(p) && p.lock.Free? && p.flag == flag && p.slot == slot
    && (slot.Some? ==> slot.value in p.frames && p.frames[slot.value].kernel == kernel)
    && (forall f :: f in p.frames ==> f < nextId)
    && (forall a :: a in p.aborters ==> a < nextId)
    && (forall a :: a in late ==> a in p.aborters && p.aborters[a].Stored?)
  }

  /** Nothing of the past is lost: every request and every call stays, a returned call with its outcome. */
  ghost predicate Remembers(p: Io, p': Io) {
    && p.aborters.Keys <= p'.aborters.Keys
    && (forall f :: f in p.frames ==>
          f in p'.frames && (p.frames[f].pc.Returned? ==> p'.frames[f].pc == p.frames[f].pc))
  }

  /** The same, and no call begins. */
  ghost predicate Continues(p: Io, p': Io) {
    Remembers(p, p') && p'.frames.Keys == p.frames.Keys
  }

  /** Other threads' steps leave every frame where it is, whatever they do to its I/O. */
  ghost predicate PcsKept(p: Io, p': Io) {
    && p.aborters.Keys <= p'.aborters.Keys && p'.frames.Keys == p.frames.Keys
    && forall f :: f in p.frames ==>
         && p'.frames[f].pc == p.frames[f].pc
         && p'.frames[f].wait == p.frames[f].wait
  }

  /** What a returned chunk call must report, told from what has happened to it. */
  predicate Due(fr: Frame, r: IoResult) {
    if fr.sawAbort then r.outcome == kAborted
    else
      match fr.wait
      case TimeUp => r.outcome == kTimedOut
      case WaitBroke(error) => r.outcome == kError && r.error == error
      case NoEvent(error) => r.outcome == kError && r.error == error
      case _ =>
        fr.kernel.Done? && match fr.kernel.result {
          case Completed(bytes) => r.outcome == kCompleted && r.bytesTransferred == bytes
          case Cancelled(_) => r.outcome == kAborted
          case Failed(error) => r.outcome == kError && r.error == error
        }
  }

  /** What ReadFile or WriteFile answered at once is what the call reports, unless it is aborted. */
  predicate Answers(choice: Choice, sawAbort: bool, r: IoResult) {
    if sawAbort then r.outcome == kAborted
    else
      && (choice.CompleteNow? ==> r.outcome == kCompleted && r.bytesTransferred == choice.bytes)
      && (choice.FailNow? ==> r.outcome == kError && r.error == choice.error)
  }

  /** After the start: one wait of the given timeout, ending as the frame remembers, or none. */
  predicate Concluded(made: seq<OsCall>, choice: Choice, timeoutMs: int, fr: Frame, r: IoResult) {
    if choice.Go? then made == [Waited(timeoutMs, fr.wait)] else made == [] && Answers(choice, fr.sawAbort, r)
  }

  /** From startPendingIo on: nothing is started for a call that finds the flag set; otherwise ReadFile or
      WriteFile on exactly the given stretch of the buffer. */
  predicate Answered(made: seq<OsCall>, op: Operation, start: nat, size: nat, timeoutMs: int, fr: Frame, r: IoResult) {
    if made == [] then fr.sawAbort
    else
      && made[0].Started? && made[0] == Started(op, start, size, made[0].choice)
      && Concluded(made[1..], made[0].choice, timeoutMs, fr, r)
  }

  /** The calls one chunk call makes to the system, and that it does what their answers say. */
  predicate AsAnswered(made: seq<OsCall>, op: Operation, start: nat, size: nat, timeoutMs: int, fr: Frame,
                       r: IoResult)
  {
    && made != []
    && match made[0] {
      case EventRefused(error) => made == [EventRefused(error)] && fr.wait == NoEvent(error)
      case EventMade => Answered(made[1..], op, start, size, timeoutMs, fr, r)
      case _ => false
    }
  }

  lemma JoinCalls(before: seq<OsCall>, call: OsCall, more: seq<OsCall>)
    ensures before + [call] + more == before + ([call] + more) && before + [] == before
  {
  }

  lemma AnsweredFrom(made: seq<OsCall>, more: seq<OsCall>, op: Operation, start: nat, size: nat, timeoutMs: int,
                     started: PendingIoStart, fr: Frame, r: IoResult)
    requires if started.aborted then more == [] && fr.sawAbort else Concluded(more, ChoiceOf(started), timeoutMs, fr, r)
    requires made == if started.aborted then [] else [Started(op, start, size, ChoiceOf(started))] + more
    ensures Answered(made, op, start, size, timeoutMs, fr, r)
  {
    if !started.aborted {
      assert made[1..] == more;
    }
  }

  lemma AsAnsweredFrom(made: seq<OsCall>, more: seq<OsCall>, op: Operation, start: nat, size: nat, timeoutMs: int,
                       fr: Frame, r: IoResult)
    requires Answered(more, op, start, size, timeoutMs, fr, r) && made == [EventMade] + more
    ensures AsAnswered(made, op, start, size, timeoutMs, fr, r)
  {
    assert made[1..] == more;
  }

  lemma ReportIsDue(p: Io, f: Fid, r: IoResult)
    requires Reachable(p) && f in p.frames && p.frames[f].pc == Returned(OutcomeOf(r))
    ensures Due(p.frames[f], r)
  {
    var acts :| IsRun(INITIALLY, acts) && Reach(INITIALLY, acts) == p;
    Outcomes.OutcomeIsDue(acts, f);
  }

  lemma ShadowStore(flag: bool, late: set<Aid>, slot: Option<Fid>, kernel: Kernel, nextId: nat, p: Io)
    requires Shadow(flag, late, slot, kernel, nextId, p)
    ensures Possible(p, Store(nextId)) && PcsKept(p, After(p, Store(nextId)))
    ensures Shadow(true, late + {nextId}, slot, kernel, nextId + 1, After(p, Store(nextId)))
    ensures After(p, Store(nextId)).aborters.Keys == p.aborters.Keys + {nextId} && nextId !in p.aborters
  {
    Then(p, Store(nextId));
  }

  lemma ShadowCancel(flag: bool, late: set<Aid>, slot: Option<Fid>, kernel: Kernel, nextId: nat, p: Io, request: Aid)
    requires Shadow(flag, late, slot, kernel, nextId, p) && request in late
    ensures PcsKept(p, CancelledBy(p, request))
    ensures Shadow(flag, late - {request}, slot, CancelIo(kernel), nextId, CancelledBy(p, request))
  {
    CancelSection(p, request);
  }

  function AfterFinish(p: Io, f: Fid): Io
    requires f in p.frames && p.frames[f].pc.NeedFinish?
  {
    Put(p, f, p.frames[f].(pc := Returned(Decide(p.frames[f].pc.tail, p.flag)), sawAbort := p.flag), false,
        if p.slot == Some(f) then None else p.slot, Free)
  }

  lemma ShadowFinish(flag: bool, late: set<Aid>, slot: Option<Fid>, kernel: Kernel, nextId: nat, p: Io, f: Fid)
    requires Shadow(flag, late, slot, kernel, nextId, p) && f in p.frames && p.frames[f].pc.NeedFinish?
    ensures Shadow(false, late, if slot == Some(f) then None else slot, if slot == Some(f) then NotIssued else kernel,
                   nextId, AfterFinish(p, f))
    ensures Continues(p, AfterFinish(p, f))
  {
    FinishSection(p, f);
  }

  lemma ShadowBegin(flag: bool, late: set<Aid>, slot: Option<Fid>, kernel: Kernel, nextId: nat, p: Io)
    requires Shadow(flag, late, slot, kernel, nextId, p)
    ensures Possible(p, Begin(nextId))
    ensures Shadow(flag, late, slot, kernel, nextId + 1, After(p, Begin(nextId)))
    ensures After(p, Begin(nextId)).frames[nextId].pc == New
    ensures Remembers(p, After(p, Begin(nextId))) && nextId !in p.frames
    ensures After(p, Begin(nextId)).frames.Keys == p.frames.Keys + {nextId}
  {
    Then(p, Begin(nextId));
  }

  function AfterNoEvent(p: Io, f: Fid, error: nat): Io
    requires f in p.frames && p.frames[f].pc.New?
  {
    After(p, FrameStep(f, FailNow(error)))
  }

  lemma ShadowNoEvent(flag: bool, late: set<Aid>, slot: Option<Fid>, kernel: Kernel, nextId: nat, p: Io, f: Fid,
                      error: nat)
    requires Shadow(flag, late, slot, kernel, nextId, p) && f in p.frames && p.frames[f].pc.New?
    ensures Shadow(flag, late, slot, kernel, nextId, AfterNoEvent(p, f, error))
    ensures AfterNoEvent(p, f, error).frames[f].pc == Returned(Error(error))
    ensures Continues(p, AfterNoEvent(p, f, error))
  {
    Then(p, FrameStep(f, FailNow(error)));
  }

  function AfterStartAborted(p: Io, f: Fid): Io
    requires f in p.frames
  {
    Put(p, f, p.frames[f].(pc := Returned(Aborted), sawAbort := true), false, p.slot, Free)
  }

  lemma ShadowStartAborted(late: set<Aid>, slot: Option<Fid>, kernel: Kernel, nextId: nat, p: Io, f: Fid)
    requires Shadow(true, late, slot, kernel, nextId, p) && f in p.frames && p.frames[f].pc.New?
    ensures Shadow(false, late, slot, kernel, nextId, AfterStartAborted(p, f))
    ensures Continues(p, AfterStartAborted(p, f))
  {
    StartMeetsAbort(p, f);
  }

  function AfterStart(p: Io, f: Fid, choice: Choice): Io
    requires f in p.frames
  {
    Put(p, f, IssuedAs(choice)(p.frames[f].(sawAbort := false)), false, Some(f), Free)
  }

  lemma ShadowStart(late: set<Aid>, slot: Option<Fid>, kernel: Kernel, nextId: nat, p: Io, f: Fid, choice: Choice)
    requires Shadow(false, late, slot, kernel, nextId, p) && f in p.frames && p.frames[f].pc.New? && !choice.TimeOut?
    ensures Shadow(false, late, Some(f), IssuedAs(choice)(p.frames[f]).kernel, nextId, AfterStart(p, f, choice))
    ensures Continues(p, AfterStart(p, f, choice))
  {
    StartSection(p, f, choice);
  }

  lemma ShadowKernel(flag: bool, late: set<Aid>, kernel: Kernel, nextId: nat, p: Io, f: Fid, result: KernelResult)
    requires Shadow(flag, late, Some(f), kernel, nextId, p) && kernel.Issued?
    requires result.Cancelled? ==> kernel.cancelled
    requires result.Failed? ==> result.error != ERROR_OPERATION_ABORTED
    ensures Possible(p, KernelStep(f, result)) && PcsKept(p, After(p, KernelStep(f, result)))
    ensures Shadow(flag, late, Some(f), Done(result), nextId, After(p, KernelStep(f, result)))
  {
    Then(p, KernelStep(f, result));
  }

  function GiveUpTail(choice: Choice): Tail
    requires choice.TimeOut? || choice.FailNow?
  {
    if choice.TimeOut? then DrainedTimeout else DrainedFailure(choice.error)
  }

  function AfterGiveUp(p: Io, f: Fid, choice: Choice): Io
    requires f in p.frames && (choice.TimeOut? || choice.FailNow?)
  {
    var fr := p.frames[f];
    Put(p, f, GaveUp(fr, GiveUpTail(choice), choice), p.flag, p.slot, p.lock)
  }

  lemma ShadowGiveUp(flag: bool, late: set<Aid>, kernel: Kernel, nextId: nat, p: Io, f: Fid, choice: Choice)
    requires Shadow(flag, late, Some(f), kernel, nextId, p) && p.frames[f].pc.Waiting?
      && (choice.TimeOut? || choice.FailNow?)
    ensures Shadow(flag, late, Some(f), CancelIo(kernel), nextId, AfterGiveUp(p, f, choice))
    ensures Continues(p, AfterGiveUp(p, f, choice))
  {
    GiveUp(p, f, choice);
  }

  function AfterWait(p: Io, f: Fid): Io
    requires f in p.frames && p.frames[f].kernel.Done? && (p.frames[f].pc.Waiting? || p.frames[f].pc.Draining?)
  {
    var fr := p.frames[f];
    var tail := if fr.pc.Waiting? then Signalled(fr.kernel.result) else fr.pc.tail;
    Put(p, f, fr.(pc := NeedFinish(tail), wait := if fr.pc.Waiting? then EventSignalled else fr.wait), p.flag, p.slot,
        p.lock)
  }

  lemma ShadowWait(flag: bool, late: set<Aid>, kernel: Kernel, nextId: nat, p: Io, f: Fid)
    requires Shadow(flag, late, Some(f), kernel, nextId, p) && kernel.Done?
      && (p.frames[f].pc.Waiting? || p.frames[f].pc.Draining?)
    ensures Shadow(flag, late, Some(f), kernel, nextId, AfterWait(p, f))
    ensures Continues(p, AfterWait(p, f))
  {
    WaitEnds(p, f);
  }

  /** The part of HandleState that abortFlag(state, operation) and pendingOperation(state, operation)
      select for one direction. */
  class Lane {
    var abort: bool
    var pending: Overlapped?
    /** The other threads: abort requests that have stored the flag and not yet taken the mutex. */
    var late: set<Aid>
    var nextId: nat
    ghost var protocol: Io

    constructor ()
      ensures Valid() && !abort && pending == null && protocol == INITIALLY
    {
      abort, pending, late, nextId, protocol := false, null, {}, 0, INITIALLY;
      new;
      assert Reach(INITIALLY, []) == INITIALLY;
    }

    ghost predicate Valid()
      reads this, pending
    {
      Shadow(abort, late, Slot(), SlotKernel(), nextId, protocol)
    }

    ghost function Slot(): Option<Fid>
      reads this
    {
      if pending == null then None else Some(pending.id)
    }

    ghost function SlotKernel(): Kernel
      reads this, pending
    {
      if pending == null then NotIssued else pending.kernel
    }

    /** The lock-free half of requestAbort. */
    method StoreAbort() returns (request: Aid)
      requires Valid()
      modifies this
      ensures late == old(late) + {request}
      ensures protocol.aborters.Keys == old(protocol).aborters.Keys + {request} && request !in old(protocol).aborters
      ensures Valid() && PcsKept(old(protocol), protocol)
      ensures abort && pending == old(pending) && request in late
    {
      request := nextId;
      ShadowStore(abort, late, Slot(), SlotKernel(), nextId, protocol);
      abort, late, nextId := true, late + {request}, nextId + 1;
      protocol := After(protocol, Store(request));
    }

    /** The locked half of requestAbort: CancelIoEx on whatever is in the slot by now. */
    method CancelPending(request: Aid)
      requires Valid() && request in late
      modifies this, pending
      ensures late == old(late) - {request} && protocol.aborters.Keys == old(protocol).aborters.Keys
      ensures Valid() && PcsKept(old(protocol), protocol)
      ensures abort == old(abort) && pending == old(pending)
      ensures pending != null ==> pending.kernel == CancelIo(old(pending.kernel))
    {
      ShadowCancel(abort, late, Slot(), SlotKernel(), nextId, protocol, request);
      if pending != null {
        pending.kernel := CancelIo(pending.kernel);
      }
      late := late - {request};
      protocol := CancelledBy(protocol, request);
    }

    /** After a request the flag is set, and an I/O published by then has had CancelIoEx issued. */
    method RequestAbort()
      requires Valid()
      modifies this, pending
      ensures Valid() && PcsKept(old(protocol), protocol)
      ensures abort && pending == old(pending)
      ensures pending != null ==> pending.kernel == CancelIo(old(pending.kernel))
    {
      var request := StoreAbort();
      CancelPending(request);
    }

    /** Any number of abort requests of other threads, each at its store or at its locked cancel. */
    method Meanwhile()
      requires Valid()
      modifies this, pending
      ensures Valid() && PcsKept(old(protocol), protocol)
      ensures (old(abort) ==> abort) && pending == old(pending)
      ensures pending != null ==>
        pending.kernel == old(pending.kernel) || pending.kernel == CancelIo(old(pending.kernel))
    {
      var steps: nat := *;
      while steps > 0
        invariant Valid() && PcsKept(old(protocol), protocol)
        invariant (old(abort) ==> abort) && pending == old(pending)
        invariant pending != null ==>
          pending.kernel == old(pending.kernel) || pending.kernel == CancelIo(old(pending.kernel))
      {
        var store: bool := *;
        if store || late == {} {
          var _ := StoreAbort();
        } else {
          var request :| request in late;
          CancelPending(request);
        }
        steps := steps - 1;
      }
    }

    /** finishPendingIo: leave the slot unless somebody else's frame is in it, consume the abort. */
    method FinishPendingIo(overlapped: Overlapped) returns (aborted: bool)
      requires Valid() && overlapped.id in protocol.frames && protocol.frames[overlapped.id].pc.NeedFinish?
      requires pending == null || pending == overlapped || pending.id != overlapped.id
      modifies this
      ensures Continues(old(protocol), protocol)
      ensures Valid() && pending == if old(pending) == overlapped then null else old(pending)
      ensures aborted == old(abort) && !abort
      ensures overlapped.id in protocol.frames
      ensures var before := old(protocol).frames[overlapped.id];
        protocol.frames[overlapped.id] == before.(pc := Returned(Decide(before.pc.tail, aborted)), sawAbort := aborted)
    {
      ShadowFinish(abort, late, Slot(), SlotKernel(), nextId, protocol, overlapped.id);
      protocol := AfterFinish(protocol, overlapped.id);
      if pending == overlapped {
        pending := null;
      }
      aborted := abort;
      abort := false;
    }

    /** CreateEventW, the zeroed OVERLAPPED, and the frame they make up. */
    method NewOverlapped() returns (overlapped: Overlapped)
      requires Valid()
      modifies this
      ensures overlapped.id !in old(protocol).frames
      ensures Remembers(old(protocol), protocol)
      ensures protocol.frames.Keys == old(protocol).frames.Keys + {overlapped.id}
      ensures Valid() && abort == old(abort) && pending == old(pending)
      ensures fresh(overlapped) && overlapped.kernel == NotIssued
      ensures overlapped.id in protocol.frames && protocol.frames[overlapped.id].pc.New?
      ensures Slot() != Some(overlapped.id)
    {
      overlapped := new Overlapped(nextId);
      ShadowBegin(abort, late, Slot(), SlotKernel(), nextId, protocol);
      protocol := After(protocol, Begin(nextId));
      nextId := nextId + 1;
    }

    /** The operation part of startPendingIo, the flag being clear: publish, then issue. */
    method PublishAndIssue(op: Operation, overlapped: Overlapped, port: SerialPort, buffer: array<byte>, start: nat,
                           size: nat)
      returns (r: PendingIoStart)
      requires Valid() && !abort && port.Valid() && start + size <= buffer.Length
      requires overlapped.id in protocol.frames && protocol.frames[overlapped.id].pc.New?
        && Slot() != Some(overlapped.id)
      modifies this, overlapped, port`taken, port`wire, port`calls, if op.Read? then {buffer} else {}
      ensures Continues(old(protocol), protocol)
      ensures Valid() && port.Valid() && !abort && pending == overlapped && !r.aborted && r.transferred <= size
      ensures overlapped.id in protocol.frames
        && protocol.frames[overlapped.id].pc == IssuedAs(ChoiceOf(r))(BLANK_FRAME).pc
      ensures port.calls == old(port.calls) + [Started(op, start, size, ChoiceOf(r))]
      ensures overlapped.kernel == IssuedAs(ChoiceOf(r))(BLANK_FRAME).kernel
      ensures port.Delivered(op, buffer[..], start, r.transferred, port.taken, port.wire,
                             old(buffer[..]), old(port.taken), old(port.wire))
      ensures !r.completed ==>
        && r.transferred == 0 && buffer[..] == old(buffer[..])
        && port.taken == old(port.taken) && port.wire == old(port.wire)
    {
      ghost var slot, kernel := Slot(), SlotKernel();
      pending := overlapped;
      r := port.StartOperation(op, overlapped, buffer, start, size);
      RecordStart(overlapped, ChoiceOf(r), slot, kernel);
    }

    ghost method RecordStart(overlapped: Overlapped, choice: Choice, slot: Option<Fid>, kernel: Kernel)
      requires Shadow(abort, late, slot, kernel, nextId, protocol) && !abort && pending == overlapped
      requires overlapped.id in protocol.frames && protocol.frames[overlapped.id].pc.New? && !choice.TimeOut?
      requires overlapped.kernel == IssuedAs(choice)(BLANK_FRAME).kernel
      modifies this`protocol
      ensures Valid() && Continues(old(protocol), protocol)
      ensures overlapped.id in protocol.frames
        && protocol.frames[overlapped.id].pc == IssuedAs(choice)(BLANK_FRAME).pc
    {
      ShadowStart(late, slot, kernel, nextId, protocol, overlapped.id, choice);
      protocol := AfterStart(protocol, overlapped.id, choice);
    }

    /** startPendingIo, with ReadFile or WriteFile as the operation it runs under the mutex. */
    method StartPendingIo(op: Operation, overlapped: Overlapped, port: SerialPort, buffer: array<byte>, start: nat,
                          size: nat)
      returns (r: PendingIoStart)
      requires Valid() && port.Valid() && start + size <= buffer.Length
      requires overlapped.id in protocol.frames && protocol.frames[overlapped.id].pc.New?
        && Slot() != Some(overlapped.id)
      modifies this, overlapped, port`taken, port`wire, port`calls, if op.Read? then {buffer} else {}
      ensures Continues(old(protocol), protocol)
      ensures Valid() && port.Valid() && !abort && r.transferred <= size
      ensures r.aborted == old(abort) && overlapped.id in protocol.frames
      ensures pending == if r.aborted then old(pending) else overlapped
      ensures protocol.frames[overlapped.id].pc ==
        if r.aborted then Returned(Aborted) else IssuedAs(ChoiceOf(r))(BLANK_FRAME).pc
      ensures !r.aborted ==> overlapped.kernel == IssuedAs(ChoiceOf(r))(BLANK_FRAME).kernel
      ensures r.aborted || !r.completed ==> r.transferred == 0
      ensures port.calls ==
        if r.aborted then old(port.calls) else old(port.calls) + [Started(op, start, size, ChoiceOf(r))]
      ensures r.aborted ==> !r.completed && protocol.frames[overlapped.id].sawAbort
      ensures port.Delivered(op, buffer[..], start, r.transferred, port.taken, port.wire,
                             old(buffer[..]), old(port.taken), old(port.wire))
      ensures r.aborted || !r.completed ==>
        buffer[..] == old(buffer[..]) && port.taken == old(port.taken) && port.wire == old(port.wire)
    {
      if abort {
        ShadowStartAborted(late, Slot(), SlotKernel(), nextId, protocol, overlapped.id);
        abort, protocol := false, AfterStartAborted(protocol, overlapped.id);
        port.NothingDelivered(op, buffer[..], start);
        return PendingIoStart(false, 0, true, 0);
      }
      r := PublishAndIssue(op, overlapped, port, buffer, start, size);
    }

    /** The kernel ends the I/O in the slot: completed, cancelled if it was asked to, or failed. */
    method KernelEnds(op: Operation, port: SerialPort, buffer: array<byte>, start: nat, size: nat) returns (moved: nat)
      requires Valid() && port.Valid() && start + size <= buffer.Length
      requires pending != null && pending.kernel.Issued?
      modifies this, pending, port`taken, port`wire, if op.Read? then {buffer} else {}
      ensures Valid() && port.Valid() && moved <= size && PcsKept(old(protocol), protocol)
      ensures abort == old(abort) && pending == old(pending) && pending.kernel.Done?
      ensures pending.kernel.result.Completed? || pending.kernel.result.Cancelled? ==>
        pending.kernel.result.bytes == moved
      ensures pending.kernel.result.Failed? ==> pending.kernel.result.error != ERROR_OPERATION_ABORTED
      ensures port.Delivered(op, buffer[..], start, moved, port.taken, port.wire,
                             old(buffer[..]), old(port.taken), old(port.wire))
    {
      moved := port.Transfer(op, buffer, start, size);
      var result: KernelResult := *;
      if result.Completed? || (result.Cancelled? && !pending.kernel.cancelled)
        || (result.Failed? && result.error == ERROR_OPERATION_ABORTED) {
        result := Completed(moved);
      } else if result.Cancelled? {
        result := Cancelled(moved);
      }
      ShadowKernel(abort, late, SlotKernel(), nextId, protocol, pending.id, result);
      protocol := After(protocol, KernelStep(pending.id, result));
      pending.kernel := Done(result);
    }

    /** CancelIoEx on the own OVERLAPPED, then whatever other threads do. */
    method CancelOwn(ghost choice: Choice)
      requires Valid() && (choice.TimeOut? || choice.FailNow?)
      requires pending != null && pending.id in protocol.frames && protocol.frames[pending.id].pc.Waiting?
      modifies this, pending
      ensures Valid() && Continues(old(protocol), protocol)
      ensures (old(abort) ==> abort) && pending == old(pending)
      ensures pending.kernel == CancelIo(old(pending.kernel))
      ensures pending.id in protocol.frames && protocol.frames[pending.id].pc == Draining(GiveUpTail(choice))
      ensures protocol.frames[pending.id].wait == GivenUp(choice)
    {
      ShadowGiveUp(abort, late, SlotKernel(), nextId, protocol, pending.id, choice);
      protocol := AfterGiveUp(protocol, pending.id, choice);
      pending.kernel := CancelIo(pending.kernel);
      Meanwhile();
    }

    ghost method WaitEnded()
      requires Valid() && pending != null && pending.id in protocol.frames && pending.kernel.Done?
      requires protocol.frames[pending.id].pc.Waiting? || protocol.frames[pending.id].pc.Draining?
      modifies this`protocol
      ensures Valid() && Continues(old(protocol), protocol) && pending.id in protocol.frames
      ensures protocol.frames[pending.id].pc ==
        var pc := old(protocol).frames[pending.id].pc;
        NeedFinish(if pc.Waiting? then Signalled(pending.kernel.result) else pc.tail)
      ensures protocol.frames[pending.id].wait ==
        if old(protocol).frames[pending.id].pc.Waiting? then EventSignalled else old(protocol).frames[pending.id].wait
      ensures protocol.frames[pending.id].kernel == pending.kernel
    {
      ShadowWait(abort, late, SlotKernel(), nextId, protocol, pending.id);
      protocol := AfterWait(protocol, pending.id);
    }

    /** CancelIoEx on the own OVERLAPPED after a failed or timed-out wait, then
        GetOverlappedResult(TRUE): only when the kernel is done does the call go on. The kernel may
        end the I/O before the cancel or after it. */
    method CancelAndDrain(op: Operation, port: SerialPort, buffer: array<byte>, start: nat, size: nat,
                          ghost choice: Choice)
      returns (moved: nat)
      requires Valid() && port.Valid() && start + size <= buffer.Length && (choice.TimeOut? || choice.FailNow?)
      requires pending != null && pending.id in protocol.frames && protocol.frames[pending.id].pc.Waiting?
      requires pending.kernel.Issued?
      modifies this, pending, port`taken, port`wire, if op.Read? then {buffer} else {}
      ensures Continues(old(protocol), protocol)
      ensures Valid() && port.Valid() && moved <= size
      ensures (old(abort) ==> abort) && pending == old(pending) && pending.kernel.Done?
      ensures pending.id in protocol.frames && protocol.frames[pending.id].pc == NeedFinish(GiveUpTail(choice))
      ensures protocol.frames[pending.id].wait == GivenUp(choice)
      ensures port.Delivered(op, buffer[..], start, moved, port.taken, port.wire,
                             old(buffer[..]), old(port.taken), old(port.wire))
    {
      var early: bool := *;
      if early {
        moved := KernelEnds(op, port, buffer, start, size);
        CancelOwn(choice);
      } else {
        CancelOwn(choice);
        moved := KernelEnds(op, port, buffer, start, size);
      }
      WaitEnded();
    }

    /** The wait ends because the kernel signalled the event. */
    method SignalledWait(op: Operation, overlapped: Overlapped, port: SerialPort, buffer: array<byte>, start: nat,
                         size: nat)
      returns (r: IoResult, moved: nat)
      requires Valid() && port.Valid() && start + size <= buffer.Length
      requires pending == overlapped && overlapped.id in protocol.frames && protocol.frames[overlapped.id].pc.Waiting?
      requires overlapped.kernel.Issued?
      modifies this, overlapped, port`taken, port`wire, if op.Read? then {buffer} else {}
      ensures Continues(old(protocol), protocol)
      ensures Valid() && port.Valid() && pending == null && !abort
      ensures old(abort) ==> r.outcome == kAborted
      ensures moved <= size && (r.outcome == kCompleted ==> r.bytesTransferred == moved)
      ensures port.Delivered(op, buffer[..], start, moved, port.taken, port.wire,
                             old(buffer[..]), old(port.taken), old(port.wire))
      ensures overlapped.id in protocol.frames && protocol.frames[overlapped.id].pc == Returned(OutcomeOf(r))
      ensures Due(protocol.frames[overlapped.id], r) && protocol.frames[overlapped.id].wait == EventSignalled
    {
      moved := KernelEnds(op, port, buffer, start, size);
      r := Collect(overlapped);
    }

    /** The wait timed out or failed. */
    method AbandonedWait(op: Operation, overlapped: Overlapped, port: SerialPort, buffer: array<byte>, start: nat,
                         size: nat, timedOut: bool, error: nat)
      returns (r: IoResult, moved: nat)
      requires Valid() && port.Valid() && start + size <= buffer.Length
      requires pending == overlapped && overlapped.id in protocol.frames && protocol.frames[overlapped.id].pc.Waiting?
      requires overlapped.kernel.Issued?
      modifies this, overlapped, port`taken, port`wire, if op.Read? then {buffer} else {}
      ensures Continues(old(protocol), protocol)
      ensures Valid() && port.Valid() && pending == null && !abort
      ensures old(abort) ==> r.outcome == kAborted
      ensures r.outcome == kAborted || r.outcome == (if timedOut then kTimedOut else kError)
      ensures moved <= size
      ensures port.Delivered(op, buffer[..], start, moved, port.taken, port.wire,
                             old(buffer[..]), old(port.taken), old(port.wire))
      ensures overlapped.id in protocol.frames && protocol.frames[overlapped.id].pc == Returned(OutcomeOf(r))
      ensures Due(protocol.frames[overlapped.id], r)
      ensures protocol.frames[overlapped.id].wait == if timedOut then TimeUp else WaitBroke(error)
    {
      ghost var choice := if timedOut then TimeOut else FailNow(error);
      moved := CancelAndDrain(op, port, buffer, start, size, choice);
      var aborted := FinishPendingIo(overlapped);
      assert protocol.frames[overlapped.id].pc == Returned(Decide(GiveUpTail(choice), aborted));
      r := if aborted then IoResult(kAborted, 0, 0)
        else if timedOut then IoResult(kTimedOut, 0, 0)
        else IoResult(kError, 0, error);
      ReportIsDue(protocol, overlapped.id, r);
    }

    /** waitForPendingIo. Bytes moved by an I/O that times out or is aborted are not reported. */
    method WaitForPendingIo(op: Operation, overlapped: Overlapped, port: SerialPort, buffer: array<byte>, start: nat,
                            size: nat, timeoutMs: int)
      returns (r: IoResult, moved: nat)
      requires Valid() && port.Valid() && start + size <= buffer.Length
      requires pending == overlapped && overlapped.id in protocol.frames && protocol.frames[overlapped.id].pc.Waiting?
      requires overlapped.kernel.Issued?
      modifies this, overlapped, port`taken, port`wire, port`waits, port`calls, if op.Read? then {buffer} else {}
      ensures Continues(old(protocol), protocol)
      ensures Valid() && port.Valid() && pending == null && !abort
      ensures old(abort) ==> r.outcome == kAborted
      ensures moved <= size && (r.outcome == kCompleted ==> r.bytesTransferred == moved)
      ensures port.Delivered(op, buffer[..], start, moved, port.taken, port.wire,
                             old(buffer[..]), old(port.taken), old(port.wire))
      ensures port.waits == old(port.waits) + [timeoutMs]
      ensures overlapped.id in protocol.frames && protocol.frames[overlapped.id].pc == Returned(OutcomeOf(r))
      ensures Due(protocol.frames[overlapped.id], r)
      ensures port.calls == old(port.calls) + [Waited(timeoutMs, protocol.frames[overlapped.id].wait)]
    {
      var wait := port.WaitForObject(timeoutMs);
      Meanwhile();
      if wait.EventSignalled? {
        r, moved := SignalledWait(op, overlapped, port, buffer, start, size);
      } else {
        var error := if wait.WaitBroke? then wait.error else 0;
        r, moved := AbandonedWait(op, overlapped, port, buffer, start, size, wait.TimeUp?, error);
      }
    }

    /** The wait has ended by the event; other threads go on meanwhile. */
    method SignalSeen()
      requires Valid() && pending != null && pending.id in protocol.frames
      requires protocol.frames[pending.id].pc.Waiting? && pending.kernel.Done?
      modifies this, pending
      ensures Valid() && Continues(old(protocol), protocol)
      ensures (old(abort) ==> abort) && pending == old(pending) && pending.kernel == old(pending.kernel)
      ensures pending.id in protocol.frames
      ensures var fr := protocol.frames[pending.id];
        && fr.pc == NeedFinish(Signalled(pending.kernel.result))
        && fr.wait == EventSignalled && fr.kernel == pending.kernel
    {
      Meanwhile();
      WaitEnded();
    }

    /** The signalled branch: GetOverlappedResult(FALSE), finishPendingIo, the final outcome. */
    method Collect(overlapped: Overlapped) returns (r: IoResult)
      requires Valid() && pending == overlapped && overlapped.id in protocol.frames
      requires protocol.frames[overlapped.id].pc.Waiting? && overlapped.kernel.Done?
      requires overlapped.kernel.result.Failed? ==> overlapped.kernel.result.error != ERROR_OPERATION_ABORTED
      modifies this, overlapped
      ensures Continues(old(protocol), protocol)
      ensures overlapped.kernel == old(overlapped.kernel)
      ensures Valid() && pending == null && !abort
      ensures old(abort) ==> r.outcome == kAborted
      ensures r.outcome == kCompleted ==>
        overlapped.kernel.result.Completed? && r.bytesTransferred == overlapped.kernel.result.bytes
      ensures overlapped.id in protocol.frames && protocol.frames[overlapped.id].pc == Returned(OutcomeOf(r))
      ensures Due(protocol.frames[overlapped.id], r) && protocol.frames[overlapped.id].wait == EventSignalled
      ensures protocol.frames[overlapped.id].kernel == overlapped.kernel
    {
      var result := overlapped.kernel.result;
      SignalSeen();
      var completed := result.Completed?;
      var error :=
        if result.Completed? then 0 else if result.Cancelled? then ERROR_OPERATION_ABORTED else result.error;
      var aborted := FinishPendingIo(overlapped);
      r := if aborted || error == ERROR_OPERATION_ABORTED then IoResult(kAborted, 0, 0)
        else if !completed then IoResult(kError, 0, error)
        else IoResult(kCompleted, result.bytes, 0);
      ReportIsDue(protocol, overlapped.id, r);
    }

    /** ReadFile or WriteFile has ended at once: finishPendingIo and the outcome. */
    method FinishAtOnce(overlapped: Overlapped, started: PendingIoStart) returns (r: IoResult)
      requires Valid() && pending == overlapped && overlapped.id in protocol.frames
      requires protocol.frames[overlapped.id].pc == IssuedAs(ChoiceOf(started))(BLANK_FRAME).pc
      requires started.completed || started.error != ERROR_IO_PENDING
      modifies this, overlapped
      ensures Continues(old(protocol), protocol)
      ensures Valid() && pending == null
      ensures r.outcome == kCompleted ==> started.completed && r.bytesTransferred == started.transferred
      ensures overlapped.id in protocol.frames && protocol.frames[overlapped.id].pc == Returned(OutcomeOf(r))
      ensures Answers(ChoiceOf(started), protocol.frames[overlapped.id].sawAbort, r)
    {
      Meanwhile();
      var aborted := FinishPendingIo(overlapped);
      if started.completed {
        return IoResult(if aborted then kAborted else kCompleted, started.transferred, 0);
      }
      return IoResult(if aborted then kAborted else kError, 0, started.error);
    }

    /** A chunk call after startPendingIo: it was aborted, has ended at once, or is waited for. */
    method Conclude(op: Operation, overlapped: Overlapped, started: PendingIoStart, port: SerialPort,
                    buffer: array<byte>, start: nat, size: nat, timeoutMs: int,
                    ghost before: seq<byte>, ghost taken: nat, ghost wire: seq<byte>)
      returns (r: IoResult, moved: nat, ghost made: seq<OsCall>)
      requires Valid() && port.Valid() && start + size <= buffer.Length == |before|
      requires overlapped.id in protocol.frames && started.transferred <= size
      requires if started.aborted then
          pending == null && !started.completed
          && protocol.frames[overlapped.id].sawAbort && protocol.frames[overlapped.id].pc == Returned(Aborted)
        else
          pending == overlapped && overlapped.kernel == IssuedAs(ChoiceOf(started))(BLANK_FRAME).kernel
          && protocol.frames[overlapped.id].pc == IssuedAs(ChoiceOf(started))(BLANK_FRAME).pc
      requires port.Delivered(op, buffer[..], start, started.transferred, port.taken, port.wire, before, taken, wire)
      requires !started.completed ==>
        started.transferred == 0 && buffer[..] == before && port.taken == taken && port.wire == wire
      modifies this, overlapped, port`taken, port`wire, port`waits, port`calls, if op.Read? then {buffer} else {}
      ensures Continues(old(protocol), protocol)
      ensures Valid() && pending == null && port.Valid()
      ensures moved <= size && (r.outcome == kCompleted ==> r.bytesTransferred == moved)
      ensures port.Delivered(op, buffer[..], start, moved, port.taken, port.wire, before, taken, wire)
      ensures port.waits == old(port.waits) || port.waits == old(port.waits) + [timeoutMs]
      ensures port.calls == old(port.calls) + made && overlapped.id in protocol.frames
      ensures if started.aborted then made == [] && protocol.frames[overlapped.id].sawAbort
        else Concluded(made, ChoiceOf(started), timeoutMs, protocol.frames[overlapped.id], r)
      ensures started.aborted ==> r.outcome == kAborted && moved == 0
      ensures protocol.frames[overlapped.id].pc == Returned(OutcomeOf(r))
    {
      if started.aborted {
        return IoResult(kAborted, 0, 0), 0, [];
      }
      if started.completed || started.error != ERROR_IO_PENDING {
        r := FinishAtOnce(overlapped, started);
        return r, started.transferred, [];
      }
      r, moved := WaitForPendingIo(op, overlapped, port, buffer, start, size, timeoutMs);
      made := [Waited(timeoutMs, protocol.frames[overlapped.id].wait)];
    }

    /** A chunk call from startPendingIo on. */
    method RunFrame(op: Operation, overlapped: Overlapped, port: SerialPort, buffer: array<byte>, start: nat, size: nat,
                    timeoutMs: int)
      returns (r: IoResult, moved: nat, ghost made: seq<OsCall>)
      requires Valid() && pending == null && port.Valid() && start + size <= buffer.Length
      requires overlapped.id in protocol.frames && protocol.frames[overlapped.id].pc.New?
      modifies this, overlapped, port`taken, port`wire, port`waits, port`calls, if op.Read? then {buffer} else {}
      ensures Continues(old(protocol), protocol)
      ensures Valid() && pending == null && port.Valid()
      ensures port.calls == old(port.calls) + made && overlapped.id in protocol.frames
      ensures Answered(made, op, start, size, timeoutMs, protocol.frames[overlapped.id], r)
      ensures moved <= size && (r.outcome == kCompleted ==> r.bytesTransferred == moved)
      ensures port.Delivered(op, buffer[..], start, moved, port.taken, port.wire,
                             old(buffer[..]), old(port.taken), old(port.wire))
      ensures old(abort) ==> r.outcome == kAborted && moved == 0
      ensures port.waits == old(port.waits) || port.waits == old(port.waits) + [timeoutMs]
      ensures overlapped.id in protocol.frames && protocol.frames[overlapped.id].pc == Returned(OutcomeOf(r))
    {
      ghost var waits, calls := port.waits, port.calls;
      var started := StartPendingIo(op, overlapped, port, buffer, start, size);
      assert port.waits == waits;
      ghost var more;
      r, moved, more := Conclude(op, overlapped, started, port, buffer, start, size, timeoutMs,
                                 old(buffer[..]), old(port.taken), old(port.wire));
      made := if started.aborted then [] else [Started(op, start, size, ChoiceOf(started))] + more;
      AnsweredFrom(made, more, op, start, size, timeoutMs, started, protocol.frames[overlapped.id], r);
      JoinCalls(calls, Started(op, start, size, ChoiceOf(started)), more);
    }

    /** A chunk call once its OVERLAPPED is set up: CreateEventW, and on. */
    method RunChunk(op: Operation, overlapped: Overlapped, port: SerialPort, buffer: array<byte>, start: nat, size: nat,
                    timeoutMs: int)
      returns (r: IoResult, moved: nat, ghost made: seq<OsCall>)
      requires Valid() && pending == null && port.Valid() && start + size <= buffer.Length
      requires overlapped.id in protocol.frames && protocol.frames[overlapped.id].pc.New?
      modifies this, overlapped, port`taken, port`wire, port`waits, port`calls, if op.Read? then {buffer} else {}
      ensures Continues(old(protocol), protocol)
      ensures Valid() && pending == null && port.Valid()
      ensures moved <= size && (r.outcome == kCompleted ==> r.bytesTransferred == moved)
      ensures port.Delivered(op, buffer[..], start, moved, port.taken, port.wire,
                             old(buffer[..]), old(port.taken), old(port.wire))
      ensures old(abort) ==> (r.outcome == kAborted || r.outcome == kError) && moved == 0
      ensures port.waits == old(port.waits) || port.waits == old(port.waits) + [timeoutMs]
      ensures port.calls == old(port.calls) + made && overlapped.id in protocol.frames
      ensures AsAnswered(made, op, start, size, timeoutMs, protocol.frames[overlapped.id], r)
      ensures protocol.frames[overlapped.id].pc == Returned(OutcomeOf(r))
    {
      var refused := port.CreateEvent();
      if refused.None? {
        ghost var more;
        r, moved, more := RunFrame(op, overlapped, port, buffer, start, size, timeoutMs);
        made := [EventMade] + more;
        AsAnsweredFrom(made, more, op, start, size, timeoutMs, protocol.frames[overlapped.id], r);
      } else {
        port.NothingDelivered(op, buffer[..], start);
        NoEvent(overlapped, refused.value);
        r, moved, made := IoResult(kError, 0, refused.value), 0, [EventRefused(refused.value)];
      }
    }

    /** readChunk and writeChunk: the life of one OVERLAPPED frame. */
    method Chunk(op: Operation, port: SerialPort, buffer: array<byte>, start: nat, size: nat, timeoutMs: int)
      returns (r: IoResult, moved: nat, ghost frame: Fid, ghost made: seq<OsCall>)
      requires Valid() && pending == null && port.Valid() && start + size <= buffer.Length
      modifies this, port`taken, port`wire, port`waits, port`calls, if op.Read? then {buffer} else {}
      ensures frame !in old(protocol).frames
      ensures Remembers(old(protocol), protocol)
      ensures protocol.frames.Keys == old(protocol).frames.Keys + {frame}
      ensures Valid() && pending == null && port.Valid()
      ensures moved <= size && (r.outcome == kCompleted ==> r.bytesTransferred == moved)
      ensures port.Delivered(op, buffer[..], start, moved, port.taken, port.wire,
                             old(buffer[..]), old(port.taken), old(port.wire))
      ensures old(abort) ==> (r.outcome == kAborted || r.outcome == kError) && moved == 0
      ensures port.waits == old(port.waits) || port.waits == old(port.waits) + [timeoutMs]
      ensures frame in protocol.frames && Due(protocol.frames[frame], r)
      ensures port.calls == old(port.calls) + made
      ensures AsAnswered(made, op, start, size, timeoutMs, protocol.frames[frame], r)
      ensures frame in protocol.frames && protocol.frames[frame].pc == Returned(OutcomeOf(r))
    {
      var overlapped := NewOverlapped();
      frame := overlapped.id;
      Meanwhile();
      r, moved, made := RunChunk(op, overlapped, port, buffer, start, size, timeoutMs);
      ReportIsDue(protocol, frame, r);
    }

    ghost method NoEvent(overlapped: Overlapped, error: nat)
      requires Valid() && overlapped.id in protocol.frames && protocol.frames[overlapped.id].pc.New?
      modifies this`protocol
      ensures Continues(old(protocol), protocol)
      ensures Valid() && overlapped.id in protocol.frames && protocol.frames[overlapped.id].pc == Returned(Error(error))
      ensures protocol.frames[overlapped.id].wait == WaitEnd.NoEvent(error)
    {
      ShadowNoEvent(abort, late, Slot(), SlotKernel(), nextId, protocol, overlapped.id, error);
      protocol := AfterNoEvent(protocol, overlapped.id, error);
    }
  }
}
