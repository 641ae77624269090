/** A handle with both directions: two flags, two slots, one mutex (handle_types.hpp:42-51,
    abort_flag.hpp, pending_operation.hpp). Each direction, looked at alone, runs the protocol of
    PendingIo; the other one is visible only as somebody else holding the mutex. */
module Directions {
  import opened Options
  import opened PendingIo

  datatype Operation = Read | Write

  datatype SharedLock = Unlocked | HeldByFrame(op: Operation, f: Fid) | HeldByAborter(op: Operation, a: Aid)

  datatype Handle = Handle(
    abortRead: bool, abortWrite: bool,
    pendingRead: Option<Fid>, pendingWrite: Option<Fid>,
    mutex: SharedLock,
    readCalls: map<Fid, Frame>, writeCalls: map<Fid, Frame>,
    readAborts: map<Aid, Aborter>, writeAborts: map<Aid, Aborter>)

  const OPENED := Handle(false, false, None, None, Unlocked, map[], map[], map[], map[])

  function AbortFlag(h: Handle, op: Operation): bool {
    if op.Read? then h.abortRead else h.abortWrite
  }

  function PendingOperation(h: Handle, op: Operation): Option<Fid> {
    if op.Read? then h.pendingRead else h.pendingWrite
  }

  function Frames(h: Handle, op: Operation): map<Fid, Frame> {
    if op.Read? then h.readCalls else h.writeCalls
  }

  function Aborts(h: Handle, op: Operation): map<Aid, Aborter> {
    if op.Read? then h.readAborts else h.writeAborts
  }

  function LockSeenFrom(m: SharedLock, op: Operation): Lock {
    match m
    case Unlocked => Free
    case HeldByFrame(o, f) => if o == op then ByFrame(f) else Elsewhere
    case HeldByAborter(o, a) => if o == op then ByAborter(a) else Elsewhere
  }

  function Side(h: Handle, op: Operation): Io {
    Io(AbortFlag(h, op), PendingOperation(h, op), LockSeenFrom(h.mutex, op), Frames(h, op), Aborts(h, op))
  }

  /** A step of one direction writes that direction's fields and the mutex, nothing else. */
  function WriteBack(h: Handle, op: Operation, io: Io): Handle {
    var mutex := match io.lock {
      case Free => Unlocked
      case ByFrame(f) => HeldByFrame(op, f)
      case ByAborter(a) => HeldByAborter(op, a)
      case Elsewhere => h.mutex
    };
    if op.Read?
    then h.(abortRead := io.flag, pendingRead := io.slot, mutex := mutex, readCalls := io.frames,
            readAborts := io.aborters)
    else h.(abortWrite := io.flag, pendingWrite := io.slot, mutex := mutex, writeCalls := io.frames,
            writeAborts := io.aborters)
  }

  datatype Move = Move(op: Operation, action: Action)

  predicate CanMove(h: Handle, m: Move) {
    !m.action.ElsewhereLock? && !m.action.ElsewhereUnlock? && Possible(Side(h, m.op), m.action)
  }

  function Moved(h: Handle, m: Move): Handle
    requires CanMove(h, m)
  {
    WriteBack(h, m.op, After(Side(h, m.op), m.action))
  }

  predicate IsMixedRun(h: Handle, moves: seq<Move>)
    decreases |moves|
  {
    moves == [] || (CanMove(h, moves[0]) && IsMixedRun(Moved(h, moves[0]), moves[1..]))
  }

  function ReachMixed(h: Handle, moves: seq<Move>): Handle
    requires IsMixedRun(h, moves)
    decreases |moves|
  {
    if moves == [] then h else ReachMixed(Moved(h, moves[0]), moves[1..])
  }

  /** What direction `op` notices of one move. */
  function Noticed(h: Handle, m: Move, op: Operation): seq<Action>
    requires CanMove(h, m)
  {
    if m.op == op then [m.action]
    else
      var before, after := LockSeenFrom(h.mutex, op), LockSeenFrom(Moved(h, m).mutex, op);
      if before == after then [] else if before.Free? then [ElsewhereLock] else [ElsewhereUnlock]
  }

  function Projected(h: Handle, moves: seq<Move>, op: Operation): seq<Action>
    requires IsMixedRun(h, moves)
    decreases |moves|
  {
    if moves == [] then [] else Noticed(h, moves[0], op) + Projected(Moved(h, moves[0]), moves[1..], op)
  }

  /** The lock of a well-formed side changes hands only between Free and an owner of that side. */
  lemma LockMovesOnItsOwnSide(s: Io, a: Action)
    requires Possible(s, a) && !a.ElsewhereLock? && !a.ElsewhereUnlock?
    requires a.FrameStep? ==> FrameOk(s, a.f)
    requires a.AbortLock? || a.AbortCancel? ==> AborterOk(s, a.a)
    ensures s.lock.Elsewhere? <==> After(s, a).lock.Elsewhere?
    ensures After(s, a).lock == s.lock || s.lock.Free? || After(s, a).lock.Free?
  {
  }

  /** Writing one side back: that side reads back as written, the other one is untouched but for
      the mutex, which it sees free or held elsewhere. */
  lemma WriteBackSides(h: Handle, op: Operation, io: Io, other: Operation)
    requires io.lock.Elsewhere? <==> LockSeenFrom(h.mutex, op).Elsewhere?
    requires other != op
    ensures Side(WriteBack(h, op, io), op) == io
    ensures var lock := if io.lock.Free? then Free
        else if io.lock.Elsewhere? then LockSeenFrom(h.mutex, other)
        else Elsewhere;
      Side(WriteBack(h, op, io), other) == Side(h, other).(lock := lock)
  {
  }

  lemma MoverLock(h: Handle, m: Move)
    requires CanMove(h, m) && Good(Side(h, m.op))
    ensures var before, after := Side(h, m.op).lock, After(Side(h, m.op), m.action).lock;
      && (before.Elsewhere? <==> after.Elsewhere?)
      && (after == before || before.Free? || after.Free?)
  {
    var s := Side(h, m.op);
    if m.action.FrameStep? {
      assert FrameOk(s, m.action.f);
    } else if m.action.AbortLock? || m.action.AbortCancel? {
      assert AborterOk(s, m.action.a);
    }
    LockMovesOnItsOwnSide(s, m.action);
  }

  lemma RunOfOne(s: Io, a: Action)
    requires Possible(s, a)
    ensures IsRun(s, [a]) && Reach(s, [a]) == After(s, a)
  {
    assert [a][1..] == [];
  }

  /** One move is, for each direction, the steps that direction notices: its own step, or nothing,
      or somebody else taking or releasing the mutex. All its own data stay as they were. */
  lemma MoveProjects(h: Handle, m: Move, op: Operation)
    requires CanMove(h, m) && Good(Side(h, m.op))
    ensures IsRun(Side(h, op), Noticed(h, m, op))
    ensures Reach(Side(h, op), Noticed(h, m, op)) == Side(Moved(h, m), op)
  {
    MoverLock(h, m);
    var io := After(Side(h, m.op), m.action);
    WriteBackSides(h, m.op, io, if m.op.Read? then Write else Read);
    if m.op == op {
      RunOfOne(Side(h, op), m.action);
    } else {
      OtherSideProjects(h, m, io, op);
    }
  }

  lemma OtherSideProjects(h: Handle, m: Move, io: Io, op: Operation)
    requires CanMove(h, m) && op != m.op && Moved(h, m) == WriteBack(h, m.op, io)
    requires Side(h, m.op).lock.Elsewhere? <==> io.lock.Elsewhere?
    requires io.lock == Side(h, m.op).lock || Side(h, m.op).lock.Free? || io.lock.Free?
    ensures IsRun(Side(h, op), Noticed(h, m, op))
    ensures Reach(Side(h, op), Noticed(h, m, op)) == Side(Moved(h, m), op)
  {
    WriteBackSides(h, m.op, io, op);
    var acts := Noticed(h, m, op);
    if acts != [] {
      RunOfOne(Side(h, op), acts[0]);
    }
  }

  lemma {:induction false} RunConcat(s: Io, first: seq<Action>, more: seq<Action>)
    requires IsRun(s, first) && IsRun(Reach(s, first), more)
    ensures IsRun(s, first + more) && Reach(s, first + more) == Reach(Reach(s, first), more)
    decreases |first|
  {
    if first == [] {
      assert first + more == more;
    } else {
      RunConcat(After(s, first[0]), first[1..], more);
      assert (first + more)[1..] == first[1..] + more;
    }
  }

  lemma {:induction false} RunProjectsFrom(h: Handle, moves: seq<Move>, op: Operation)
    requires IsMixedRun(h, moves) && Good(Side(h, Read)) && Good(Side(h, Write))
    ensures IsRun(Side(h, op), Projected(h, moves, op))
    ensures Reach(Side(h, op), Projected(h, moves, op)) == Side(ReachMixed(h, moves), op)
    decreases |moves|
  {
    if moves != [] {
      var m := moves[0];
      MoveProjects(h, m, op);
      MoveProjects(h, m, Read);
      MoveProjects(h, m, Write);
      RunKeepsGood(Side(h, Read), Noticed(h, m, Read));
      RunKeepsGood(Side(h, Write), Noticed(h, m, Write));
      RunProjectsFrom(Moved(h, m), moves[1..], op);
      RunConcat(Side(h, op), Noticed(h, m, op), Projected(Moved(h, m), moves[1..], op));
    }
  }

  /** Every mixed run of reads, writes and aborts, seen from one direction, is a run of the
      one-direction protocol, with the same outcomes. */
  lemma DirectionsAreIndependent(moves: seq<Move>, op: Operation)
    requires IsMixedRun(OPENED, moves)
    ensures IsRun(INITIALLY, Projected(OPENED, moves, op))
    ensures Reach(INITIALLY, Projected(OPENED, moves, op)) == Side(ReachMixed(OPENED, moves), op)
  {
    assert Side(OPENED, Read) == INITIALLY && Side(OPENED, Write) == INITIALLY;
    RunProjectsFrom(OPENED, moves, op);
  }

  /** Abort requests of one direction never abort an operation of the other: the aborted calls of a
      direction number at most twice that direction's own requests. */
  lemma AbortsStayInTheirDirection(moves: seq<Move>, op: Operation)
    requires IsMixedRun(OPENED, moves)
    ensures var h := ReachMixed(OPENED, moves);
      && |AbortedCalls(Side(h, op))| <= 2 * |Aborts(h, op)|
      && (Aborts(h, op) == map[] ==> forall f :: f in Frames(h, op) ==> Frames(h, op)[f].pc != Returned(Aborted))
  {
    DirectionsAreIndependent(moves, op);
    AbortsAreAccountedFor(Projected(OPENED, moves, op));
    var h := ReachMixed(OPENED, moves);
    forall f | f in Frames(h, op) && Frames(h, op)[f].pc == Returned(Aborted) ensures f in AbortedCalls(Side(h, op)) {
    }
  }
}
