/** One operation at a time, any number of `sbc run` wrappers, three non-blocking locks. */
module Startup {
  import opened Accounting

  type Pid = nat

  // --- locks ------------------------------------------------------------------------

  /** An advisory lock of the operating system: one exclusive holder, or any number of shared ones. */
  datatype Lock = Lock(exclusive: Option<Pid>, shared: set<Pid>)

  datatype Mode = Free | Shared | Exclusive

  const UNLOCKED := Lock(None, {})

  predicate CanShare(l: Lock) {
    l.exclusive.None?
  }

  predicate CanOwn(l: Lock) {
    l.exclusive.None? && l.shared == {}
  }

  function Release(l: Lock, p: Pid): Lock {
    Lock(if l.exclusive == Some(p) then None else l.exclusive, l.shared - {p})
  }

  /** A process leaves one mode and tries another without waiting. */
  predicate Takes(l: Lock, l': Lock, p: Pid, from: Mode, to: Mode) {
    if from == to then l' == l
    else
      var rest := Release(l, p);
      match to
      case Free => l' == rest
      case Shared => CanShare(rest) && l' == Lock(None, rest.shared + {p})
      case Exclusive => CanOwn(rest) && l' == Lock(Some(p), {})
  }

  function ModeOf(l: Lock, p: Pid): Mode {
    if l.exclusive == Some(p) then Exclusive else if p in l.shared then Shared else Free
  }

  // --- what a process is doing --------------------------------------------------------

  datatype Phase =
    | Absent
      // an operation: it owns the operation lock from Locked on
    | Locked
    | Guarded                  // startup is blocked, nothing is known about the engine or the files
    | RecoveryProbe            // probing the engine lock after asking the engine to stop, before anything is settled
    | RecoveryStopped
    | Settling                 // probing the engine lock, which was free
    | SettleBusy               // the engine lock was busy; asking whether the engine is ready
    | Quiet                    // may replace live files
    | Recorded                 // has saved a recovery record of the live files
    | Writing(many: bool)      // replaces one live file by a rename, or many
    | StopProbe                // probing the engine lock after asking the engine to stop
    | Stopped
    | Open                     // permission closed, not granted yet
    | Granting                 // startup is granted
    | GrantProbe               // probing the engine lease meanwhile
    | Revoked(started: bool)
    | Blocked(started: bool)   // startup is blocked again after a start
      // a wrapper that found no operation: it is one itself until it is cleared
    | OwnLocked
    | OwnGuarded
    | OwnLeased
    | OwnWriting               // restoring files from the recovery record
    | OwnRestored
    | OwnCleared
    | OwnUnbarred
      // a wrapper that found the operation lock busy
    | Turned
    | Leased                   // the grant is not tested yet
    | Testing                  // its shared probe succeeded, so nobody grants
    | Refused
      // the engine
    | Starting
    | Ready
      // anybody else who probes the engine lock
    | Observing

  datatype Hold = Hold(operation: Mode, engine: Mode, permission: Mode)

  function Held(phase: Phase): Hold {
    match phase
    case Absent | Turned => Hold(Free, Free, Free)
    case Locked | OwnLocked => Hold(Exclusive, Free, Free)
    case Guarded | RecoveryStopped | SettleBusy | Quiet | Recorded | Writing(_) | Stopped | Blocked(_) | OwnGuarded =>
      Hold(Exclusive, Free, Shared)
    case RecoveryProbe | Settling | StopProbe | OwnLeased | OwnWriting | OwnRestored | OwnCleared =>
      Hold(Exclusive, Exclusive, Shared)
    case Open | Revoked(_) => Hold(Exclusive, Free, Free)
    case Granting => Hold(Exclusive, Free, Exclusive)
    case GrantProbe => Hold(Exclusive, Exclusive, Exclusive)
    case OwnUnbarred => Hold(Exclusive, Exclusive, Free)
    case Testing => Hold(Free, Exclusive, Shared)
    case Leased | Refused | Starting | Ready | Observing => Hold(Free, Exclusive, Free)
  }

  /** Cleared to start an engine, and not answering yet. */
  predicate Authorized(phase: Phase) {
    phase == OwnCleared || phase == OwnUnbarred || phase == Starting
  }

  /** The operation knows that nobody is authorized. */
  predicate Calm(phase: Phase) {
    match phase
    case RecoveryStopped | Quiet | Recorded | Writing(_) | Stopped | Open => true
    case _ => false
  }

  datatype Files = Complete | Partial

  /** pending says whether there is a recovery record. */
  datatype Machine = Machine(operation: Lock, engine: Lock, permission: Lock, files: Files, pending: bool,
                             phases: map<Pid, Phase>)

  const IDLE := Machine(UNLOCKED, UNLOCKED, UNLOCKED, Complete, false, map[])

  function At(m: Machine, p: Pid): Phase {
    if p in m.phases then m.phases[p] else Absent
  }

  ghost predicate EngineReady(m: Machine) {
    exists p: Pid :: At(m, p) == Ready
  }

  // --- steps ----------------------------------------------------------------------------

  /** The order in which an operation goes through its phases. A command first recovers, then settles, and only then
      writes or starts; when a recovery or an upgrade is complete, it removes the record and may settle again. */
  predicate OperationMoves(a: Phase, b: Phase) {
    match a
    case Absent => b == Locked
    case Locked => b == Guarded
    case Guarded => b == RecoveryProbe || b == Settling || b == SettleBusy
    case RecoveryProbe => b == RecoveryStopped
    case RecoveryStopped => b == RecoveryProbe || b == Writing(true)
    case Settling => b == Quiet
    case SettleBusy => b == Quiet || b == Settling || b == SettleBusy
    case Quiet => b == Recorded || b.Writing? || b == StopProbe || b == Guarded
    case Recorded => b == Writing(true)
    case Writing(_) => b == Quiet
    case StopProbe => b == Stopped
    case Stopped => b == Open || b.Writing? || b == StopProbe
    case Open => b == Granting || b == Stopped
    case Granting => b == GrantProbe || b == Revoked(true) || b == Revoked(false)
    case GrantProbe => b == Granting
    case Revoked(started) => b == Blocked(started)
    case Blocked(_) => b == StopProbe || b == Guarded
    case _ => false
  }

  predicate WrapperMoves(a: Phase, b: Phase) {
    match a
    case Absent => b == OwnLocked || b == Turned || b == Observing
    case OwnLocked => b == OwnGuarded
    case OwnGuarded => b == OwnLeased
    case OwnLeased => b == OwnWriting || b == OwnCleared
    case OwnWriting => b == OwnRestored
    case OwnRestored => b == OwnCleared
    case OwnCleared => b == OwnUnbarred
    case OwnUnbarred => b == Starting
    case Turned => b == Leased
    case Leased => b == Testing || b == Starting
    case Testing => b == Refused
    case Starting => b == Ready
    case _ => false
  }

  /** The operation removes the recovery record. */
  predicate Finishes(a: Phase, b: Phase) {
    (b == Guarded && a != Locked) || (a == OwnRestored && b == OwnCleared)
  }

  /** What else a move waits for, beside the locks it takes. Whoever settles, or clears itself, found no recovery
      record; many files are replaced only under one, just made or found. */
  ghost predicate Guard(m: Machine, a: Phase, b: Phase) {
    && (a == Guarded && (b == Settling || b == SettleBusy) ==> !m.pending)
    && (b == SettleBusy ==> !CanOwn(m.engine))
    && (a == SettleBusy && b == Quiet ==> EngineReady(m))
    && (b == Recorded ==> !m.pending)
    && (b == Writing(true) && a != Recorded ==> m.pending)
    && (b == OwnWriting || Finishes(a, b) ==> m.pending)
    && (a == OwnLeased && b == OwnCleared ==> !m.pending)
    && (b == Revoked(true) ==> !CanOwn(m.engine) && EngineReady(m))
    && (b == Turned ==> !CanOwn(m.operation))
    && (a == Leased && b == Starting ==> !CanShare(m.permission))
  }

  /** Between the first and the last of many files they do not belong together. */
  function FilesAfter(m: Machine, a: Phase, b: Phase): Files {
    if b == Writing(true) || b == OwnWriting then Partial
    else if (a == Writing(true) && b == Quiet) || (a == OwnWriting && b == OwnRestored) then Complete
    else m.files
  }

  function PendingAfter(m: Machine, a: Phase, b: Phase): bool {
    if b == Recorded then true else if Finishes(a, b) then false else m.pending
  }

  /** One move of one process. A process may also die at any moment, and then the system frees its locks. */
  ghost predicate Moves(m: Machine, m': Machine, p: Pid, b: Phase) {
    var a := At(m, p);
    && (b == Absent || ((OperationMoves(a, b) || WrapperMoves(a, b)) && Guard(m, a, b)))
    && m'.phases == m.phases[p := b]
    && m'.files == FilesAfter(m, a, b)
    && m'.pending == PendingAfter(m, a, b)
    && Takes(m.operation, m'.operation, p, Held(a).operation, Held(b).operation)
    && Takes(m.engine, m'.engine, p, Held(a).engine, Held(b).engine)
    && Takes(m.permission, m'.permission, p, Held(a).permission, Held(b).permission)
  }

  datatype Move = Move(p: Pid, phase: Phase)

  ghost predicate MovesAt(states: seq<Machine>, moves: seq<Move>, i: nat)
    requires i < |moves| && |states| == |moves| + 1
  {
    Moves(states[i], states[i + 1], moves[i].p, moves[i].phase)
  }

  ghost predicate Run(states: seq<Machine>, moves: seq<Move>) {
    && |states| == |moves| + 1 && states[0] == IDLE
    && forall i :: 0 <= i < |moves| ==> MovesAt(states, moves, i)
  }

  // --- the invariant ------------------------------------------------------------------------

  predicate Exclusion(l: Lock) {
    l.exclusive.Some? ==> l.shared == {}
  }

  predicate Agrees(m: Machine, p: Pid) {
    && ModeOf(m.operation, p) == Held(At(m, p)).operation
    && ModeOf(m.engine, p) == Held(At(m, p)).engine
    && ModeOf(m.permission, p) == Held(At(m, p)).permission
  }

  ghost predicate LocksAgree(m: Machine) {
    && Exclusion(m.operation) && Exclusion(m.engine) && Exclusion(m.permission)
    && forall p: Pid :: Agrees(m, p)
  }

  predicate Grants(phase: Phase) {
    phase == Granting || phase == GrantProbe
  }

  /** The files belong together in these phases. */
  predicate Sound(phase: Phase) {
    match phase
    case Settling | SettleBusy | Quiet | Recorded | StopProbe | Stopped | Open | Granting | GrantProbe => true
    case Writing(many) => !many
    case Revoked(_) | Blocked(_) | OwnRestored | OwnCleared | OwnUnbarred | Starting => true
    case _ => false
  }

  predicate NotBoth(m: Machine, p: Pid, q: Pid) {
    Calm(At(m, p)) ==> !Authorized(At(m, q))
  }

  predicate HasFiles(m: Machine, p: Pid) {
    && (Sound(At(m, p)) ==> m.files == Complete)
    && (At(m, p) == Recorded ==> m.pending)
  }

  /** Between the first and the last of many files. */
  predicate Rewrites(phase: Phase) {
    phase == Writing(true) || phase == OwnWriting
  }

  ghost predicate Inv(m: Machine) {
    && LocksAgree(m)
    && (forall p: Pid :: Rewrites(At(m, p)) ==> m.files == Partial)
    && (m.files == Partial ==> m.pending)
    && (forall p: Pid, q: Pid :: NotBoth(m, p, q))
    && (forall p: Pid :: HasFiles(m, p))
  }

  lemma TakesAgrees(l: Lock, l': Lock, p: Pid, from: Mode, to: Mode, q: Pid)
    requires Takes(l, l', p, from, to) && Exclusion(l) && ModeOf(l, p) == from
    ensures Exclusion(l') && ModeOf(l', q) == if q == p then to else ModeOf(l, q)
  {
  }

  lemma MovesAgree(m: Machine, m': Machine, p: Pid, b: Phase)
    requires LocksAgree(m) && Moves(m, m', p, b)
    ensures LocksAgree(m')
  {
    forall q: Pid ensures Agrees(m', q) && Exclusion(m'.operation) && Exclusion(m'.engine) && Exclusion(m'.permission) {
      assert Agrees(m, p) && Agrees(m, q);
      var a := At(m, p);
      TakesAgrees(m.operation, m'.operation, p, Held(a).operation, Held(b).operation, q);
      TakesAgrees(m.engine, m'.engine, p, Held(a).engine, Held(b).engine, q);
      TakesAgrees(m.permission, m'.permission, p, Held(a).permission, Held(b).permission, q);
    }
  }

  /** Two processes never hold the same lock, one of them exclusively. */
  lemma Apart(m: Machine, p: Pid, q: Pid)
    requires LocksAgree(m) && p != q
    ensures Held(At(m, p)).operation == Exclusive ==> Held(At(m, q)).operation == Free
    ensures Held(At(m, p)).engine == Exclusive ==> Held(At(m, q)).engine == Free
    ensures Held(At(m, p)).permission == Exclusive ==> Held(At(m, q)).permission == Free
  {
    assert Agrees(m, p) && Agrees(m, q);
  }

  /** Becoming calm: the engine lock is one's own, or a ready engine holds it. */
  lemma NobodyAuthorized(m: Machine, p: Pid, q: Pid)
    requires LocksAgree(m)
    requires At(m, p) in {RecoveryProbe, Settling, StopProbe} || EngineReady(m)
    ensures !Authorized(At(m, q))
  {
    if EngineReady(m) {
      var r: Pid :| At(m, r) == Ready;
      if r != q {
        Apart(m, r, q);
      }
    } else if q != p {
      Apart(m, p, q);
    }
  }

  lemma GrantIsHeld(m: Machine, q: Pid)
    requires LocksAgree(m) && !CanShare(m.permission) && Held(At(m, q)).operation == Exclusive
    ensures m.permission.exclusive == Some(q) && Grants(At(m, q))
  {
    var r := m.permission.exclusive.value;
    assert Agrees(m, r);
    if r != q {
      Apart(m, r, q);
    }
  }

  /** Becoming authorized: a calm operation shares the permission, so no grant is there to be found. */
  lemma NobodyCalm(m: Machine, p: Pid, q: Pid)
    requires LocksAgree(m)
    requires (At(m, p) == Leased && !CanShare(m.permission)) || Held(At(m, p)).operation == Exclusive
    requires q != p
    ensures !Calm(At(m, q))
  {
    if Calm(At(m, q)) {
      Apart(m, q, p);
      if !CanShare(m.permission) {
        GrantIsHeld(m, q);
      }
    }
  }

  lemma CalmFrom(m: Machine, a: Phase, b: Phase)
    requires (OperationMoves(a, b) || WrapperMoves(a, b)) && Guard(m, a, b) && Calm(b)
    ensures Calm(a) || a in {RecoveryProbe, Settling, StopProbe} || (a == SettleBusy && EngineReady(m))
  {
  }

  lemma AuthorizedFrom(m: Machine, a: Phase, b: Phase)
    requires (OperationMoves(a, b) || WrapperMoves(a, b)) && Guard(m, a, b) && Authorized(b)
    ensures Authorized(a) || Held(a).operation == Exclusive || (a == Leased && !CanShare(m.permission))
  {
  }

  lemma CalmStaysAlone(m: Machine, m': Machine, p: Pid, b: Phase, q: Pid, r: Pid)
    requires LocksAgree(m) && NotBoth(m, q, r) && NotBoth(m, p, r) && NotBoth(m, q, p)
    requires Moves(m, m', p, b)
    ensures NotBoth(m', q, r)
  {
    if q == p && r != p && Calm(b) {
      CalmFrom(m, At(m, p), b);
      if !Calm(At(m, p)) {
        NobodyAuthorized(m, p, r);
      }
    } else if r == p && q != p && Authorized(b) {
      AuthorizedFrom(m, At(m, p), b);
      if !Authorized(At(m, p)) {
        NobodyCalm(m, p, q);
      }
    }
  }

  lemma GrantHasFiles(m: Machine)
    requires Inv(m) && !CanShare(m.permission)
    ensures Grants(At(m, m.permission.exclusive.value)) && m.files == Complete
  {
    assert Agrees(m, m.permission.exclusive.value) && HasFiles(m, m.permission.exclusive.value);
  }

  predicate StartsWriting(b: Phase) {
    b.Writing? || b == OwnWriting
  }

  /** Files change only in the hands of a process that keeps everybody else from needing them. */
  lemma WriterIsAlone(m: Machine, p: Pid, b: Phase, q: Pid)
    requires Inv(m) && q != p && StartsWriting(b) && (OperationMoves(At(m, p), b) || WrapperMoves(At(m, p), b))
    ensures !Sound(At(m, q))
  {
    assert NotBoth(m, p, q);
    Apart(m, p, q);
  }

  lemma OperationSoundFrom(m: Machine, a: Phase, b: Phase)
    requires OperationMoves(a, b) && Guard(m, a, b) && Sound(b)
    ensures b != Writing(true)
    ensures Sound(a) || FilesAfter(m, a, b) == Complete || !m.pending
  {
  }

  lemma WrapperSoundFrom(m: Machine, a: Phase, b: Phase)
    requires WrapperMoves(a, b) && Guard(m, a, b) && Sound(b)
    ensures b != OwnWriting
    ensures Sound(a) || FilesAfter(m, a, b) == Complete || !m.pending || (a == Leased && !CanShare(m.permission))
  {
  }

  lemma SoundFrom(m: Machine, a: Phase, b: Phase)
    requires (OperationMoves(a, b) || WrapperMoves(a, b)) && Guard(m, a, b) && Sound(b)
    ensures b != Writing(true) && b != OwnWriting
    ensures Sound(a) || FilesAfter(m, a, b) == Complete || !m.pending || (a == Leased && !CanShare(m.permission))
  {
    if OperationMoves(a, b) {
      OperationSoundFrom(m, a, b);
    } else {
      WrapperSoundFrom(m, a, b);
    }
  }

  lemma FilesStayComplete(m: Machine, m': Machine, p: Pid, b: Phase, q: Pid)
    requires Inv(m) && Moves(m, m', p, b) && Sound(At(m', q))
    ensures m'.files == Complete
  {
    assert HasFiles(m, p) && HasFiles(m, q);
    if q == p {
      SoundFrom(m, At(m, p), b);
      if At(m, p) == Leased && !CanShare(m.permission) {
        GrantHasFiles(m);
      }
    } else if StartsWriting(b) {
      WriterIsAlone(m, p, b, q);
    }
  }

  /** A record is removed only by whoever owns the operation lock. */
  lemma RecordStays(m: Machine, m': Machine, p: Pid, b: Phase, q: Pid)
    requires Inv(m) && Moves(m, m', p, b) && At(m', q) == Recorded
    ensures m'.pending
  {
    assert HasFiles(m, q);
    if q != p && Finishes(At(m, p), b) {
      Apart(m, p, q);
    }
  }

  lemma PartialStaysRecorded(m: Machine, m': Machine, p: Pid, b: Phase)
    requires Inv(m) && Moves(m, m', p, b) && m'.files == Partial
    ensures m'.pending
  {
    assert HasFiles(m, p);
  }

  /** Nobody else finishes what a process has begun to rewrite. */
  lemma RewritingStaysPartial(m: Machine, m': Machine, p: Pid, b: Phase, q: Pid)
    requires Inv(m) && Moves(m, m', p, b) && Rewrites(At(m', q))
    ensures m'.files == Partial
  {
    if q != p {
      Apart(m, q, p);
    }
  }

  lemma MoveKeeps(m: Machine, m': Machine, p: Pid, b: Phase)
    requires Inv(m) && Moves(m, m', p, b)
    ensures Inv(m')
  {
    MovesAgree(m, m', p, b);
    forall q: Pid, r: Pid ensures NotBoth(m', q, r) {
      assert NotBoth(m, q, r) && NotBoth(m, p, r) && NotBoth(m, q, p);
      CalmStaysAlone(m, m', p, b, q, r);
    }
    forall q: Pid ensures HasFiles(m', q) {
      if Sound(At(m', q)) {
        FilesStayComplete(m, m', p, b, q);
      }
      if At(m', q) == Recorded {
        RecordStays(m, m', p, b, q);
      }
    }
    if m'.files == Partial {
      PartialStaysRecorded(m, m', p, b);
    }
    forall q: Pid | Rewrites(At(m', q)) ensures m'.files == Partial {
      RewritingStaysPartial(m, m', p, b, q);
    }
  }

  lemma IdleHolds(m: Machine)
    requires m == IDLE
    ensures Inv(m)
  {
  }

  lemma StepKeeps(states: seq<Machine>, moves: seq<Move>, i: nat)
    requires 0 < i <= |moves| && |states| == |moves| + 1 && Inv(states[i - 1]) && Run(states, moves)
    ensures Inv(states[i])
  {
    assert MovesAt(states, moves, i - 1);
    MoveKeeps(states[i - 1], states[i], moves[i - 1].p, moves[i - 1].phase);
  }

  lemma {:induction false} RunKeeps(states: seq<Machine>, moves: seq<Move>, i: nat)
    requires Run(states, moves) && i < |states|
    ensures Inv(states[i])
    decreases i
  {
    if i == 0 {
      IdleHolds(states[i]);
    } else {
      RunKeeps(states, moves, i - 1);
      StepKeeps(states, moves, i);
    }
  }

  // --- the main results ------------------------------------------------------------------------

  /** Whoever holds the engine lease while live files are being replaced. */
  predicate Harmless(m: Machine, holder: Pid) {
    At(m, holder) in {Ready, Leased, Testing, Refused, Observing}
  }

  /** Startup safety, over every run with any number of processes: while an operation replaces live files nobody is
      authorized but not ready, so the engine lease is free, or held by an engine that is ready, or by somebody whose
      test of the grant must fail. */
  lemma StartupIsSafe(states: seq<Machine>, moves: seq<Move>, i: nat, p: Pid)
    requires Run(states, moves) && i < |states| && At(states[i], p).Writing?
    ensures forall q: Pid :: !Authorized(At(states[i], q))
    ensures CanOwn(states[i].engine)
         || (states[i].engine.exclusive.Some? && Harmless(states[i], states[i].engine.exclusive.value))
    ensures CanShare(states[i].permission)
  {
    RunKeeps(states, moves, i);
    var m := states[i];
    forall q: Pid ensures !Authorized(At(m, q)) {
      assert NotBoth(m, p, q);
    }
    assert Agrees(m, p);
    assert CanShare(m.permission);
    assert m.engine.shared == {} by {
      forall q: Pid ensures q !in m.engine.shared {
        assert Agrees(m, q);
      }
    }
    if m.engine.exclusive.Some? {
      var h := m.engine.exclusive.value;
      assert Agrees(m, h);
      if h != p {
        Apart(m, p, h);
      }
    }
  }

  /** At most one engine runs, starting or ready. */
  lemma OneEngine(states: seq<Machine>, moves: seq<Move>, i: nat, p: Pid, q: Pid)
    requires Run(states, moves) && i < |states|
    requires At(states[i], p) in {Starting, Ready} && At(states[i], q) in {Starting, Ready}
    ensures p == q
  {
    RunKeeps(states, moves, i);
    if p != q {
      Apart(states[i], p, q);
    }
  }

  lemma NoWriteUnderAStart(m: Machine, m': Machine, p: Pid, b: Phase, q: Pid)
    requires Inv(m) && Moves(m, m', p, b) && Authorized(At(m, q))
    ensures !StartsWriting(b)
  {
    if StartsWriting(b) {
      if q != p {
        WriterIsAlone(m, p, b, q);
      }
    }
  }

  /** Nobody is ever cleared to start from files that are not complete, and files never change under such a start:
      from the moment a wrapper is authorized until it is ready or gone, the files stay as they are. */
  lemma StartsFromCompleteFiles(states: seq<Machine>, moves: seq<Move>, i: nat, p: Pid)
    requires Run(states, moves) && i < |states| && Authorized(At(states[i], p))
    ensures states[i].files == Complete
    ensures i < |moves| ==> !StartsWriting(moves[i].phase)
  {
    RunKeeps(states, moves, i);
    assert HasFiles(states[i], p);
    if i < |moves| {
      assert MovesAt(states, moves, i);
      NoWriteUnderAStart(states[i], states[i + 1], moves[i].p, moves[i].phase, p);
    }
  }

  /** Files that do not belong together always have a recovery record: whoever dies between the first and the last of
      many files leaves one. */
  lemma PartialFilesAreRecorded(states: seq<Machine>, moves: seq<Move>, i: nat)
    requires Run(states, moves) && i < |states| && states[i].files == Partial
    ensures states[i].pending
  {
    RunKeeps(states, moves, i);
  }

  /** Files do not belong together while somebody replaces many of them, and only a process that has replaced all of
      them, in an operation or from the recovery record, makes them complete again: a crash never does. */
  lemma OnlyAFullRewriteMends(states: seq<Machine>, moves: seq<Move>, i: nat, p: Pid)
    requires Run(states, moves) && i < |states|
    ensures At(states[i], p) == Writing(true) || At(states[i], p) == OwnWriting ==> states[i].files == Partial
    ensures i < |moves| && states[i].files == Partial && states[i + 1].files == Complete ==>
      && (At(states[i], moves[i].p) == Writing(true) || At(states[i], moves[i].p) == OwnWriting)
      && moves[i].phase != Absent
  {
    RunKeeps(states, moves, i);
    if i < |moves| {
      assert MovesAt(states, moves, i);
    }
  }

  /** Grant lifetime: a grant is held by one operation that is starting the engine, from complete files, and nobody
      blocks startup meanwhile. When that process leaves this phase, in whatever way, the grant is gone. */
  lemma GrantLifetime(states: seq<Machine>, moves: seq<Move>, i: nat)
    requires Run(states, moves) && i < |states|
    ensures states[i].permission.exclusive.Some? <==> exists p: Pid :: Grants(At(states[i], p))
    ensures forall p: Pid :: Grants(At(states[i], p)) ==>
      && states[i].permission == Lock(Some(p), {}) && states[i].operation.exclusive == Some(p)
      && states[i].files == Complete
  {
    RunKeeps(states, moves, i);
    var m := states[i];
    if m.permission.exclusive.Some? {
      assert Agrees(m, m.permission.exclusive.value);
    }
    forall p: Pid | Grants(At(m, p))
      ensures m.permission == Lock(Some(p), {}) && m.operation.exclusive == Some(p) && m.files == Complete
    {
      assert Agrees(m, p) && HasFiles(m, p);
    }
  }

  /** A moment at which a process sees that nobody is starting: it has the engine lease itself, or the engine
      answers. */
  ghost predicate Certain(m: Machine, p: Pid) {
    At(m, p) in {RecoveryProbe, Settling, StopProbe} || (At(m, p) == SettleBusy && EngineReady(m))
  }

  /** Not known to be alone: it may neither write nor go on to a grant. */
  predicate Unsure(m: Machine, p: Pid) {
    !Calm(At(m, p))
  }

  lemma StaysUnsure(m: Machine, m': Machine, p: Pid, b: Phase, q: Pid)
    requires Moves(m, m', p, b) && !Certain(m, q) && Unsure(m, q)
    ensures Unsure(m', q)
  {
    if q == p && Calm(b) {
      CalmFrom(m, At(m, p), b);
    }
  }

  lemma GrantingIsUnsure(m: Machine, p: Pid)
    requires At(m, p) == Granting
    ensures Unsure(m, p) && !Certain(m, p)
  {
  }

  lemma RunStaysUnsure(states: seq<Machine>, moves: seq<Move>, k: nat, p: Pid)
    requires Run(states, moves) && k + 1 < |states| && !Certain(states[k], p) && Unsure(states[k], p)
    ensures Unsure(states[k + 1], p)
  {
    assert MovesAt(states, moves, k);
    StaysUnsure(states[k], states[k + 1], moves[k].p, moves[k].phase, p);
  }

  lemma {:induction false} UnsureUntilChecked(states: seq<Machine>, moves: seq<Move>, i: nat, j: nat, p: Pid)
    requires Run(states, moves) && i <= j < |states| && At(states[i], p) == Granting
    requires forall k :: i < k < j ==> !Certain(states[k], p)
    ensures Unsure(states[j], p)
  {
    GrantingIsUnsure(states[i], p);
    if i < j {
      UnsureUntilChecked(states, moves, i, j - 1, p);
      RunStaysUnsure(states, moves, j - 1, p);
    }
  }

  /** A start that failed is stopped before anything is restored: between a grant and the next write of the same
      process there is a moment at which it saw that nobody was starting. */
  lemma WritesAfterAGrantFollowAStop(states: seq<Machine>, moves: seq<Move>, i: nat, j: nat, p: Pid)
    requires Run(states, moves) && i < j < |states|
    requires At(states[i], p) == Granting && At(states[j], p).Writing?
    ensures exists k :: i < k < j && Certain(states[k], p)
  {
    if forall k :: i < k < j ==> !Certain(states[k], p) {
      UnsureUntilChecked(states, moves, i, j, p);
    }
  }

  // --- a start that succeeds -------------------------------------------------------------------

  const FIRST: Pid := 1
  const SECOND: Pid := 2

  function LockOf(a: Mode, b: Mode): Lock {
    if a == Exclusive then Lock(Some(FIRST), {})
    else if b == Exclusive then Lock(Some(SECOND), {})
    else Lock(None, (if a == Shared then {FIRST} else {}) + (if b == Shared then {SECOND} else {}))
  }

  predicate Compatible(a: Mode, b: Mode) {
    (a == Exclusive ==> b == Free) && (b == Exclusive ==> a == Free)
  }

  predicate TogetherOk(a: Phase, b: Phase) {
    && Compatible(Held(a).operation, Held(b).operation) && Compatible(Held(a).engine, Held(b).engine)
    && Compatible(Held(a).permission, Held(b).permission)
  }

  /** An operation in one phase and a wrapper in another. */
  function Two(a: Phase, b: Phase, files: Files, pending: bool): Machine {
    Machine(LockOf(Held(a).operation, Held(b).operation), LockOf(Held(a).engine, Held(b).engine),
            LockOf(Held(a).permission, Held(b).permission), files, pending, map[FIRST := a, SECOND := b])
  }

  lemma FirstTakes(a: Mode, a': Mode, b: Mode)
    requires Compatible(a, b) && Compatible(a', b)
    ensures Takes(LockOf(a, b), LockOf(a', b), FIRST, a, a')
  {
    var rest := Release(LockOf(a, b), FIRST);
    assert rest == LockOf(Free, b) by {
      assert rest.shared == LockOf(Free, b).shared;
    }
    assert a' == Shared ==> rest.shared + {FIRST} == LockOf(a', b).shared;
  }

  lemma SecondTakes(a: Mode, b: Mode, b': Mode)
    requires Compatible(a, b) && Compatible(a, b')
    ensures Takes(LockOf(a, b), LockOf(a, b'), SECOND, b, b')
  {
    var rest := Release(LockOf(a, b), SECOND);
    assert rest == LockOf(a, Free) by {
      assert rest.shared == LockOf(a, Free).shared;
    }
    assert b' == Shared ==> rest.shared + {SECOND} == LockOf(a, b').shared;
  }

  lemma FirstMoves(a: Phase, a': Phase, b: Phase, files: Files, pending: bool)
    requires TogetherOk(a, b) && TogetherOk(a', b)
    requires OperationMoves(a, a') && Guard(Two(a, b, files, pending), a, a')
    ensures var m := Two(a, b, files, pending);
      Moves(m, Two(a', b, FilesAfter(m, a, a'), PendingAfter(m, a, a')), FIRST, a')
  {
    var m := Two(a, b, files, pending);
    assert At(m, FIRST) == a && m.phases[FIRST := a'] == Two(a', b, files, pending).phases;
    FirstTakes(Held(a).operation, Held(a').operation, Held(b).operation);
    FirstTakes(Held(a).engine, Held(a').engine, Held(b).engine);
    FirstTakes(Held(a).permission, Held(a').permission, Held(b).permission);
  }

  lemma SecondMoves(a: Phase, b: Phase, b': Phase, files: Files, pending: bool)
    requires TogetherOk(a, b) && TogetherOk(a, b')
    requires WrapperMoves(b, b') && Guard(Two(a, b, files, pending), b, b')
    ensures var m := Two(a, b, files, pending);
      Moves(m, Two(a, b', FilesAfter(m, b, b'), PendingAfter(m, b, b')), SECOND, b')
  {
    var m := Two(a, b, files, pending);
    assert At(m, SECOND) == b && m.phases[SECOND := b'] == Two(a, b', files, pending).phases;
    SecondTakes(Held(a).operation, Held(b).operation, Held(b').operation);
    SecondTakes(Held(a).engine, Held(b).engine, Held(b').engine);
    SecondTakes(Held(a).permission, Held(b).permission, Held(b').permission);
  }

  ghost predicate Leads(states: seq<Machine>, moves: seq<Move>, m: Machine) {
    Run(states, moves) && states[|moves|] == m
  }

  /** Some run leads there. */
  ghost predicate Reachable(m: Machine) {
    exists states, moves :: Leads(states, moves, m)
  }

  lemma Reaches(m: Machine, m': Machine, p: Pid, b: Phase)
    requires Reachable(m) && Moves(m, m', p, b)
    ensures Reachable(m')
  {
    var states, moves :| Leads(states, moves, m);
    var states', moves' := states + [m'], moves + [Move(p, b)];
    forall i | 0 <= i < |moves'| ensures MovesAt(states', moves', i) {
      if i < |moves| {
        assert MovesAt(states, moves, i);
      }
    }
    assert Leads(states', moves', m');
  }

  lemma IdleIsReachable()
    ensures Reachable(Two(Absent, Absent, Complete, false))
  {
    var one := IDLE.(phases := map[FIRST := Absent]);
    var none: seq<Move> := [];
    assert Leads([IDLE], none, IDLE);
    assert IDLE.phases[FIRST := Absent] == one.phases;
    Reaches(IDLE, one, FIRST, Absent);
    assert one.phases[SECOND := Absent] == Two(Absent, Absent, Complete, false).phases;
    Reaches(one, Two(Absent, Absent, Complete, false), SECOND, Absent);
  }

  /** The files and the record after a move. */
  predicate Leaves(a: Phase, b: Phase, files: Files, pending: bool, files': Files, pending': bool) {
    var m := Machine(UNLOCKED, UNLOCKED, UNLOCKED, files, pending, map[]);
    files' == FilesAfter(m, a, b) && pending' == PendingAfter(m, a, b)
  }

  lemma FirstReaches(a: Phase, a': Phase, b: Phase, files: Files, pending: bool, files': Files, pending': bool)
    requires Reachable(Two(a, b, files, pending)) && TogetherOk(a, b) && TogetherOk(a', b)
    requires OperationMoves(a, a') && Guard(Two(a, b, files, pending), a, a')
    requires Leaves(a, a', files, pending, files', pending')
    ensures Reachable(Two(a', b, files', pending'))
  {
    FirstMoves(a, a', b, files, pending);
    Reaches(Two(a, b, files, pending), Two(a', b, files', pending'), FIRST, a');
  }

  lemma SecondReaches(a: Phase, b: Phase, b': Phase, files: Files, pending: bool, files': Files, pending': bool)
    requires Reachable(Two(a, b, files, pending)) && TogetherOk(a, b) && TogetherOk(a, b')
    requires WrapperMoves(b, b') && Guard(Two(a, b, files, pending), b, b')
    requires Leaves(b, b', files, pending, files', pending')
    ensures Reachable(Two(a, b', files', pending'))
  {
    SecondMoves(a, b, b', files, pending);
    Reaches(Two(a, b, files, pending), Two(a, b', files', pending'), SECOND, b');
  }

  /** A move that asks nothing of the locks beside those it takes. */
  predicate Unhindered(a: Phase, b: Phase, pending: bool) {
    && b != SettleBusy && a != SettleBusy && b != Revoked(true) && b != Turned && a != Leased
    && (b == Settling || b == Recorded || (a == OwnLeased && b == OwnCleared) ==> !pending)
    && ((b == Writing(true) && a != Recorded) || b == OwnWriting || Finishes(a, b) ==> pending)
  }

  lemma FirstGoes(a: Phase, a': Phase, files: Files, pending: bool, files': Files, pending': bool)
    requires Reachable(Two(a, Absent, files, pending))
    requires OperationMoves(a, a') && Unhindered(a, a', pending) && Leaves(a, a', files, pending, files', pending')
    ensures Reachable(Two(a', Absent, files', pending'))
  {
    FirstReaches(a, a', Absent, files, pending, files', pending');
  }

  lemma SecondGoes(b: Phase, b': Phase, files: Files, pending: bool, files': Files, pending': bool)
    requires Reachable(Two(Absent, b, files, pending))
    requires WrapperMoves(b, b') && Unhindered(b, b', pending) && Leaves(b, b', files, pending, files', pending')
    ensures Reachable(Two(Absent, b', files', pending'))
  {
    SecondReaches(Absent, b, b', files, pending, files', pending');
  }

  lemma RewritingIsReachable()
    ensures Reachable(Two(Writing(true), Absent, Partial, true))
  {
    IdleIsReachable();
    FirstGoes(Absent, Locked, Complete, false, Complete, false);
    FirstGoes(Locked, Guarded, Complete, false, Complete, false);
    FirstGoes(Guarded, Settling, Complete, false, Complete, false);
    FirstGoes(Settling, Quiet, Complete, false, Complete, false);
    FirstGoes(Quiet, Recorded, Complete, false, Complete, true);
    FirstGoes(Recorded, Writing(true), Complete, true, Partial, true);
  }

  lemma QuietIsReachable()
    ensures Reachable(Two(Quiet, Absent, Complete, false))
  {
    RewritingIsReachable();
    FirstGoes(Writing(true), Quiet, Partial, true, Complete, true);
    FirstGoes(Quiet, Guarded, Complete, true, Complete, false);
    FirstGoes(Guarded, Settling, Complete, false, Complete, false);
    FirstGoes(Settling, Quiet, Complete, false, Complete, false);
  }

  lemma GrantIsReachable()
    ensures Reachable(Two(Granting, Absent, Complete, false))
  {
    QuietIsReachable();
    FirstGoes(Quiet, StopProbe, Complete, false, Complete, false);
    FirstGoes(StopProbe, Stopped, Complete, false, Complete, false);
    FirstGoes(Stopped, Open, Complete, false, Complete, false);
    FirstGoes(Open, Granting, Complete, false, Complete, false);
  }

  lemma WrapperFindsTheGrant()
    ensures Reachable(Two(Granting, Starting, Complete, false))
  {
    GrantIsReachable();
    SecondReaches(Granting, Absent, Turned, Complete, false, Complete, false);
    SecondReaches(Granting, Turned, Leased, Complete, false, Complete, false);
    SecondReaches(Granting, Leased, Starting, Complete, false, Complete, false);
  }

  /** Safety is not bought with a deadlock: an operation can replace many files and then start the engine, which gets
      ready under its grant. */
  lemma UpgradeCanStart()
    ensures Reachable(Two(Writing(true), Absent, Partial, true))
    ensures Reachable(Two(Blocked(true), Ready, Complete, false))
  {
    RewritingIsReachable();
    WrapperFindsTheGrant();
    SecondReaches(Granting, Starting, Ready, Complete, false, Complete, false);
    assert At(Two(Granting, Ready, Complete, false), SECOND) == Ready;
    FirstReaches(Granting, Revoked(true), Ready, Complete, false, Complete, false);
    FirstReaches(Revoked(true), Blocked(true), Ready, Complete, false, Complete, false);
  }

  lemma CrashIsReachable()
    ensures Reachable(Two(Absent, Absent, Partial, true))
  {
    RewritingIsReachable();
    var m, m' := Two(Writing(true), Absent, Partial, true), Two(Absent, Absent, Partial, true);
    FirstTakes(Exclusive, Free, Free);
    FirstTakes(Free, Free, Free);
    FirstTakes(Shared, Free, Free);
    assert m.phases[FIRST := Absent] == m'.phases;
    Reaches(m, m', FIRST, Absent);
  }

  lemma RecoveryIsReachable()
    ensures Reachable(Two(Absent, OwnWriting, Partial, true))
  {
    CrashIsReachable();
    SecondGoes(Absent, OwnLocked, Partial, true, Partial, true);
    SecondGoes(OwnLocked, OwnGuarded, Partial, true, Partial, true);
    SecondGoes(OwnGuarded, OwnLeased, Partial, true, Partial, true);
    SecondGoes(OwnLeased, OwnWriting, Partial, true, Partial, true);
  }

  lemma ClearanceIsReachable()
    ensures Reachable(Two(Absent, OwnCleared, Complete, false))
  {
    RecoveryIsReachable();
    SecondGoes(OwnWriting, OwnRestored, Partial, true, Complete, true);
    SecondGoes(OwnRestored, OwnCleared, Complete, true, Complete, false);
  }

  /** And from the files of an operation that died in between a wrapper can recover by itself and start the engine. */
  lemma RecoveryCanStart()
    ensures Reachable(Two(Absent, Absent, Partial, true)) && Reachable(Two(Absent, Ready, Complete, false))
  {
    CrashIsReachable();
    ClearanceIsReachable();
    SecondGoes(OwnCleared, OwnUnbarred, Complete, false, Complete, false);
    SecondGoes(OwnUnbarred, Starting, Complete, false, Complete, false);
    SecondGoes(Starting, Ready, Complete, false, Complete, false);
  }
}
