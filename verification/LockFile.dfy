/** The cooperative lock file (`_acquire_lock`, `_verify_lock`, `_release_lock`,
    `_abandon_lock`) as a step machine: one system call per step, any number of
    processes, a crash possible after every step.

    Opening with O_EXCL, taking the advisory lock and unlinking are atomic.
    Inode numbers may be reused once nothing links or opens them. */
module LockFile {
  import opened Wrappers
  import opened Records

  type Pid = nat
  type Inode = nat
  /** The lock record, which one authorization determines. */
  type Claim = string

  /** Where a process stands between opening the lock file and being rid of it. */
  datatype Pc =
    | Idle
    | Opened(inode: Inode, created: bool, claim: Claim)
    | Locked(inode: Inode, created: bool, claim: Claim)
    | Written(inode: Inode, claim: Claim)
    | Statted(inode: Inode, created: bool, claim: Claim)
    | Held(inode: Inode, claim: Claim)
    | Releasing(inode: Inode, claim: Claim)
    | Unlinked(inode: Inode)
    | Failed(inode: Inode, created: bool)
    | Cleanup(inode: Inode)
    | CleanupStatted(inode: Inode)

  /** `path` is the inode the lock name links; `content` holds the record once it
      is completely written; `flock` holds the advisory locks. */
  datatype State = State(path: Option<Inode>, content: map<Inode, Claim>, flock: map<Inode, Pid>, procs: map<Pid, Pc>)

  datatype Act =
    | Create(claim: Claim, spare: Inode)
    | OpenExisting(claim: Claim)
    | Flock
    | WriteRecord
    | EarlyFails
    | LateFails
    | StatPath
    | ReadRecord
    | CloseFailed
    | StatCleanup
    | UnlinkCleanup
    | CheckRelease
    | UnlinkName
    | Unlock
    | Abandon
    | Crash

  const INITIAL: State := State(None, map[], map[], map[])

  function At(s: State, p: Pid): Pc { if p in s.procs then s.procs[p] else Idle }

  predicate HasOpen(pc: Pc, i: Inode) {
    !pc.Idle? && !pc.Cleanup? && !pc.CleanupStatted? && pc.inode == i
  }

  /** An inode number the file system may hand out. */
  predicate Fresh(s: State, i: Inode) {
    s.path != Some(i) && forall p :: p in s.procs ==> !HasOpen(s.procs[p], i)
  }

  /** A creator between writing the last byte of its record and holding the lock: it has
      still to sync the record, look the name up and read the record back. */
  predicate RecordComplete(pc: Pc) { pc.Written? || (pc.Statted? && pc.created) }

  function Goto(s: State, p: Pid, pc: Pc): State { s.(procs := s.procs[p := pc]) }

  /** Drop p's advisory lock, as closing the descriptor does, and move on. */
  function Drop(s: State, p: Pid, pc: Pc): State {
    Goto(s.(flock := map i | i in s.flock && s.flock[i] != p :: s.flock[i]), p, pc)
  }

  /** One system call of process p; a disabled action leaves the state unchanged. `EarlyFails`
      is an I/O error while acquiring that comes before a creator's record is complete, or to
      a process that did not create the file; `LateFails` one that comes after. An I/O error
      that makes a process let go without touching the name has the effect of `Crash`. */
  function Step(s: State, p: Pid, a: Act): State {
    var pc := At(s, p);
    match a
    case Create(c, i) =>
      if pc.Idle? && s.path.None? && Fresh(s, i)
      then Goto(s.(path := Some(i), content := s.content - {i}), p, Opened(i, true, c)) else s
    case OpenExisting(c) =>
      if pc.Idle? && s.path.Some? then Goto(s, p, Opened(s.path.value, false, c)) else s
    case Flock =>
      if !pc.Opened? then s
      else if pc.inode in s.flock then Goto(s, p, Pc.Failed(pc.inode, pc.created))
      else Goto(s.(flock := s.flock[pc.inode := p]), p, Locked(pc.inode, pc.created, pc.claim))
    case WriteRecord =>
      if pc.Locked? && pc.created
      then Goto(s.(content := s.content[pc.inode := pc.claim]), p, Written(pc.inode, pc.claim)) else s
    case EarlyFails =>
      if pc.Opened? || pc.Locked? || (pc.Statted? && !pc.created) then Goto(s, p, Pc.Failed(pc.inode, pc.created)) else s
    case LateFails =>
      if RecordComplete(pc) then Goto(s, p, Pc.Failed(pc.inode, true)) else s
    case StatPath =>
      if !(pc.Written? || (pc.Locked? && !pc.created)) then s
      else if s.path == Some(pc.inode) then Goto(s, p, Statted(pc.inode, pc.Written?, pc.claim))
      else Goto(s, p, Pc.Failed(pc.inode, pc.Written?))
    case ReadRecord =>
      if !pc.Statted? then s
      else if pc.inode in s.content && s.content[pc.inode] == pc.claim then Goto(s, p, Held(pc.inode, pc.claim))
      else Goto(s, p, Pc.Failed(pc.inode, pc.created))
    case CloseFailed =>
      if pc.Failed? then Drop(s, p, if pc.created then Cleanup(pc.inode) else Idle) else s
    case StatCleanup =>
      if !pc.Cleanup? then s
      else Goto(s, p, if s.path == Some(pc.inode) then CleanupStatted(pc.inode) else Idle)
    case UnlinkCleanup =>
      if pc.CleanupStatted? then Goto(s.(path := None), p, Idle) else s
    case CheckRelease =>
      if !pc.Held? then s
      else if s.path == Some(pc.inode) && pc.inode in s.content && s.content[pc.inode] == pc.claim
      then Goto(s, p, Releasing(pc.inode, pc.claim)) else Drop(s, p, Idle)
    case UnlinkName =>
      if pc.Releasing? then Goto(s.(path := None), p, Unlinked(pc.inode)) else s
    case Unlock =>
      if pc.Unlinked? then Drop(s, p, Idle) else s
    case Abandon =>
      if pc.Held? then Drop(s, p, Idle) else s
    case Crash => Drop(s, p, Idle)
  }

  datatype Move = Move(pid: Pid, act: Act)

  function Run(s: State, moves: seq<Move>): State
    decreases |moves|
  {
    if moves == [] then s else Run(Step(s, moves[0].pid, moves[0].act), moves[1..])
  }

  /** Acquired and not yet released, abandoned or crashed: until the name is unlinked. */
  predicate Critical(s: State, p: Pid) { At(s, p).Held? || At(s, p).Releasing? }

  // ---------- The invariant ----------

  /** Has created the lock file and may still unlink it on failure. */
  predicate Creator(pc: Pc) {
    ((pc.Opened? || pc.Locked? || pc.Failed?) && pc.created) || pc.Cleanup? || pc.CleanupStatted?
  }

  predicate OwnsFlock(pc: Pc) {
    pc.Locked? || pc.Written? || pc.Statted? || pc.Held? || pc.Releasing? || pc.Unlinked?
  }

  predicate HasRecord(s: State, i: Inode, c: Claim) { i in s.content && s.content[i] == c }

  /** What each program point guarantees about the lock name and its record. */
  predicate PointOk(s: State, p: Pid, pc: Pc) {
    && (OwnsFlock(pc) ==> pc.inode in s.flock && s.flock[pc.inode] == p)
    && (Creator(pc) ==> s.path == Some(pc.inode) && pc.inode !in s.content)
    && (pc.Held? || pc.Releasing? || RecordComplete(pc) ==> s.path == Some(pc.inode) && HasRecord(s, pc.inode, pc.claim))
    && (pc.Statted? && pc.inode in s.content ==> s.path == Some(pc.inode))
  }

  ghost predicate Inv(s: State) {
    && (forall p :: p in s.procs ==> PointOk(s, p, s.procs[p]))
    && (forall i :: i in s.flock ==> s.flock[i] in s.procs && HasOpen(s.procs[s.flock[i]], i))
    && (forall p, q :: p in s.procs && q in s.procs && Creator(s.procs[p]) && Creator(s.procs[q]) ==> p == q)
  }

  /** Moving on without a visible effect. */
  lemma GotoKeepsInv(s: State, p: Pid, pc: Pc)
    requires Inv(s) && p in s.procs && PointOk(s, p, pc)
    requires Creator(pc) ==> Creator(s.procs[p])
    requires forall i :: i in s.flock && s.flock[i] == p ==> HasOpen(pc, i)
    ensures Inv(Goto(s, p, pc))
  {}

  lemma DropKeepsInv(s: State, p: Pid, pc: Pc)
    requires Inv(s) && PointOk(s, p, pc) && !OwnsFlock(pc)
    requires Creator(pc) ==> p in s.procs && Creator(s.procs[p])
    ensures Inv(Drop(s, p, pc))
  {
    var t := Drop(s, p, pc);
    forall q | q in t.procs ensures PointOk(t, q, t.procs[q]) {
      if q != p { assert PointOk(s, q, s.procs[q]); }
    }
  }

  lemma CreateKeepsInv(s: State, p: Pid, c: Claim, i: Inode)
    requires Inv(s) && At(s, p).Idle? && s.path.None? && Fresh(s, i)
    ensures Inv(Step(s, p, Create(c, i)))
  {
    var t := Step(s, p, Create(c, i));
    forall q | q in t.procs ensures PointOk(t, q, t.procs[q]) {
      if q != p { assert PointOk(s, q, s.procs[q]); }
    }
  }

  lemma OpenKeepsInv(s: State, p: Pid, c: Claim)
    requires Inv(s) && At(s, p).Idle? && s.path.Some?
    ensures Inv(Step(s, p, OpenExisting(c)))
  {}

  lemma FlockKeepsInv(s: State, p: Pid)
    requires Inv(s) && At(s, p).Opened? && At(s, p).inode !in s.flock
    ensures Inv(Step(s, p, Flock))
  {}

  lemma WriteKeepsInv(s: State, p: Pid)
    requires Inv(s) && At(s, p).Locked? && At(s, p).created
    ensures Inv(Step(s, p, WriteRecord))
  {
    var i := At(s, p).inode;
    assert PointOk(s, p, s.procs[p]);
    forall q | q in s.procs && q != p
      ensures PointOk(Step(s, p, WriteRecord), q, s.procs[q])
    {
      assert PointOk(s, q, s.procs[q]);
      assert !Creator(s.procs[q]);
    }
  }

  /** Unlinking by the failed creator or by the releasing holder: nobody else
      relies on the name. */
  lemma UnlinkKeepsInv(s: State, p: Pid, pc: Pc)
    requires Inv(s) && p in s.procs
    requires (s.procs[p].CleanupStatted? && pc.Idle?) || (s.procs[p].Releasing? && pc == Unlinked(s.procs[p].inode))
    ensures Inv(Goto(s.(path := None), p, pc))
  {
    assert PointOk(s, p, s.procs[p]);
    forall q | q in s.procs && q != p
      ensures PointOk(Goto(s.(path := None), p, pc), q, s.procs[q])
    {
      assert PointOk(s, q, s.procs[q]);
    }
  }

  lemma StepKeepsInv(s: State, p: Pid, a: Act)
    requires Inv(s) && !a.LateFails?
    ensures Inv(Step(s, p, a))
  {
    var t, pc := Step(s, p, a), At(s, p);
    if t != s {
      if p in s.procs { assert PointOk(s, p, s.procs[p]); }
      match a {
        case Create(c, i) => CreateKeepsInv(s, p, c, i);
        case OpenExisting(c) => OpenKeepsInv(s, p, c);
        case Flock => if pc.inode in s.flock { GotoKeepsInv(s, p, t.procs[p]); } else { FlockKeepsInv(s, p); }
        case WriteRecord => WriteKeepsInv(s, p);
        case UnlinkCleanup => UnlinkKeepsInv(s, p, Idle);
        case UnlinkName => UnlinkKeepsInv(s, p, Unlinked(pc.inode));
        case CloseFailed => DropKeepsInv(s, p, t.procs[p]);
        case CheckRelease => if t.procs[p].Idle? { DropKeepsInv(s, p, Idle); } else { GotoKeepsInv(s, p, t.procs[p]); }
        case Unlock => DropKeepsInv(s, p, Idle);
        case Abandon => DropKeepsInv(s, p, Idle);
        case Crash => DropKeepsInv(s, p, Idle);
        case _ => LookKeepsInv(s, p, a);
      }
    }
  }

  /** The steps that only look, or fail. */
  lemma LookKeepsInv(s: State, p: Pid, a: Act)
    requires Inv(s) && p in s.procs && (a.EarlyFails? || a.StatPath? || a.ReadRecord? || a.StatCleanup?)
    ensures Inv(Step(s, p, a))
  {
    var t := Step(s, p, a);
    assert PointOk(s, p, s.procs[p]);
    if t != s { GotoKeepsInv(s, p, t.procs[p]); }
  }

  lemma {:induction false} RunKeepsInv(s: State, moves: seq<Move>)
    requires Inv(s) && forall m :: m in moves ==> !m.act.LateFails?
    ensures Inv(Run(s, moves))
    decreases |moves|
  {
    if moves != [] {
      StepKeepsInv(s, moves[0].pid, moves[0].act);
      RunKeepsInv(Step(s, moves[0].pid, moves[0].act), moves[1..]);
    }
  }

  // ---------- Mutual exclusion ----------

  lemma OneCritical(s: State, p: Pid, q: Pid)
    requires Inv(s) && Critical(s, p) && Critical(s, q)
    ensures p == q
  {
    assert PointOk(s, p, s.procs[p]) && PointOk(s, q, s.procs[q]);
  }

  /** However processes create, recover, release, abandon and crash, and whatever
      authorizations they act for, at most one is inside the lock. */
  lemma MutualExclusion(moves: seq<Move>, p: Pid, q: Pid)
    requires forall m :: m in moves ==> !m.act.LateFails?
    requires Critical(Run(INITIAL, moves), p) && Critical(Run(INITIAL, moves), q)
    ensures p == q
  {
    RunKeepsInv(INITIAL, moves);
    OneCritical(Run(INITIAL, moves), p, q);
  }

  lemma {:induction false} RunOver(s: State, first: seq<Move>, rest: seq<Move>)
    ensures Run(s, first + rest) == Run(Run(s, first), rest)
    decreases |first|
  {
    if first == [] {
      assert first + rest == rest;
    } else {
      assert (first + rest)[1..] == first[1..] + rest;
      RunOver(Step(s, first[0].pid, first[0].act), first[1..], rest);
    }
  }

  function Do(s: State, m: Move): State { Step(s, m.pid, m.act) }

  lemma Unroll2(s: State, m: seq<Move>)
    requires |m| == 2
    ensures Run(s, m) == Do(Do(s, m[0]), m[1])
  {
    var t := m[1..];
    assert Run(s, m) == Run(Do(s, m[0]), t) && t == [m[1]] && t[1..] == [];
    assert Run(Do(s, m[0]), t) == Run(Do(Do(s, m[0]), m[1]), t[1..]);
  }

  lemma Unroll4(s: State, m: seq<Move>)
    requires |m| == 4
    ensures Run(s, m) == Do(Do(Do(Do(s, m[0]), m[1]), m[2]), m[3])
  {
    assert m == m[..2] + m[2..];
    RunOver(s, m[..2], m[2..]);
    Unroll2(s, m[..2]);
    Unroll2(Run(s, m[..2]), m[2..]);
  }

  lemma Unroll5(s: State, m: seq<Move>)
    requires |m| == 5
    ensures Run(s, m) == Do(Do(Do(Do(Do(s, m[0]), m[1]), m[2]), m[3]), m[4])
  {
    assert Run(s, m) == Run(Do(s, m[0]), m[1..]);
    Unroll4(Do(s, m[0]), m[1..]);
  }

  // ---------- When the lock can be acquired ----------

  ghost predicate Quiet(s: State) {
    s.flock == map[] && forall p :: p in s.procs ==> s.procs[p].Idle?
  }

  /** Undisturbed acquisition by p: create the file if there is none, else recover it. */
  function AcquireMoves(s: State, p: Pid, c: Claim, spare: Inode): seq<Move> {
    if s.path.None?
    then [Move(p, Create(c, spare)), Move(p, Flock), Move(p, WriteRecord), Move(p, StatPath), Move(p, ReadRecord)]
    else [Move(p, OpenExisting(c)), Move(p, Flock), Move(p, StatPath), Move(p, ReadRecord)]
  }

  function Acquire(s: State, p: Pid, c: Claim, spare: Inode): State { Run(s, AcquireMoves(s, p, c, spare)) }

  lemma FirstMove(s: State, m: Move, rest: seq<Move>)
    ensures Run(s, [m] + rest) == Run(Step(s, m.pid, m.act), rest)
  {
    assert ([m] + rest)[1..] == rest;
  }

  lemma Creates(s: State, p: Pid, c: Claim, i: Inode, rest: seq<Move>) returns (t: State)
    requires At(s, p).Idle? && s.path.None? && Fresh(s, i)
    ensures t == Goto(s.(path := Some(i), content := s.content - {i}), p, Opened(i, true, c))
    ensures Run(s, [Move(p, Create(c, i))] + rest) == Run(t, rest)
  {
    FirstMove(s, Move(p, Create(c, i)), rest);
    t := Step(s, p, Create(c, i));
  }

  lemma Opens(s: State, p: Pid, c: Claim, rest: seq<Move>) returns (t: State)
    requires At(s, p).Idle? && s.path.Some?
    ensures t == Goto(s, p, Opened(s.path.value, false, c))
    ensures Run(s, [Move(p, OpenExisting(c))] + rest) == Run(t, rest)
  {
    FirstMove(s, Move(p, OpenExisting(c)), rest);
    t := Step(s, p, OpenExisting(c));
  }

  lemma Flocks(s: State, p: Pid, rest: seq<Move>) returns (t: State)
    requires At(s, p).Opened? && At(s, p).inode !in s.flock
    ensures var pc := At(s, p);
            t == Goto(s.(flock := s.flock[pc.inode := p]), p, Locked(pc.inode, pc.created, pc.claim))
    ensures Run(s, [Move(p, Flock)] + rest) == Run(t, rest)
  {
    FirstMove(s, Move(p, Flock), rest);
    t := Step(s, p, Flock);
  }

  lemma Writes(s: State, p: Pid, rest: seq<Move>) returns (t: State)
    requires At(s, p).Locked? && At(s, p).created
    ensures var pc := At(s, p);
            t == Goto(s.(content := s.content[pc.inode := pc.claim]), p, Written(pc.inode, pc.claim))
    ensures Run(s, [Move(p, WriteRecord)] + rest) == Run(t, rest)
  {
    FirstMove(s, Move(p, WriteRecord), rest);
    t := Step(s, p, WriteRecord);
  }

  lemma Stats(s: State, p: Pid, rest: seq<Move>) returns (t: State)
    requires (At(s, p).Written? || (At(s, p).Locked? && !At(s, p).created)) && s.path == Some(At(s, p).inode)
    ensures t == Goto(s, p, Statted(At(s, p).inode, At(s, p).Written?, At(s, p).claim))
    ensures Run(s, [Move(p, StatPath)] + rest) == Run(t, rest)
  {
    FirstMove(s, Move(p, StatPath), rest);
    t := Step(s, p, StatPath);
  }

  lemma Reads(s: State, p: Pid) returns (t: State)
    requires At(s, p).Statted?
    ensures Run(s, [Move(p, ReadRecord)]) == t
    ensures Critical(t, p) <==> HasRecord(s, At(s, p).inode, At(s, p).claim)
    ensures Critical(t, p) ==> At(t, p).Held? && At(t, p).claim == At(s, p).claim
    ensures t.path == s.path && forall q :: q != p ==> At(t, q) == At(s, q)
  {
    FirstMove(s, Move(p, ReadRecord), []);
    assert [Move(p, ReadRecord)] + [] == [Move(p, ReadRecord)];
    t := Step(s, p, ReadRecord);
  }

  /** Acquiring by creating the lock file. */
  lemma Created(s: State, p: Pid, c: Claim, spare: Inode) returns (t: State)
    requires s.path.None? && At(s, p).Idle? && Fresh(s, spare) && spare !in s.flock
    ensures t == Acquire(s, p, c, spare) && At(t, p).Held? && At(t, p).claim == c
    ensures forall q :: q != p ==> At(t, q) == At(s, q)
  {
    var m := AcquireMoves(s, p, c, spare);
    assert m == [m[0]] + [m[1], m[2], m[3], m[4]];
    var s1 := Creates(s, p, c, spare, [m[1], m[2], m[3], m[4]]);
    assert [m[1], m[2], m[3], m[4]] == [m[1]] + [m[2], m[3], m[4]];
    var s2 := Flocks(s1, p, [m[2], m[3], m[4]]);
    assert [m[2], m[3], m[4]] == [m[2]] + [m[3], m[4]];
    var s3 := Writes(s2, p, [m[3], m[4]]);
    assert [m[3], m[4]] == [m[3]] + [m[4]];
    var s4 := Stats(s3, p, [m[4]]);
    t := Reads(s4, p);
  }

  /** Acquiring by opening the lock file that is there. */
  lemma Recovered(s: State, p: Pid, c: Claim, spare: Inode) returns (t: State)
    requires s.path.Some? && At(s, p).Idle? && s.path.value !in s.flock
    ensures t == Acquire(s, p, c, spare)
    ensures Critical(t, p) <==> HasRecord(s, s.path.value, c)
    ensures Critical(t, p) ==> At(t, p).Held? && At(t, p).claim == c
    ensures t.path == s.path && forall q :: q != p ==> At(t, q) == At(s, q)
  {
    var m := AcquireMoves(s, p, c, spare);
    assert m == [m[0]] + [m[1], m[2], m[3]];
    var s1 := Opens(s, p, c, [m[1], m[2], m[3]]);
    assert [m[1], m[2], m[3]] == [m[1]] + [m[2], m[3]];
    var s2 := Flocks(s1, p, [m[2], m[3]]);
    assert [m[2], m[3]] == [m[2]] + [m[3]];
    var s3 := Stats(s2, p, [m[3]]);
    t := Reads(s3, p);
  }

  /** After everyone else is gone, an authorization gets the lock exactly when there
      is no lock file or the file holds that authorization's complete record. */
  lemma AcquirableIff(s: State, p: Pid, c: Claim, spare: Inode)
    requires Quiet(s) && Fresh(s, spare)
    ensures Critical(Acquire(s, p, c, spare), p) <==> (s.path.None? || HasRecord(s, s.path.value, c))
    ensures Critical(Acquire(s, p, c, spare), p) ==> At(Acquire(s, p, c, spare), p).claim == c
  {
    if s.path.None? {
      var t := Created(s, p, c, spare);
    } else {
      var t := Recovered(s, p, c, spare);
    }
  }

  /** p holds the lock and nobody else is about. */
  ghost predicate Alone(s: State, p: Pid) {
    At(s, p).Held? && forall q :: q != p ==> At(s, q).Idle?
  }

  lemma AcquiresAlone(s: State, p: Pid, c: Claim, spare: Inode)
    requires Quiet(s) && Fresh(s, spare) && (s.path.None? || HasRecord(s, s.path.value, c))
    ensures Alone(Acquire(s, p, c, spare), p)
  {
    if s.path.None? {
      var t := Created(s, p, c, spare);
    } else {
      var t := Recovered(s, p, c, spare);
    }
  }

  function ReleaseMoves(p: Pid): seq<Move> { [Move(p, CheckRelease), Move(p, UnlinkName), Move(p, Unlock)] }

  lemma ReleaseIs(s: State, p: Pid)
    ensures Run(s, ReleaseMoves(p)) == Step(Step(Step(s, p, CheckRelease), p, UnlinkName), p, Unlock)
  {
    var m := ReleaseMoves(p);
    FirstMove(s, m[0], m[1..]);
    assert m == [m[0]] + m[1..];
    Unroll2(Step(s, p, CheckRelease), m[1..]);
  }

  /** An undisturbed release leaves no lock file and no advisory lock behind. */
  lemma ReleasesAlone(s: State, p: Pid)
    requires Inv(s) && Alone(s, p)
    ensures Quiet(Run(s, ReleaseMoves(p))) && Run(s, ReleaseMoves(p)).path.None?
  {
    assert PointOk(s, p, s.procs[p]);
    ReleaseIs(s, p);
    forall i | i in s.flock ensures s.flock[i] == p { assert !At(s, s.flock[i]).Idle?; }
    var t := Step(Step(Step(s, p, CheckRelease), p, UnlinkName), p, Unlock);
    assert t.flock == map[];
    forall q | q in t.procs ensures t.procs[q].Idle? { assert q != p ==> At(s, q) == t.procs[q]; }
  }

  /** The lock name links a file without a complete record and its creator is gone. */
  ghost predicate Wedged(s: State) {
    s.path.Some? && s.path.value !in s.content && forall p :: p in s.procs ==> !Creator(s.procs[p])
  }

  lemma WedgedStep(s: State, p: Pid, a: Act)
    requires Inv(s) && Wedged(s)
    ensures Inv(Step(s, p, a)) && Wedged(Step(s, p, a)) && Step(s, p, a).path == s.path
  {
    if p in s.procs { assert PointOk(s, p, s.procs[p]); }
    if a.LateFails? {
      assert Step(s, p, a) == s;
    } else {
      StepKeepsInv(s, p, a);
    }
  }

  /** A creator that dies before its record is complete blocks the target for good. */
  lemma {:induction false} WedgedForever(s: State, moves: seq<Move>, p: Pid)
    requires Inv(s) && Wedged(s)
    ensures Wedged(Run(s, moves)) && !Critical(Run(s, moves), p)
    decreases |moves|
  {
    if moves == [] {
      if p in s.procs { assert PointOk(s, p, s.procs[p]); }
    } else {
      var q := moves[0].pid;
      WedgedStep(s, q, moves[0].act);
      WedgedForever(Step(s, q, moves[0].act), moves[1..], p);
    }
  }

  /** Such a state is reached by a crash between creating and writing the file. */
  lemma CrashedCreatorWedges(c: Claim, i: Inode)
    ensures Wedged(Run(INITIAL, [Move(0, Create(c, i)), Move(0, Crash)]))
  {
    Unroll2(INITIAL, [Move(0, Create(c, i)), Move(0, Crash)]);
  }

  // ---------- The exact exception to mutual exclusion ----------

  ghost predicate NoLateFailure(moves: seq<Move>) {
    forall m :: m in moves ==> !m.act.LateFails?
  }

  /** Two processes inside the lock at once. */
  ghost predicate TwoInside(s: State) {
    exists p, q :: p != q && Critical(s, p) && Critical(s, q)
  }

  lemma {:induction false} AboveAll(pids: set<nat>) returns (n: nat)
    ensures forall p :: p in pids ==> p < n
  {
    n := 0;
    if pids != {} {
      var p :| p in pids;
      var m := AboveAll(pids - {p});
      assert pids == (pids - {p}) + {p};
      n := if m > p then m else p + 1;
    }
  }

  /** The file system can always hand out an inode number. */
  lemma SomeFresh(s: State, i: Inode) returns (spare: Inode)
    ensures spare != i && Fresh(s, spare) && spare !in s.flock
  {
    var open := set p | p in s.procs :: InodeOf(s.procs[p]);
    var used := open + s.flock.Keys + {i} + if s.path.Some? then {s.path.value} else {};
    spare := AboveAll(used);
    assert forall p :: p in s.procs ==> InodeOf(s.procs[p]) in open;
  }

  function InodeOf(pc: Pc): Inode { if pc.Idle? then 0 else pc.inode }

  lemma Closes(s: State, p: Pid, rest: seq<Move>) returns (t: State)
    requires At(s, p).Failed? && At(s, p).created
    ensures t == Drop(s, p, Cleanup(At(s, p).inode))
    ensures Run(s, [Move(p, CloseFailed)] + rest) == Run(t, rest)
  {
    FirstMove(s, Move(p, CloseFailed), rest);
    t := Step(s, p, CloseFailed);
  }

  lemma Unlinks(s: State, p: Pid) returns (t: State)
    requires At(s, p).Cleanup? && s.path == Some(At(s, p).inode)
    ensures t == Goto(s.(path := None), p, Idle)
    ensures Run(s, [Move(p, StatCleanup), Move(p, UnlinkCleanup)]) == t
  {
    Unroll2(s, [Move(p, StatCleanup), Move(p, UnlinkCleanup)]);
    var u := Step(s, p, StatCleanup);
    t := Step(u, p, UnlinkCleanup);
    assert t.procs == s.procs[p := Idle];
  }

  /** Acquiring, or cleaning up after a failed attempt, for one of these authorizations. */
  predicate GetsIn(a: Act, claims: set<Claim>) {
    match a
    case Create(c, _) => c in claims
    case OpenExisting(c) => c in claims
    case Flock => true
    case WriteRecord => true
    case StatPath => true
    case ReadRecord => true
    case CloseFailed => true
    case StatCleanup => true
    case UnlinkCleanup => true
    case _ => false
  }

  ghost predicate AllGetIn(moves: seq<Move>, claims: set<Claim>) {
    forall m :: m in moves ==> GetsIn(m.act, claims)
  }

  lemma GetInBoth(a: seq<Move>, b: seq<Move>, c: set<Claim>, d: set<Claim>)
    requires AllGetIn(a, c) && AllGetIn(b, d)
    ensures AllGetIn(a + b, c + d)
  {
    forall m | m in a + b ensures GetsIn(m.act, c + d) {}
  }

  lemma AcquiringGetsIn(s: State, p: Pid, c: Claim, spare: Inode)
    ensures AllGetIn(AcquireMoves(s, p, c, spare), {c})
  {
  }

  /** The creator lets the advisory lock go, and another process of the same authorization
      recovers the complete record. */
  lemma RecoveredMeanwhile(s: State, p: Pid, q: Pid) returns (moves: seq<Move>, t: State)
    requires Inv(s) && RecordComplete(At(s, p)) && At(s, q).Idle?
    ensures AllGetIn(moves, {At(s, p).claim}) && t == Run(Step(s, p, LateFails), moves)
    ensures Critical(t, q) && At(t, q).claim == At(s, p).claim && At(t, p).Cleanup? && t.path == Some(At(t, p).inode)
    ensures forall r :: r != p && r != q ==> At(t, r) == At(s, r)
  {
    var i, mine := At(s, p).inode, At(s, p).claim;
    assert PointOk(s, p, s.procs[p]);
    var failed := Step(s, p, LateFails);
    var closed := Closes(failed, p, []);
    assert [Move(p, CloseFailed)] + [] == [Move(p, CloseFailed)];
    t := Recovered(closed, q, mine, i);
    moves := [Move(p, CloseFailed)] + AcquireMoves(closed, q, mine, i);
    RunOver(failed, [Move(p, CloseFailed)], AcquireMoves(closed, q, mine, i));
    AcquiringGetsIn(closed, q, mine, i);
  }

  /** A creator that cleans up unlinks its name, and another process creates it anew. */
  lemma CreatedAnew(s: State, p: Pid, r: Pid, c: Claim) returns (moves: seq<Move>, t: State)
    requires At(s, p).Cleanup? && s.path == Some(At(s, p).inode) && At(s, r).Idle?
    ensures AllGetIn(moves, {c}) && t == Run(s, moves)
    ensures Critical(t, r) && At(t, r).claim == c && forall q :: q != p && q != r ==> At(t, q) == At(s, q)
  {
    var unlink := [Move(p, StatCleanup), Move(p, UnlinkCleanup)];
    var free := Unlinks(s, p);
    var spare := SomeFresh(free, 0);
    t := Created(free, r, c, spare);
    moves := unlink + AcquireMoves(free, r, c, spare);
    RunOver(s, unlink, AcquireMoves(free, r, c, spare));
    AcquiringGetsIn(free, r, c, spare);
  }

  /** Then the creator unlinks the name, and a third process creates it anew. */
  lemma AfterLateFailure(s: State, p: Pid, q: Pid, r: Pid, c: Claim) returns (rest: seq<Move>)
    requires Inv(s) && RecordComplete(At(s, p)) && At(s, q).Idle? && At(s, r).Idle? && q != r
    ensures AllGetIn(rest, {At(s, p).claim, c})
    ensures var t := Run(Step(s, p, LateFails), rest);
            Critical(t, q) && Critical(t, r) && At(t, q).claim == At(s, p).claim && At(t, r).claim == c
  {
    var recover, held := RecoveredMeanwhile(s, p, q);
    var create, t := CreatedAnew(held, p, r, c);
    rest := recover + create;
    RunOver(Step(s, p, LateFails), recover, create);
    GetInBoth(recover, create, {At(s, p).claim}, {c});
    assert {At(s, p).claim} + {c} == {At(s, p).claim, c};
  }

  /** The I/O error that an acquiring process can meet where it stands. */
  function FailureAt(pc: Pc): Act { if RecordComplete(pc) then LateFails else EarlyFails }

  /** An I/O error that meets p while it acquires lets two processes in later, without any
      further late failure, exactly when p is a creator whose record is complete. */
  lemma ExclusionExactly(s: State, p: Pid)
    requires Inv(s)
    ensures RecordComplete(At(s, p)) <==>
            exists rest :: NoLateFailure(rest) && TwoInside(Run(Step(s, p, FailureAt(At(s, p))), rest))
  {
    var failed := Step(s, p, FailureAt(At(s, p)));
    if RecordComplete(At(s, p)) {
      var q := AboveAll(s.procs.Keys);
      var rest := AfterLateFailure(s, p, q, q + 1, "");
      assert NoLateFailure(rest);
      assert TwoInside(Run(failed, rest));
    } else {
      StepKeepsInv(s, p, EarlyFails);
      forall rest | NoLateFailure(rest) ensures !TwoInside(Run(failed, rest)) {
        RunKeepsInv(failed, rest);
        NeverTwo(Run(failed, rest));
      }
    }
  }

  lemma NeverTwo(s: State)
    requires Inv(s)
    ensures !TwoInside(s)
  {
    forall p, q | Critical(s, p) && Critical(s, q) ensures p == q { OneCritical(s, p, q); }
  }

  /** Such a creator is reachable: both stages of it, from the start. */
  lemma LateFailureReachable(c: Claim, i: Inode)
    ensures var s := Run(INITIAL, [Move(0, Create(c, i)), Move(0, Flock), Move(0, WriteRecord)]);
            At(s, 0) == Written(i, c) && forall q :: q != 0 ==> At(s, q).Idle?
    ensures RecordComplete(At(Run(INITIAL, [Move(0, Create(c, i)), Move(0, Flock), Move(0, WriteRecord), Move(0, StatPath)]), 0))
  {
    var stat := [Move(0, StatPath)];
    var write, flock := [Move(0, WriteRecord)], [Move(0, Flock)];
    var s1 := Creates(INITIAL, 0, c, i, flock + write);
    var s2 := Flocks(s1, 0, write);
    var s3 := Writes(s2, 0, []);
    assert write + [] == write;
    assert [Move(0, Create(c, i))] + (flock + write) == [Move(0, Create(c, i)), Move(0, Flock), Move(0, WriteRecord)];
    var u1 := Creates(INITIAL, 0, c, i, flock + (write + stat));
    var u2 := Flocks(u1, 0, write + stat);
    var u3 := Writes(u2, 0, stat);
    var u4 := Stats(u3, 0, []);
    assert stat + [] == stat;
    assert [Move(0, Create(c, i))] + (flock + (write + stat))
        == [Move(0, Create(c, i)), Move(0, Flock), Move(0, WriteRecord), Move(0, StatPath)];
  }
}
