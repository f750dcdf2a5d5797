/** No dead ends: from every reachable state that is quiet and undisturbed for an
    authorization, one more call ends in the terminal receipt that tells the truth. */
module ControlledWriteProgress {
  import opened Wrappers
  import opened Records
  import opened Ledger
  import opened Operation
  import opened OperationProofs
  import opened OperationProgress
  import opened ControlledWrite
  import opened ControlledWriteProofs
  import L = LockFile

  lemma EvidenceHolds(s: State, id: string)
    requires OpsOk(s) && id in s.ops
    ensures EvidenceOk(s.ops[id], Evidence(s, s.ops[id]))
  {
    assert OpOk(s.ops[id], s.target) && SourceOk(s.ops, s.ops[id]);
    if s.ops[id].source.Some? { assert OpOk(s.ops[s.ops[id].source.value], s.target); }
  }

  lemma {:induction false} PlayOver(s: State, first: seq<Act>, rest: seq<Act>)
    ensures Play(s, first + rest) == Play(Play(s, first), rest)
    decreases |first|
  {
    if first == [] {
      assert first + rest == rest;
    } else {
      assert (first + rest)[1..] == first[1..] + rest;
      PlayOver(Next(s, first[0]), first[1..], rest);
    }
  }

  // ---------- Getting into the lock ----------

  predicate Acquiring(a: L.Act, id: string) {
    match a
    case Create(c, _) => c == id
    case OpenExisting(c) => c == id
    case Flock => true
    case WriteRecord => true
    case StatPath => true
    case ReadRecord => true
    case _ => false
  }

  function Locks(moves: seq<L.Move>): seq<Act> {
    seq(|moves|, i requires 0 <= i < |moves| => Lock(moves[i].pid, moves[i].act))
  }

  lemma {:induction false} LockingOnly(s: State, p: Pid, moves: seq<L.Move>, id: string)
    requires id in s.ops && (p in s.runs ==> s.runs[p].stage.Begin?)
    requires forall m :: m in moves ==> m.pid == p && Acquiring(m.act, id)
    ensures var n := Play(s, Locks(moves));
            && n.lock == L.Run(s.lock, moves) && n.ops == s.ops && n.target == s.target
            && (p in n.runs ==> n.runs[p].stage.Begin?)
    decreases |moves|
  {
    if moves != [] {
      assert Locks(moves)[1..] == Locks(moves[1..]);
      assert Locks(moves)[0] == Lock(p, moves[0].act);
      LockingOnly(Next(s, Lock(p, moves[0].act)), p, moves[1..], id);
    }
  }

  lemma LocksOnly(moves: seq<L.Move>, id: string)
    requires forall m :: m in moves ==> Acquiring(m.act, id)
    ensures forall a :: a in Locks(moves) ==> a.Lock? && !Late(a)
  {
  }

  lemma EnterLock(s: State, p: Pid, id: string, spare: L.Inode) returns (acts: seq<Act>)
    requires Inv(s) && id in s.ops && L.Quiet(s.lock) && L.Fresh(s.lock, spare)
    requires s.lock.path.None? || L.HasRecord(s.lock, s.lock.path.value, id)
    ensures forall a :: a in acts ==> a.Lock? && !Late(a)
    ensures var n := Play(s, acts);
            && Inv(n) && n.ops == s.ops && n.target == s.target
            && p in n.runs && n.runs[p].stage.Begin? && n.runs[p].operation == id && L.Alone(n.lock, p)
  {
    var moves := L.AcquireMoves(s.lock, p, id, spare);
    acts := Locks(moves);
    AcquiringMoves(s.lock, p, id, spare);
    LocksOnly(moves, id);
    QuietHasNoRuns(s, p);
    LockingOnly(s, p, moves, id);
    PlayKeeps(s, acts);
    InsideAfter(s.lock, p, id, spare);
    IsInside(Play(s, acts), p, id);
  }

  lemma IsInside(n: State, p: Pid, id: string)
    requires Inv(n) && L.Critical(n.lock, p) && L.At(n.lock, p).claim == id
    ensures p in n.runs && n.runs[p].operation == id
  {
  }

  lemma AcquiringMoves(lock: L.State, p: Pid, id: string, spare: L.Inode)
    ensures forall m :: m in L.AcquireMoves(lock, p, id, spare) ==> m.pid == p && Acquiring(m.act, id)
  {}

  lemma QuietHasNoRuns(s: State, p: Pid)
    requires LockOk(s) && L.Quiet(s.lock)
    ensures p !in s.runs
  {
    assert !L.Critical(s.lock, p);
  }

  lemma InsideAfter(lock: L.State, p: Pid, id: string, spare: L.Inode)
    requires L.Inv(lock) && L.Quiet(lock) && L.Fresh(lock, spare)
    requires lock.path.None? || L.HasRecord(lock, lock.path.value, id)
    ensures L.Critical(L.Acquire(lock, p, id, spare), p) && L.At(L.Acquire(lock, p, id, spare), p).claim == id
    ensures L.Alone(L.Acquire(lock, p, id, spare), p)
  {
    L.AcquirableIff(lock, p, id, spare);
    L.AcquiresAlone(lock, p, id, spare);
  }

  // ---------- Running to the end ----------

  function Rank(stage: Stage): nat {
    match stage
    case Begin => 10
    case BackingUp => 9
    case Manifesting => 8
    case Intending => 7
    case Staging => 6
    case Dispatching => 5
    case Validating => 4
    case Replacing => 3
    case Observing => 2
    case Committing => 1
    case Deciding(_) => 1
    case _ => 0
  }

  /** Stages from which only what happened before can still be judged. */
  predicate Judging(stage: Stage, call: Call) {
    stage.Deciding? || stage.Checking? || (stage.Begin? && call == Reconcile)
  }

  ghost predicate Settled(s: State, id: string) {
    id in s.ops && Settles(s.ops[id], s.target, Evidence(s, s.ops[id]))
  }

  /** Process p works on an undisturbed operation, with the call that fits its ledger. */
  ghost predicate Working(s: State, p: Pid, id: string, call: Call) {
    && Inv(s) && p in s.runs && s.runs[p].operation == id && id in s.ops && s.ops[id].clean
    && var stage := s.runs[p].stage;
       && !stage.Failing? && !stage.Leaving? && !stage.Abandoning?
       && (stage.Begin? ==> (call == Reconcile <==> HasIntent(s.ops[id].ledger)))
  }

  lemma WorkGetsOn(s: State, p: Pid, id: string, ch: Choice)
    requires Working(s, p, id, ch.call) && Smooth(ch)
    ensures var n := Next(s, Work(p, ch));
            && Inv(n) && p in n.runs && n.runs[p].operation == id && id in n.ops && n.ops[id].clean
            && n.runs[p].stage == Onward(s.ops[id], s.runs[p].stage, ch.call) && n.lock == s.lock
            && (!s.runs[p].stage.Replacing? ==> n.ops[id].replacements == s.ops[id].replacements)
  {
    NextKeeps(s, Work(p, ch));
    EvidenceHolds(s, id);
    GetsOn(s.ops[id], s.target, s.runs[p], ch, Evidence(s, s.ops[id]));
  }

  lemma WorkGetsCloser(s: State, p: Pid, id: string, ch: Choice)
    requires Working(s, p, id, ch.call) && Smooth(ch) && !s.runs[p].stage.Checking?
    ensures var n := Next(s, Work(p, ch));
            && Working(n, p, id, ch.call) && Rank(n.runs[p].stage) < Rank(s.runs[p].stage) && n.lock == s.lock
            && (if Judging(s.runs[p].stage, ch.call)
                then Judging(n.runs[p].stage, ch.call) && n.ops[id].replacements == s.ops[id].replacements
                else if s.runs[p].stage.Committing? then n.ops[id].replacements == 1
                else !Judging(n.runs[p].stage, ch.call))
  {
    WorkGetsOn(s, p, id, ch);
    OnwardIsCloser(s.ops[id], s.runs[p].stage, ch.call);
    if s.runs[p].stage.Committing? { CommittingIsReplaced(s.ops[id], s.target, s.runs[p]); }
  }

  lemma OnwardIsCloser(op: Op, stage: Stage, call: Call)
    requires !stage.Checking? && !stage.Failing? && !stage.Leaving? && !stage.Abandoning?
    ensures var next := Onward(op, stage, call);
            && Rank(next) < Rank(stage) && !next.Failing? && !next.Leaving? && !next.Abandoning? && !next.Begin?
            && (if Judging(stage, call) then Judging(next, call) else stage.Committing? || !Judging(next, call))
  {}

  lemma CommittingIsReplaced(op: Op, t: Target, r: Run)
    requires OpOk(op, t) && RunOk(op, r) && r.stage.Committing? && op.clean
    ensures op.replacements == 1
  {}

  lemma {:induction false} RunsToTheEnd(s: State, p: Pid, id: string, ch: Choice) returns (acts: seq<Act>)
    requires Working(s, p, id, ch.call) && Smooth(ch)
    ensures Settled(Play(s, acts), id) && forall a :: a in acts ==> a.Work?
    ensures var n := Play(s, acts); Working(n, p, id, ch.call) && n.runs[p].stage.Checking? && n.lock == s.lock
    ensures if Judging(s.runs[p].stage, ch.call) then Play(s, acts).ops[id].replacements == s.ops[id].replacements
            else Play(s, acts).ops[id].replacements == 1
    decreases Rank(s.runs[p].stage)
  {
    if s.runs[p].stage.Checking? {
      acts := [];
      CheckingIsSettled(s, p, id);
    } else {
      WorkGetsCloser(s, p, id, ch);
      var rest := RunsToTheEnd(Next(s, Work(p, ch)), p, id, ch);
      acts := [Work(p, ch)] + rest;
      PlayFirst(s, Work(p, ch), rest);
    }
  }

  lemma PlayFirst(s: State, a: Act, rest: seq<Act>)
    ensures Play(s, [a] + rest) == Play(Next(s, a), rest)
  {
    assert ([a] + rest)[1..] == rest;
  }

  lemma CheckingIsSettled(s: State, p: Pid, id: string)
    requires Inv(s) && p in s.runs && s.runs[p].stage.Checking? && s.runs[p].operation == id && s.ops[id].clean
    ensures Settled(s, id)
  {
    EvidenceHolds(s, id);
    CheckingSettles(s.ops[id], s.target, s.runs[p], Evidence(s, s.ops[id]));
  }

  lemma CheckingSettles(op: Op, t: Target, r: Run, evidence: Option<Bytes>)
    requires OpOk(op, t) && RunOk(op, r) && r.stage.Checking? && op.clean && EvidenceOk(op, evidence)
    ensures Settles(op, t, evidence)
  {
    CheckDecides(op, t, evidence);
  }

  /** From every reachable quiet state whose lock name is free or holds this
      authorization's record, an undisturbed operation can be settled by one call:
      by `apply` or `restore` when it has no intent yet, and then the target is
      replaced; by `reconcile` when it has, and then the receipt says COMMITTED
      exactly if the replacement had already happened. */
  lemma NoDeadEnd(t: Target, past: seq<Act>, p: Pid, id: string, spare: L.Inode) returns (acts: seq<Act>)
    requires NoLateFailure(past)
    requires var s := Play(Initial(t), past);
             && id in s.ops && s.ops[id].clean && L.Quiet(s.lock) && L.Fresh(s.lock, spare)
             && (s.lock.path.None? || L.HasRecord(s.lock, s.lock.path.value, id))
    ensures var s := Play(Initial(t), past);
            && Settled(Play(s, acts), id)
            && (if HasIntent(s.ops[id].ledger) then Play(s, acts).ops[id].replacements == s.ops[id].replacements
                else Play(s, acts).ops[id].replacements == 1)
  {
    var s := Play(Initial(t), past);
    Reachable(t, past);
    var entering := EnterLock(s, p, id, spare);
    var call := if HasIntent(s.ops[id].ledger) then Reconcile else Execute;
    var working := RunsToTheEnd(Play(s, entering), p, id, Choice(call, NoFault, Completed, spare));
    PlayOver(s, entering, working);
    acts := entering + working;
  }
}
