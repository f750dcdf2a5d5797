/** Whole calls: authorize, apply, authorize the restore, restore, and the target is as before. */
module ControlledWriteRoundTrip {
  import opened Wrappers
  import opened Records
  import opened Ledger
  import opened Operation
  import opened OperationProofs
  import opened OperationProgress
  import opened ControlledWrite
  import opened ControlledWriteProofs
  import opened ControlledWriteProgress
  import V = ControlledWriteVerdicts
  import L = LockFile

  /** Neither a late lock failure nor anything from outside. */
  ghost predicate Calm(acts: seq<Act>) { forall a :: a in acts ==> !Late(a) && !a.Disturb? }

  /** Only steps of one call: of the lock and of the run. */
  ghost predicate Calling(acts: seq<Act>) { forall a :: a in acts ==> a.Work? || (a.Lock? && !Late(a)) }

  // ---------- A call from outside the lock to outside the lock ----------

  lemma CheckLeaves(op: Op, t: Target, r: Run, ch: Choice, evidence: Option<Bytes>)
    requires OpOk(op, t) && RunOk(op, r) && op.clean && EvidenceOk(op, evidence) && Smooth(ch) && r.stage.Checking?
    ensures Step(op, t, r, ch, evidence) == Stay(op, t, r, Leaving)
  {
    CheckDecides(op, t, evidence);
  }

  lemma LeavesOnly(s: State, p: Pid, ch: Choice, id: string)
    requires p in s.runs && id in s.ops && s.runs[p].operation == id
    requires Step(s.ops[id], s.target, s.runs[p], ch, Evidence(s, s.ops[id])) == Stay(s.ops[id], s.target, s.runs[p], Leaving)
    ensures var n := Next(s, Work(p, ch));
            n.lock == s.lock && n.ops == s.ops && n.target == s.target && p in n.runs && n.runs[p].stage.Leaving?
  {
    assert s.ops[id := s.ops[id]] == s.ops;
  }

  /** The final check of a settled operation lets its run leave. */
  lemma ChecksOut(s: State, p: Pid, id: string, ch: Choice)
    requires Working(s, p, id, ch.call) && Smooth(ch) && s.runs[p].stage.Checking?
    ensures var n := Next(s, Work(p, ch));
            && Inv(n) && n.lock == s.lock && n.ops == s.ops && n.target == s.target
            && p in n.runs && n.runs[p].stage.Leaving?
  {
    EvidenceHolds(s, id);
    CheckLeaves(s.ops[id], s.target, s.runs[p], ch, Evidence(s, s.ops[id]));
    LeavesOnly(s, p, ch, id);
    NextKeeps(s, Work(p, ch));
  }

  lemma LocksStep(s: State, p: Pid, a: L.Act, rest: seq<Act>) returns (n: State)
    requires LockStepAllowed(s, p, a)
    ensures n.lock == L.Step(s.lock, p, a) && n.ops == s.ops && n.target == s.target
    ensures L.Critical(n.lock, p) && L.Critical(s.lock, p) ==> n.runs == s.runs
    ensures Play(s, [Lock(p, a)] + rest) == Play(n, rest)
  {
    n := Next(s, Lock(p, a));
    PlayFirst(s, Lock(p, a), rest);
  }

  lemma ReleaseActs(p: Pid)
    ensures Locks(L.ReleaseMoves(p)) == [Lock(p, L.CheckRelease)] + ([Lock(p, L.UnlinkName)] + ([Lock(p, L.Unlock)] + []))
  {
  }

  lemma ReleaseSteps(s: State, p: Pid) returns (k: State)
    requires Inv(s) && p in s.runs && s.runs[p].stage.Leaving? && L.Alone(s.lock, p)
    ensures Play(s, [Lock(p, L.CheckRelease)] + ([Lock(p, L.UnlinkName)] + ([Lock(p, L.Unlock)] + []))) == k
    ensures k.lock == L.Step(L.Step(L.Step(s.lock, p, L.CheckRelease), p, L.UnlinkName), p, L.Unlock)
    ensures k.ops == s.ops && k.target == s.target
  {
    assert L.PointOk(s.lock, p, s.lock.procs[p]);
    var n := LocksStep(s, p, L.CheckRelease, [Lock(p, L.UnlinkName)] + ([Lock(p, L.Unlock)] + []));
    var m := LocksStep(n, p, L.UnlinkName, [Lock(p, L.Unlock)] + []);
    k := LocksStep(m, p, L.Unlock, []);
  }

  /** The three steps of a release, by a run that is done. */
  lemma ReleasePlays(s: State, p: Pid)
    requires Inv(s) && p in s.runs && s.runs[p].stage.Leaving? && L.Alone(s.lock, p)
    ensures var n := Play(s, Locks(L.ReleaseMoves(p)));
            n.lock == L.Run(s.lock, L.ReleaseMoves(p)) && n.ops == s.ops && n.target == s.target
  {
    var k := ReleaseSteps(s, p);
    ReleaseActs(p);
    L.ReleaseIs(s.lock, p);
  }

  /** A run that is done releases the lock and takes its name away. */
  lemma Releases(s: State, p: Pid) returns (acts: seq<Act>)
    requires Inv(s) && p in s.runs && s.runs[p].stage.Leaving? && L.Alone(s.lock, p)
    ensures Calling(acts)
    ensures var n := Play(s, acts);
            Inv(n) && n.ops == s.ops && n.target == s.target && L.Quiet(n.lock) && n.lock.path.None?
  {
    acts := Locks(L.ReleaseMoves(p));
    ReleasePlays(s, p);
    L.ReleasesAlone(s.lock, p);
    PlayKeeps(s, acts);
  }

  lemma SettledStays(s: State, n: State, id: string)
    requires Settled(s, id) && n.ops == s.ops && n.target == s.target
    ensures Settled(n, id)
  {
  }

  /** Inside the lock, from the first step to letting go. */
  lemma CallInside(s: State, p: Pid, id: string, ch: Choice) returns (acts: seq<Act>)
    requires Working(s, p, id, ch.call) && Smooth(ch) && L.Alone(s.lock, p)
    ensures Calling(acts)
    ensures var n := Play(s, acts);
            && Inv(n) && Settled(n, id) && n.ops[id].clean && L.Quiet(n.lock) && n.lock.path.None?
            && (if Judging(s.runs[p].stage, ch.call) then n.ops[id].replacements == s.ops[id].replacements else n.ops[id].replacements == 1)
  {
    var working := RunsToTheEnd(s, p, id, ch);
    var done := Play(s, working);
    ChecksOut(done, p, id, ch);
    var leaving := Releases(Next(done, Work(p, ch)), p);
    SettledStays(done, Play(Next(done, Work(p, ch)), leaving), id);
    PlayFirst(done, Work(p, ch), leaving);
    PlayOver(s, working, [Work(p, ch)] + leaving);
    acts := working + ([Work(p, ch)] + leaving);
  }

  /** From any quiet state whose lock name is free or holds this authorization's record, one whole
      call settles an undisturbed operation and leaves a quiet state with the lock name free. */
  lemma CallThrough(s: State, p: Pid, id: string, spare: L.Inode) returns (acts: seq<Act>)
    requires Inv(s) && id in s.ops && s.ops[id].clean && L.Quiet(s.lock) && L.Fresh(s.lock, spare)
    requires s.lock.path.None? || L.HasRecord(s.lock, s.lock.path.value, id)
    ensures Calling(acts)
    ensures var n := Play(s, acts);
            && Inv(n) && Settled(n, id) && n.ops[id].clean && L.Quiet(n.lock) && n.lock.path.None?
            && (if HasIntent(s.ops[id].ledger) then n.ops[id].replacements == s.ops[id].replacements else n.ops[id].replacements == 1)
  {
    var entering := EnterLock(s, p, id, spare);
    var ch := Choice(if HasIntent(s.ops[id].ledger) then Reconcile else Execute, NoFault, Completed, spare);
    var inside := CallInside(Play(s, entering), p, id, ch);
    PlayOver(s, entering, inside);
    acts := entering + inside;
  }

  // ---------- What an authorization says stays ----------

  lemma AuthStay(s: State, act: Act, id: string)
    requires id in s.ops
    ensures id in Next(s, act).ops && Next(s, act).ops[id].auth == s.ops[id].auth && Next(s, act).ops[id].source == s.ops[id].source
  {
  }

  lemma {:induction false} AuthStays(s: State, acts: seq<Act>, id: string)
    requires id in s.ops
    ensures var n := Play(s, acts); id in n.ops && n.ops[id].auth == s.ops[id].auth && n.ops[id].source == s.ops[id].source
    decreases |acts|
  {
    if acts != [] {
      AuthStay(s, acts[0], id);
      AuthStays(Next(s, acts[0]), acts[1..], id);
    }
  }

  lemma {:induction false} NoneAdded(s: State, acts: seq<Act>)
    requires Calling(acts)
    ensures Play(s, acts).ops.Keys == s.ops.Keys
    decreases |acts|
  {
    if acts != [] { NoneAdded(Next(s, acts[0]), acts[1..]); }
  }

  // ---------- Authorizing a restore ----------

  /** The authorization to put back what the apply found: bound to the target as it stands. */
  ghost predicate RestoreFor(n: State, s: State, id: string, nonce: string, hash: Digest, source: string)
    requires source in s.ops && s.target.file.Some?
  {
    && id in n.ops && n.ops == s.ops[id := n.ops[id]] && n.target == s.target && n.lock == s.lock && n.runs == s.runs
    && var op, started := n.ops[id], s.ops[source].auth.current;
       && op.source == Some(source) && op.ledger == [] && op.backup.None? && op.replacements == 0 && op.clean
       && op.auth == Authorization(RestoreBackup, id, nonce, hash, Observe(s.target.file.value), started.sha, started.size, started.mode,
                                   s.target.parentDevice, s.target.parentInode)
  }

  /** After a settled undisturbed apply a restore under a new id is authorized if and only if the
      apply was committed, and then it is bound to the target as it stands and to the bytes, size
      and mode that the apply found. */
  lemma RestoreAuthorized(s: State, id: string, nonce: string, hash: Digest, source: string)
    requires Inv(s) && source in s.ops && id !in s.ops && s.ops[source].source.None? && s.ops[source].clean && LastIsReceipt(s.ops[source])
    ensures s.target.file.Some?
    ensures var n := Next(s, AuthorizeRestore(id, nonce, hash, source));
            if s.ops[source].ledger[|s.ops[source].ledger| - 1].payload.body.terminal == Committed
            then RestoreFor(n, s, id, nonce, hash, source) else n == s
  {
    var op := s.ops[source];
    EvidenceHolds(s, source);
    CheckDecides(op, s.target, Evidence(s, op));
    CleanTarget(op, s.target);
    ReceiptFacts(op);
  }

  /** An unfinished apply, a restore or an unknown operation authorizes no restore. */
  lemma RestoreRefused(s: State, id: string, nonce: string, hash: Digest, source: string)
    requires source !in s.ops || s.ops[source].source.Some? || !LastIsReceipt(s.ops[source]) || id in s.ops
    ensures Next(s, AuthorizeRestore(id, nonce, hash, source)) == s
  {
  }

  // ---------- The round trip ----------

  lemma Authorized(t: Target, id: string, nonce: string, hash: Digest, proposal: Bytes) returns (acts: seq<Act>)
    requires t.file.Some? && proposal != t.file.value.content
    ensures Calm(acts)
    ensures var s := Play(Initial(t), acts);
            && Inv(s) && id in s.ops && s.ops.Keys == {id} && s.ops[id].clean && s.ops[id].source.None? && s.ops[id].ledger == []
            && s.ops[id].auth == Authorization(ApplyProposal, id, nonce, hash, Observe(t.file.value), OfBytes(proposal), |proposal|,
                                               t.file.value.mode, t.parentDevice, t.parentInode)
            && L.Quiet(s.lock) && s.lock.path.None? && s.target == t
  {
    acts := [Authorize(id, nonce, hash, proposal)];
    PlayFirst(Initial(t), acts[0], []);
    assert acts == [acts[0]] + [];
    Reachable(t, acts);
  }

  /** The apply that the source promises: committed, and the target shows the proposal. */
  lemma Applies(t: Target, id: string, nonce: string, hash: Digest, proposal: Bytes) returns (acts: seq<Act>)
    requires t.file.Some? && proposal != t.file.value.content
    ensures Calm(acts)
    ensures var s := Play(Initial(t), acts);
            && Inv(s) && Applied(s, id) && s.ops.Keys == {id} && s.ops[id].auth.current == Observe(t.file.value)
            && s.target.file.Some? && s.target.file.value.content == proposal && s.target.file.value.mode == t.file.value.mode
  {
    var authorize := Authorized(t, id, nonce, hash, proposal);
    var s := Play(Initial(t), authorize);
    var call := CallThrough(s, 0, id, 0);
    AuthStays(s, call, id);
    NoneAdded(s, call);
    PlayOver(Initial(t), authorize, call);
    acts := authorize + call;
    CleanTarget(Play(s, call).ops[id], Play(s, call).target);
  }

  /** A committed, undisturbed apply, with nobody inside. */
  ghost predicate Applied(s: State, id: string) {
    && id in s.ops && s.ops[id].clean && s.ops[id].source.None? && LastIsReceipt(s.ops[id])
    && s.ops[id].ledger[|s.ops[id].ledger| - 1].payload.body.terminal == Committed
    && L.Quiet(s.lock) && s.lock.path.None?
  }

  /** From there a restore puts the bytes and the mode back that the apply had found. */
  lemma Restores(s: State, source: string, id: string, nonce: string, hash: Digest) returns (acts: seq<Act>)
    requires Inv(s) && Applied(s, source) && id !in s.ops
    ensures Calm(acts)
    ensures var n := Play(s, acts);
            && id in n.ops && n.ops[id].auth.action == RestoreBackup && n.ops[id].replacements == 1 && Settled(n, id)
            && n.target.file.Some? && OfBytes(n.target.file.value.content) == s.ops[source].auth.current.sha
            && n.target.file.value.mode == s.ops[source].auth.current.mode
  {
    var authorize := AuthorizeRestore(id, nonce, hash, source);
    RestoreAuthorized(s, id, nonce, hash, source);
    NextKeeps(s, authorize);
    var m := Next(s, authorize);
    var call := CallThrough(m, 0, id, 0);
    AuthStays(m, call, id);
    PlayFirst(s, authorize, call);
    acts := [authorize] + call;
    CleanTarget(Play(m, call).ops[id], Play(m, call).target);
  }

  /** For every target and every differing proposal there is a calm run that applies the proposal
      and then restores the target to the bytes and the mode that it had. */
  lemma RoundTrip(t: Target, a: string, b: string, nonce: string, hash: Digest, proposal: Bytes) returns (apply: seq<Act>, restore: seq<Act>)
    requires t.file.Some? && proposal != t.file.value.content && a != b
    ensures Calm(apply) && Calm(restore)
    ensures var s := Play(Initial(t), apply); s.target.file.Some? && s.target.file.value.content == proposal
    ensures var s := Play(Initial(t), apply + restore);
            && s.target.file.Some? && s.target.file.value.content == t.file.value.content
            && s.target.file.value.mode == t.file.value.mode && b in s.ops && s.ops[b].auth.action == RestoreBackup && Settled(s, b)
  {
    apply := Applies(t, a, nonce, hash, proposal);
    restore := Restores(Play(Initial(t), apply), a, b, nonce, hash);
    PlayOver(Initial(t), apply, restore);
  }
}
