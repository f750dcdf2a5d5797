/** The whole controlled-write protocol on one target: any number of processes
    calling `apply`, `restore` and `reconcile` for any number of authorizations,
    interleaved one system call at a time, crashing anywhere, with the lock file of
    module LockFile between them and outsiders changing the target at will. */
module ControlledWrite {
  import opened Wrappers
  import opened Records
  import opened Ledger
  import opened Operation
  import opened OperationProofs
  import opened OperationProgress
  import L = LockFile

  type Pid = L.Pid

  datatype State = State(lock: L.State, target: Target, ops: map<string, Op>, runs: map<Pid, Run>)

  datatype Act =
    | Lock(pid: Pid, act: L.Act)
    | Work(pid: Pid, choice: Choice)
    | Disturb(target: Target)
    | Authorize(id: string, nonce: string, hash: Digest, proposal: Bytes)
    | AuthorizeRestore(id: string, nonce: string, hash: Digest, source: string)

  function Initial(t: Target): State { State(L.INITIAL, t, map[], map[]) }

  /** The bytes a run will write: the proposal's, or the backup of the operation to undo. */
  function Evidence(s: State, op: Op): Option<Bytes> {
    if op.source.None? then Some(op.proposal)
    else if op.source.value in s.ops && s.ops[op.source.value].backup.Some?
    then Some(s.ops[op.source.value].backup.value.content)
    else None
  }

  /** Which lock steps the protocol takes: only existing authorizations lock, and a
      holder lets go only once its run is over. */
  predicate LockStepAllowed(s: State, p: Pid, a: L.Act) {
    match a
    case Create(c, _) => c in s.ops
    case OpenExisting(c) => c in s.ops
    case CheckRelease => p in s.runs && s.runs[p].stage.Leaving?
    case UnlinkName => p in s.runs && s.runs[p].stage.Leaving?
    case Abandon => p in s.runs && s.runs[p].stage.Abandoning?
    case _ => true
  }

  function LockStep(s: State, p: Pid, a: L.Act): State {
    if LockStepAllowed(s, p, a) then WithLock(s, p, L.Step(s.lock, p, a)) else s
  }

  /** A run starts when its process gets into the lock and ends when it gets out. */
  function WithLock(s: State, p: Pid, lock: L.State): State {
    var runs := if !L.Critical(lock, p) then s.runs - {p}
                else if L.Critical(s.lock, p) then s.runs
                else s.runs[p := Run(L.At(lock, p).claim, Begin, NoFile(), [], NoFile())];
    s.(lock := lock, runs := runs)
  }

  function Spoil(ops: map<string, Op>): map<string, Op> { map id | id in ops :: ops[id].(clean := false) }

  function WorkStep(s: State, p: Pid, ch: Choice): State {
    if p !in s.runs || s.runs[p].operation !in s.ops then s
    else
      var id := s.runs[p].operation;
      WithOutcome(s, p, Step(s.ops[id], s.target, s.runs[p], ch, Evidence(s, s.ops[id])))
  }

  function WithOutcome(s: State, p: Pid, o: Outcome): State
    requires p in s.runs
  {
    State(s.lock, o.target, (if o.replaced then Spoil(s.ops) else s.ops)[s.runs[p].operation := o.op], s.runs[p := o.run])
  }

  /** `create_authorization`: bound to the target as it stands; the proposal differs from it. */
  function AuthorizeStep(s: State, id: string, nonce: string, hash: Digest, proposal: Bytes): State {
    if id in s.ops || s.target.file.None? || proposal == s.target.file.value.content then s
    else
      var f := s.target.file.value;
      var a := Authorization(ApplyProposal, id, nonce, hash, Observe(f), OfBytes(proposal), |proposal|, f.mode,
                             s.target.parentDevice, s.target.parentInode);
      s.(ops := s.ops[id := Op(a, None, proposal, [], None, 0, true)])
  }

  predicate Restorable(s: State, source: string) {
    source in s.ops && s.ops[source].source.None? && LastIsReceipt(s.ops[source])
    && Check(s.ops[source], s.target, Evidence(s, s.ops[source])) == Decided(Committed)
  }

  /** `create_restore_authorization`: back to the backup of a committed apply. */
  function AuthorizeRestoreStep(s: State, id: string, nonce: string, hash: Digest, source: string): State {
    if id in s.ops || !Restorable(s, source) || s.target.file.None? || !BackupMatches(s.ops[source]) then s
    else
      var f, copy := s.target.file.value, s.ops[source].backup.value;
      var a := Authorization(RestoreBackup, id, nonce, hash, Observe(f), OfBytes(copy.content), |copy.content|,
                             ManifestOf(s.ops[source].ledger).value.payload.body.sourceMode,
                             s.target.parentDevice, s.target.parentInode);
      s.(ops := s.ops[id := Op(a, Some(source), [], [], None, 0, true)])
  }

  function Next(s: State, act: Act): State {
    match act
    case Lock(p, a) => LockStep(s, p, a)
    case Work(p, ch) => WorkStep(s, p, ch)
    case Disturb(t) => s.(target := t, ops := Spoil(s.ops))
    case Authorize(id, nonce, hash, proposal) => AuthorizeStep(s, id, nonce, hash, proposal)
    case AuthorizeRestore(id, nonce, hash, source) => AuthorizeRestoreStep(s, id, nonce, hash, source)
  }

  function Play(s: State, acts: seq<Act>): State
    decreases |acts|
  {
    if acts == [] then s else Play(Next(s, acts[0]), acts[1..])
  }

  /** An I/O error that meets a creator after its lock record is complete, and so can let
      several processes in (see LockFile.ExclusionExactly). */
  predicate Late(act: Act) { act.Lock? && act.act.LateFails? }

  ghost predicate NoLateFailure(acts: seq<Act>) { forall a :: a in acts ==> !Late(a) }

  // ---------- The invariant while the lock excludes ----------

  predicate Claims(pc: L.Pc) { pc.Opened? || pc.Locked? || pc.Written? || pc.Statted? || pc.Held? || pc.Releasing? }

  predicate SourceOk(ops: map<string, Op>, op: Op) {
    if op.source.None? then
      OfBytes(op.proposal) == op.auth.desiredSha && |op.proposal| == op.auth.desiredSize
    else
      op.source.value in ops
      && var source := ops[op.source.value];
         && source.source.None? && ManifestOf(source.ledger).Some?
         && op.auth.desiredSha == source.auth.current.sha && op.auth.desiredSize == source.auth.current.size
         && op.auth.desiredMode == source.auth.current.mode
  }

  ghost predicate LockOk(s: State) {
    && L.Inv(s.lock)
    && (forall p :: p in s.lock.procs && Claims(s.lock.procs[p]) ==> s.lock.procs[p].claim in s.ops)
    && (forall p :: p in s.runs <==> L.Critical(s.lock, p))
  }

  ghost predicate OpsOk(s: State) {
    forall id :: id in s.ops ==> OpOk(s.ops[id], s.target) && SourceOk(s.ops, s.ops[id])
  }

  ghost predicate RunsOk(s: State) {
    forall p :: p in s.runs ==>
      && L.Critical(s.lock, p) && s.runs[p].operation == L.At(s.lock, p).claim
      && s.runs[p].operation in s.ops && RunOk(s.ops[s.runs[p].operation], s.runs[p])
  }

  ghost predicate Inv(s: State) { LockOk(s) && OpsOk(s) && RunsOk(s) }
}
