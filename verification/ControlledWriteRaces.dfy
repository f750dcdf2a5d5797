/** What the protocol keeps whatever becomes of the lock: after a late lock failure any
    number of processes may be inside at once, for different authorizations or for one. */
module ControlledWriteRaces {
  import opened Wrappers
  import opened Records
  import opened Ledger
  import opened Operation
  import opened OperationProofs
  import opened OperationProgress
  import opened ControlledWrite
  import opened ControlledWriteProofs
  import opened ControlledWriteProgress
  import L = LockFile

  // ---------- The invariant ----------

  /** What an operation keeps without the target and without exclusion. */
  ghost predicate OpCore(op: Op) {
    var a := op.auth;
    && Accepted(op.ledger, a)
    && (op.backup.Some? ==> var f := op.backup.value;
          OfBytes(f.content) == a.current.sha && |f.content| == a.current.size && f.mode == RESTRICTED)
    && (ManifestOf(op.ledger).Some? ==> BackupMatches(op))
    && op.replacements <= 1
    && (op.replacements == 1 ==> HasDispatch(op.ledger))
  }

  /** Between its own dispatch and the replacement. */
  predicate Armed(r: Run) { r.stage.Validating? || r.stage.Replacing? }

  /** What a run knows that no other process can take away from it. */
  predicate RunCore(op: Op, r: Run) {
    match r.stage
    case BackingUp => LocalsOk(op, r)
    case Manifesting => LocalsOk(op, r) && op.backup.Some?
    case Intending => LocalsOk(op, r)
    case Staging => LocalsOk(op, r)
    case Dispatching => LocalsOk(op, r) && ShowsDesired(r.staged, op.auth)
    case Validating => LocalsOk(op, r) && ShowsDesired(r.staged, op.auth) && HasDispatch(op.ledger) && op.replacements == 0
    case Replacing => LocalsOk(op, r) && ShowsDesired(r.staged, op.auth) && HasDispatch(op.ledger) && op.replacements == 0
    case Observing => LocalsOk(op, r)
    case _ => true
  }

  ghost predicate RunsCore(s: State) {
    forall p :: p in s.runs ==>
      if s.runs[p].operation in s.ops then RunCore(s.ops[s.runs[p].operation], s.runs[p]) else s.runs[p].stage.Begin?
  }

  /** For each authorization at most one run is armed. */
  ghost predicate OneArmed(s: State) {
    forall p, q ::
      p in s.runs && q in s.runs && Armed(s.runs[p]) && Armed(s.runs[q]) && s.runs[p].operation == s.runs[q].operation ==>
        p == q
  }

  ghost predicate RunsMatch(s: State) {
    forall p :: (p in s.runs <==> L.Critical(s.lock, p)) && (p in s.runs ==> s.runs[p].operation == L.At(s.lock, p).claim)
  }

  ghost predicate Core(s: State) {
    && (forall id :: id in s.ops ==> OpCore(s.ops[id]))
    && RunsCore(s) && OneArmed(s) && RunsMatch(s)
  }

  // ---------- One step of one run ----------

  /** What a step must establish: the core facts, and a run is newly armed only by the
      operation's first dispatch. */
  ghost predicate CoreStep(op: Op, r: Run, o: Outcome) {
    && OpCore(o.op) && RunCore(o.op, o.run)
    && (Armed(o.run) && !Armed(r) ==> !HasDispatch(op.ledger) && HasDispatch(o.op.ledger))
    && (o.replaced ==> Armed(r) && !Armed(o.run))
  }

  lemma AppendCoreOp(op: Op, b: Body)
    requires OpCore(op) && Admissible(op.ledger, Make(op, b), op.auth) && (b.Manifest? ==> ManifestBody(op) == Some(b))
    ensures OpCore(Appended(op, b))
  {
    Grow(op.ledger, Make(op, b));
    ExtendAccepted(op.ledger, Make(op, b), op.auth);
    if b.Manifest? { ManifestFacts(op.ledger, Make(op, b), op.auth); }
  }

  lemma AppendCore(op: Op, t: Target, r: Run, b: Body, next: Stage, fault: Fault)
    requires OpCore(op) && (b.Manifest? ==> ManifestBody(op) == Some(b))
    requires Admissible(op.ledger, Make(op, b), op.auth) ==> RunCore(Appended(op, b), r.(stage := next))
    requires next.Validating? ==> b.Dispatch?
    requires !next.Replacing?
    ensures CoreStep(op, r, Append(op, t, r, b, next, fault))
  {
    Grow(op.ledger, Make(op, b));
    if Admissible(op.ledger, Make(op, b), op.auth) { AppendCoreOp(op, b); }
  }

  lemma ExecuteCore(op: Op, t: Target, r: Run, ch: Choice, evidence: Option<Bytes>)
    requires OpCore(op)
    ensures CoreStep(op, r, StepExecute(op, t, r, ch, evidence))
  {
    if StartVerdict(op, t, evidence) == Go {
      AppendCore(op, t, r.(before := t.file.value, desired := evidence.value), StartBody(op, t, evidence).value, BackingUp, ch.fault);
    }
  }

  lemma ReconcileCore(op: Op, t: Target, r: Run, ch: Choice)
    requires OpCore(op)
    ensures CoreStep(op, r, StepReconcile(op, t, r, ch))
  {
    if ReconcileBody(op, t, ch.fsync).Some? {
      AppendCore(op, t, r, ReconcileBody(op, t, ch.fsync).value, AfterReconcile(op, t, ch.fsync), ch.fault);
    }
  }

  lemma ManifestCore(op: Op, t: Target, r: Run, ch: Choice)
    requires OpCore(op) && r.stage.Manifesting? && RunCore(op, r)
    ensures CoreStep(op, r, StepManifest(op, t, r, ch))
  {
    if ManifestBody(op).Some? { AppendCore(op, t, r, ManifestBody(op).value, Intending, ch.fault); }
  }

  lemma IntentCore(op: Op, t: Target, r: Run, ch: Choice)
    requires OpCore(op) && r.stage.Intending? && RunCore(op, r)
    ensures CoreStep(op, r, StepIntent(op, t, r, ch))
  {
    AppendCore(op, t, r, IntentBody(op, r), Staging, ch.fault);
  }

  /** Whoever appends the dispatch is the first, so nothing has been replaced yet. */
  lemma DispatchCore(op: Op, t: Target, r: Run, ch: Choice)
    requires OpCore(op) && r.stage.Dispatching? && RunCore(op, r)
    ensures CoreStep(op, r, StepDispatch(op, t, r, ch))
  {
    if DispatchBody(op, t, r).Some? {
      Grow(op.ledger, Make(op, DispatchBody(op, t, r).value));
      AppendCore(op, t, r, DispatchBody(op, t, r).value, Validating, ch.fault);
    }
  }

  lemma ObserveCore(op: Op, t: Target, r: Run, ch: Choice)
    requires OpCore(op) && r.stage.Observing?
    ensures CoreStep(op, r, StepObserve(op, t, r, ch))
  {
    if t.file.Some? {
      var b := PostBody(op, t, r, ch.fsync).value;
      AppendCore(op, t, r, b, AfterObserve(op, b), ch.fault);
    }
  }

  lemma ReceiptCore(op: Op, t: Target, r: Run, ch: Choice, terminal: Terminal)
    requires OpCore(op) && (r.stage.Committing? || r.stage.Deciding?)
    ensures CoreStep(op, r, StepReceipt(op, t, r, ch, terminal))
  {
    if DecisionBody(op, t, terminal).Some? {
      AppendCore(op, t, r, DecisionBody(op, t, terminal).value, Checking(terminal), ch.fault);
    }
  }

  lemma FailCore(op: Op, t: Target, r: Run, ch: Choice, code: Option<string>)
    requires OpCore(op) && r.stage.Failing?
    ensures CoreStep(op, r, StepFail(op, t, r, ch, code))
  {
    FailShape(op, t, r, ch, code);
    if StepFail(op, t, r, ch, code).op != op { AppendCoreOp(op, AttentionBody(op, t, code).value); }
  }

  lemma BackupCore(op: Op, t: Target, r: Run, ch: Choice)
    requires OpCore(op) && r.stage.BackingUp? && RunCore(op, r)
    ensures CoreStep(op, r, StepBackup(op, t, r, ch))
  {
  }

  lemma ReplaceCore(op: Op, t: Target, r: Run, ch: Choice)
    requires OpCore(op) && r.stage.Replacing? && RunCore(op, r)
    ensures CoreStep(op, r, StepReplace(op, t, r, ch))
  {
  }

  lemma StageCore(op: Op, t: Target, r: Run, ch: Choice)
    requires OpCore(op) && RunCore(op, r)
    ensures r.stage.Staging? ==> CoreStep(op, r, StepStage(op, t, r, ch))
    ensures r.stage.Validating? ==> CoreStep(op, r, StepValidate(op, t, r, ch))
  {
  }

  lemma EarlyStepCore(op: Op, t: Target, r: Run, ch: Choice, evidence: Option<Bytes>)
    requires OpCore(op) && RunCore(op, r)
    requires r.stage.Begin? || r.stage.BackingUp? || r.stage.Manifesting? || r.stage.Intending? || r.stage.Dispatching?
    ensures CoreStep(op, r, Step(op, t, r, ch, evidence))
  {
    match r.stage {
      case Begin =>
        ExecuteCore(op, t, r, ch, evidence);
        ReconcileCore(op, t, r, ch);
      case BackingUp => BackupCore(op, t, r, ch);
      case Manifesting => ManifestCore(op, t, r, ch);
      case Intending => IntentCore(op, t, r, ch);
      case Dispatching => DispatchCore(op, t, r, ch);
    }
  }

  /** Every step of a run keeps the core facts, with any number of others about. */
  lemma StepCore(op: Op, t: Target, r: Run, ch: Choice, evidence: Option<Bytes>)
    requires OpCore(op) && RunCore(op, r)
    ensures CoreStep(op, r, Step(op, t, r, ch, evidence))
  {
    match r.stage {
      case Replacing => ReplaceCore(op, t, r, ch);
      case Observing => ObserveCore(op, t, r, ch);
      case Committing => ReceiptCore(op, t, r, ch, Committed);
      case Deciding(terminal) => ReceiptCore(op, t, r, ch, terminal);
      case Failing(code) => FailCore(op, t, r, ch, code);
      case Checking(_) =>
      case Leaving =>
      case Abandoning =>
      case Staging => StageCore(op, t, r, ch);
      case Validating => StageCore(op, t, r, ch);
      case _ => EarlyStepCore(op, t, r, ch, evidence);
    }
  }

  // ---------- Every step of the protocol ----------

  /** Another run of the same operation loses nothing by a step, unless it was armed and this
      one replaced the target. */
  lemma OtherRunCore(op: Op, t: Target, r: Run, o: Outcome, other: Run)
    requires Framed(op, t, r, o) && RunCore(op, other) && !(o.replaced && Armed(other))
    ensures RunCore(o.op, other)
  {
    if HasDispatch(op.ledger) {
      var e :| e in op.ledger && e.payload.body.Dispatch?;
      assert o.op.ledger[..|op.ledger|] == op.ledger;
    }
  }

  lemma SpoiledCore(op: Op)
    requires OpCore(op)
    ensures OpCore(op.(clean := false))
  {
  }

  lemma OutcomeOps(s: State, p: Pid, o: Outcome)
    requires Core(s) && p in s.runs && s.runs[p].operation in s.ops && OpCore(o.op)
    ensures forall id :: id in WithOutcome(s, p, o).ops ==> OpCore(WithOutcome(s, p, o).ops[id])
  {
    forall id | id in WithOutcome(s, p, o).ops ensures OpCore(WithOutcome(s, p, o).ops[id]) {
      if id != s.runs[p].operation { SpoiledCore(s.ops[id]); }
    }
  }

  lemma OutcomeRuns(s: State, p: Pid, o: Outcome)
    requires Core(s) && p in s.runs && s.runs[p].operation in s.ops
    requires Framed(s.ops[s.runs[p].operation], s.target, s.runs[p], o) && CoreStep(s.ops[s.runs[p].operation], s.runs[p], o)
    ensures RunsCore(WithOutcome(s, p, o))
  {
    var n, id := WithOutcome(s, p, o), s.runs[p].operation;
    forall q | q in n.runs
      ensures if n.runs[q].operation in n.ops then RunCore(n.ops[n.runs[q].operation], n.runs[q]) else n.runs[q].stage.Begin?
    {
      if q != p && s.runs[q].operation == id { OtherRunCore(s.ops[id], s.target, s.runs[p], o, s.runs[q]); }
    }
  }

  lemma OutcomeArmed(s: State, p: Pid, o: Outcome)
    requires Core(s) && p in s.runs && s.runs[p].operation in s.ops && o.run.operation == s.runs[p].operation
    requires CoreStep(s.ops[s.runs[p].operation], s.runs[p], o)
    ensures OneArmed(WithOutcome(s, p, o))
  {
    forall q | q in s.runs && q != p && Armed(s.runs[q]) && s.runs[q].operation == s.runs[p].operation ensures !Armed(o.run) {
      assert RunCore(s.ops[s.runs[q].operation], s.runs[q]);
    }
  }

  lemma WorkCore(s: State, p: Pid, ch: Choice)
    requires Core(s)
    ensures Core(WorkStep(s, p, ch))
  {
    if p in s.runs && s.runs[p].operation in s.ops {
      var op := s.ops[s.runs[p].operation];
      StepCore(op, s.target, s.runs[p], ch, Evidence(s, op));
      var o := Step(op, s.target, s.runs[p], ch, Evidence(s, op));
      OutcomeOps(s, p, o);
      OutcomeRuns(s, p, o);
      OutcomeArmed(s, p, o);
    }
  }

  lemma WithLockCore(s: State, p: Pid, lock: L.State)
    requires RunsCore(s) && OneArmed(s) && RunsMatch(s)
    requires forall q :: q != p ==> L.At(lock, q) == L.At(s.lock, q)
    requires L.Critical(s.lock, p) && L.Critical(lock, p) ==> L.At(lock, p).claim == L.At(s.lock, p).claim
    ensures RunsCore(WithLock(s, p, lock)) && OneArmed(WithLock(s, p, lock)) && RunsMatch(WithLock(s, p, lock))
  {
    var n := WithLock(s, p, lock);
    assert forall q :: q in n.runs && q != p ==> q in s.runs && n.runs[q] == s.runs[q];
    assert p in n.runs ==> n.runs[p].stage.Begin? || (p in s.runs && n.runs[p] == s.runs[p]);
  }

  lemma LockCore(s: State, p: Pid, a: L.Act)
    requires Core(s)
    ensures Core(LockStep(s, p, a))
  {
    if LockStepAllowed(s, p, a) {
      OthersStay(s.lock, p, a);
      if L.Critical(s.lock, p) && L.Critical(L.Step(s.lock, p, a), p) { CriticalKeepsClaim(s.lock, p, a); }
      WithLockCore(s, p, L.Step(s.lock, p, a));
    }
  }

  lemma AddingCore(s: State, id: string, op: Op)
    requires Core(s) && id !in s.ops && op.ledger == [] && op.backup.None? && op.replacements == 0
    ensures Core(s.(ops := s.ops[id := op]))
  {
  }

  lemma DisturbCore(s: State, t: Target)
    requires Core(s)
    ensures Core(Next(s, Disturb(t)))
  {
    var n := Next(s, Disturb(t));
    forall id | id in n.ops ensures OpCore(n.ops[id]) { SpoiledCore(s.ops[id]); }
  }

  lemma NextCore(s: State, act: Act)
    requires Core(s)
    ensures Core(Next(s, act))
  {
    match act {
      case Lock(p, a) => LockCore(s, p, a);
      case Work(p, ch) => WorkCore(s, p, ch);
      case Disturb(t) => DisturbCore(s, t);
      case Authorize(id, nonce, hash, proposal) =>
        var n := AuthorizeStep(s, id, nonce, hash, proposal);
        if n != s { AddingCore(s, id, n.ops[id]); }
      case AuthorizeRestore(id, nonce, hash, source) =>
        var n := AuthorizeRestoreStep(s, id, nonce, hash, source);
        if n != s { AddingCore(s, id, n.ops[id]); }
    }
  }

  lemma {:induction false} PlayCore(s: State, acts: seq<Act>)
    requires Core(s)
    ensures Core(Play(s, acts))
    decreases |acts|
  {
    if acts != [] {
      NextCore(s, acts[0]);
      PlayCore(Next(s, acts[0]), acts[1..]);
    }
  }

  lemma AlwaysCore(t: Target, acts: seq<Act>)
    ensures Core(Play(Initial(t), acts))
  {
    PlayCore(Initial(t), acts);
  }

  // ---------- What holds in every run ----------

  /** Single use: in every interleaving, with crashes, faults, outside interference and any
      number of processes let in by late lock failures, an authorization replaces the
      target at most once. */
  lemma SingleUse(t: Target, acts: seq<Act>, id: string)
    requires id in Play(Initial(t), acts).ops
    ensures Play(Initial(t), acts).ops[id].replacements <= 1
  {
    AlwaysCore(t, acts);
  }

  /** Backup before effect: once the target was replaced, the create-only backup holds
      exactly the authorized starting bytes, and the ledger holds the manifest describing
      that backup and the dispatch. */
  lemma BackupBeforeEffect(t: Target, acts: seq<Act>, id: string)
    requires id in Play(Initial(t), acts).ops && Play(Initial(t), acts).ops[id].replacements > 0
    ensures var op := Play(Initial(t), acts).ops[id];
            && op.backup.Some? && OfBytes(op.backup.value.content) == op.auth.current.sha
            && |op.backup.value.content| == op.auth.current.size
            && HasDispatch(op.ledger) && BackupMatches(op)
            && ManifestOf(op.ledger).value.payload.body.backupSha == op.auth.current.sha
  {
    AlwaysCore(t, acts);
    IntentBacked(Play(Initial(t), acts).ops[id]);
  }

  /** A run gets past its validation only while the target is, to its inode and mode, the file that
      was authorized and backed up: the backup then holds the target's bytes, whatever was done to the
      target before. Only what changes it between this check and the replacement can be lost. */
  lemma ValidatedIsBackedUp(t: Target, acts: seq<Act>, p: Pid, ch: Choice)
    requires var s := Play(Initial(t), acts);
             p in s.runs && s.runs[p].stage.Validating? && Next(s, Work(p, ch)).runs[p].stage.Replacing?
    ensures var s := Play(Initial(t), acts);
            && s.runs[p].operation in s.ops && s.target.file.Some?
            && var op, f := s.ops[s.runs[p].operation], s.target.file.value;
               && Observe(f) == op.auth.current && InPlace(s.target, op.auth)
               && op.backup.Some? && op.backup.value.content == f.content && BackupMatches(op)
  {
    var s := Play(Initial(t), acts);
    AlwaysCore(t, acts);
    IntentBacked(s.ops[s.runs[p].operation]);
  }

  /** The protocol changes the target only by a replacement whose dispatch is in the ledger,
      once for each authorization, and only to the authorized image. */
  lemma EveryChangeIsDispatched(t: Target, acts: seq<Act>, act: Act) returns (id: string)
    requires var s := Play(Initial(t), acts); !act.Disturb? && Next(s, act).target != s.target
    ensures var s := Play(Initial(t), acts);
            && id in s.ops && HasDispatch(s.ops[id].ledger)
            && s.ops[id].replacements == 0 && Next(s, act).ops[id].replacements == 1
            && Next(s, act).target.file.Some? && ShowsDesired(Next(s, act).target.file.value, s.ops[id].auth)
  {
    var s := Play(Initial(t), acts);
    AlwaysCore(t, acts);
    match act {
      case Work(p, ch) =>
        id := s.runs[p].operation;
        ReplacementCore(s.ops[id], s.target, s.runs[p], ch, Evidence(s, s.ops[id]));
    }
  }

  lemma ReplacementCore(op: Op, t: Target, r: Run, ch: Choice, evidence: Option<Bytes>)
    requires RunCore(op, r)
    ensures var o := Step(op, t, r, ch, evidence);
            o.target != t ==>
              && HasDispatch(op.ledger) && op.replacements == 0 && o.op.replacements == 1
              && o.target.file.Some? && ShowsDesired(o.target.file.value, op.auth)
  {
  }

  /** A ledger with a receipt is closed. */
  lemma ClosedOutcome(op: Op, t: Target, r: Run, o: Outcome)
    requires OpCore(op) && LastIsReceipt(op) && OpCore(o.op) && Framed(op, t, r, o)
    ensures o.op.ledger == op.ledger
  {
    if |o.op.ledger| > |op.ledger| {
      assert o.op.ledger[|op.ledger| - 1] == op.ledger[|op.ledger| - 1];
      OrderOfKinds(o.op.ledger, op.auth, |op.ledger| - 1, |op.ledger|);
    }
  }

  ghost predicate SomeArmed(s: State, id: string) {
    exists p :: p in s.runs && s.runs[p].operation == id && Armed(s.runs[p])
  }

  lemma ClosedWork(s: State, p: Pid, ch: Choice, id: string)
    requires Core(s) && id in s.ops && LastIsReceipt(s.ops[id]) && p in s.runs && s.runs[p].operation in s.ops
    ensures var n := WorkStep(s, p, ch);
            && id in n.ops && n.ops[id].ledger == s.ops[id].ledger
            && (!SomeArmed(s, id) ==> !SomeArmed(n, id) && n.ops[id].replacements == s.ops[id].replacements)
  {
    var op := s.ops[s.runs[p].operation];
    var o := Step(op, s.target, s.runs[p], ch, Evidence(s, op));
    StepCore(op, s.target, s.runs[p], ch, Evidence(s, op));
    if s.runs[p].operation == id { ClosedOutcome(op, s.target, s.runs[p], o); }
  }

  lemma ClosedLock(s: State, p: Pid, a: L.Act, id: string)
    requires !SomeArmed(s, id)
    ensures !SomeArmed(LockStep(s, p, a), id)
  {
    var n := LockStep(s, p, a);
    assert forall q :: q in n.runs ==> (q in s.runs && n.runs[q] == s.runs[q]) || n.runs[q].stage.Begin?;
  }

  /** After a receipt no step appends; it replaces only if its run was armed, and arms none. */
  lemma ClosedStep(s: State, act: Act, id: string)
    requires Core(s) && id in s.ops && LastIsReceipt(s.ops[id])
    ensures var n := Next(s, act);
            && id in n.ops && n.ops[id].ledger == s.ops[id].ledger
            && (!SomeArmed(s, id) ==> !SomeArmed(n, id) && n.ops[id].replacements == s.ops[id].replacements)
  {
    match act {
      case Work(p, ch) => if p in s.runs && s.runs[p].operation in s.ops { ClosedWork(s, p, ch, id); }
      case Lock(p, a) => if !SomeArmed(s, id) { ClosedLock(s, p, a, id); }
      case _ =>
    }
  }

  /** After a receipt the ledger never changes again, whatever becomes of the lock. */
  lemma {:induction false} LedgerClosed(s: State, acts: seq<Act>, id: string)
    requires Core(s) && id in s.ops && LastIsReceipt(s.ops[id])
    ensures id in Play(s, acts).ops && Play(s, acts).ops[id].ledger == s.ops[id].ledger
    ensures !SomeArmed(s, id) ==> Play(s, acts).ops[id].replacements == s.ops[id].replacements
    decreases |acts|
  {
    if acts != [] {
      ClosedStep(s, acts[0], id);
      NextCore(s, acts[0]);
      LedgerClosed(Next(s, acts[0]), acts[1..], id);
    }
  }

  // ---------- When a replacement can still follow a receipt ----------

  const SMOOTH: Choice := Choice(Execute, NoFault, Completed, 0)

  lemma ValidateStill(op: Op, t: Target, r: Run)
    requires RunCore(op, r) && r.stage.Validating? && InPlace(t, op.auth)
    requires t.file.Some? && Observe(t.file.value) == op.auth.current
    ensures StepValidate(op, t, r, SMOOTH) == Stay(op, t, r, Replacing)
  {
  }

  lemma ArmedValidates(s: State, p: Pid, id: string)
    requires Core(s) && id in s.ops && p in s.runs && s.runs[p].operation == id && s.runs[p].stage.Validating?
    requires InPlace(s.target, s.ops[id].auth) && s.target.file.Some? && Observe(s.target.file.value) == s.ops[id].auth.current
    ensures var n := Next(s, Work(p, SMOOTH));
            && Core(n) && n.ops == s.ops && n.target == s.target && p in n.runs
            && n.runs[p].operation == id && n.runs[p].stage.Replacing?
  {
    ValidateStill(s.ops[id], s.target, s.runs[p]);
    NextCore(s, Work(p, SMOOTH));
    assert s.ops[id := s.ops[id]] == s.ops;
  }

  lemma ArmedReplaces(s: State, p: Pid, id: string)
    requires Core(s) && id in s.ops && p in s.runs && s.runs[p].operation == id && s.runs[p].stage.Replacing?
    ensures var n := Next(s, Work(p, SMOOTH)); id in n.ops && n.ops[id] == s.ops[id].(replacements := 1)
  {
  }

  /** An armed run whose target still shows the authorized original replaces it. */
  lemma ArmedGoesOn(s: State, p: Pid, id: string) returns (acts: seq<Act>)
    requires Core(s) && id in s.ops && p in s.runs && s.runs[p].operation == id && Armed(s.runs[p])
    requires InPlace(s.target, s.ops[id].auth) && s.target.file.Some? && Observe(s.target.file.value) == s.ops[id].auth.current
    ensures forall a :: a in acts ==> a.Work?
    ensures id in Play(s, acts).ops && Play(s, acts).ops[id] == s.ops[id].(replacements := 1)
    decreases s.runs[p].stage.Validating?
  {
    var work := Work(p, SMOOTH);
    if s.runs[p].stage.Validating? {
      ArmedValidates(s, p, id);
      var rest := ArmedGoesOn(Next(s, work), p, id);
      acts := [work] + rest;
      PlayFirst(s, work, rest);
    } else {
      ArmedReplaces(s, p, id);
      acts := [work];
      PlayFirst(s, work, []);
      assert [work] + [] == [work];
    }
  }

  /** The target is replaced for the authorization in the course of these steps. */
  ghost predicate ReplacedIn(s: State, acts: seq<Act>, id: string)
    requires id in s.ops
  {
    id in Play(s, acts).ops && Play(s, acts).ops[id].replacements > s.ops[id].replacements
  }

  /** Putting the authorized original back lets an armed run go on. */
  lemma ArmedCanReplace(s: State, p: Pid, id: string) returns (acts: seq<Act>)
    requires Core(s) && id in s.ops && p in s.runs && s.runs[p].operation == id && Armed(s.runs[p])
    ensures id in Play(s, acts).ops && Play(s, acts).ops[id].replacements == 1
  {
    var back := Disturb(Target(Some(s.runs[p].before), s.ops[id].auth.parentDevice, s.ops[id].auth.parentInode));
    NextCore(s, back);
    var rest := ArmedGoesOn(Next(s, back), p, id);
    acts := [back] + rest;
    PlayFirst(s, back, rest);
  }

  /** After a receipt the target can still be replaced for its authorization exactly while some
      run stands between its dispatch and its replacement. */
  lemma ReplacedAfterReceipt(s: State, id: string)
    requires Core(s) && id in s.ops && LastIsReceipt(s.ops[id])
    ensures SomeArmed(s, id) <==> exists acts :: ReplacedIn(s, acts, id)
  {
    if SomeArmed(s, id) {
      var p :| p in s.runs && s.runs[p].operation == id && Armed(s.runs[p]);
      var acts := ArmedCanReplace(s, p, id);
      assert ReplacedIn(s, acts, id);
    } else {
      forall acts ensures !ReplacedIn(s, acts, id) { LedgerClosed(s, acts, id); }
    }
  }

  // ---------- A receipt that a late lock failure makes false ----------

  /** Lock steps that need no finished run. */
  predicate Enters(a: L.Act, id: string) { L.GetsIn(a, {id}) || a.LateFails? }

  /** Nobody inside has started to work. */
  ghost predicate Beginning(s: State) {
    RunsMatch(s) && forall p :: p in s.runs ==> s.runs[p].stage.Begin?
  }

  lemma EnterOne(s: State, p: Pid, a: L.Act, id: string)
    requires Beginning(s) && id in s.ops && Enters(a, id)
    ensures var n := Next(s, Lock(p, a));
            Beginning(n) && n.lock == L.Step(s.lock, p, a) && n.ops == s.ops && n.target == s.target
  {
    OthersStay(s.lock, p, a);
    if L.Critical(s.lock, p) && L.Critical(L.Step(s.lock, p, a), p) { CriticalKeepsClaim(s.lock, p, a); }
  }

  lemma {:induction false} EnterAll(s: State, moves: seq<L.Move>, id: string)
    requires Beginning(s) && id in s.ops && forall m :: m in moves ==> Enters(m.act, id)
    ensures var n := Play(s, Locks(moves));
            Beginning(n) && n.lock == L.Run(s.lock, moves) && n.ops == s.ops && n.target == s.target
    decreases |moves|
  {
    if moves != [] {
      assert Locks(moves)[1..] == Locks(moves[1..]);
      EnterOne(s, moves[0].pid, moves[0].act, id);
      EnterAll(Next(s, Lock(moves[0].pid, moves[0].act)), moves[1..], id);
    }
  }

  /** A creator fails late, and then two processes hold the lock for the same authorization. */
  lemma TwoGetIn(id: string) returns (moves: seq<L.Move>)
    ensures forall m :: m in moves ==> Enters(m.act, id)
    ensures var lock := L.Run(L.INITIAL, moves);
            L.Critical(lock, 1) && L.Critical(lock, 2) && L.At(lock, 1).claim == id && L.At(lock, 2).claim == id
  {
    var first := [L.Move(0, L.Create(id, 0)), L.Move(0, L.Flock), L.Move(0, L.WriteRecord)];
    var s := L.Run(L.INITIAL, first);
    L.LateFailureReachable(id, 0);
    L.RunKeepsInv(L.INITIAL, first);
    var rest := L.AfterLateFailure(s, 0, 1, 2, id);
    var late := [L.Move(0, L.LateFails)];
    L.RunOver(L.INITIAL, first, late + rest);
    L.FirstMove(s, late[0], rest);
    moves := first + (late + rest);
  }

  /** A run of an apply that nothing has disturbed, whoever else is inside. */
  ghost predicate Applying(s: State, p: Pid, id: string) {
    && p in s.runs && s.runs[p].operation == id && id in s.ops
    && s.ops[id].clean && s.ops[id].source.None? && EvidenceOk(s.ops[id], Some(s.ops[id].proposal))
    && OpOk(s.ops[id], s.target) && RunOk(s.ops[id], s.runs[p])
  }

  predicate OtherRunsStay(s: State, n: State, p: Pid) {
    forall q :: q in s.runs && q != p ==> q in n.runs && n.runs[q] == s.runs[q]
  }

  /** One step of an undisturbed apply, and what a run that starts with it comes to. */
  lemma ApplyGetsOn(s: State, p: Pid, id: string, ch: Choice) returns (n: State)
    requires Applying(s, p, id) && Smooth(ch) && !s.runs[p].stage.Failing?
    requires s.runs[p].stage.Begin? ==> (ch.call == Reconcile <==> HasIntent(s.ops[id].ledger))
    ensures Applying(n, p, id) && n.runs[p].stage == Onward(s.ops[id], s.runs[p].stage, ch.call)
    ensures !s.runs[p].stage.Replacing? ==> n.ops[id].replacements == s.ops[id].replacements
    ensures OtherRunsStay(s, n, p)
    ensures forall rest {:trigger Play(n, rest)} :: Play(s, [Work(p, ch)] + rest) == Play(n, rest)
  {
    n := Next(s, Work(p, ch));
    var op := s.ops[id];
    assert Evidence(s, op) == Some(op.proposal);
    StepKeeps(op, s.target, s.runs[p], ch, Some(op.proposal));
    GetsOn(op, s.target, s.runs[p], ch, Some(op.proposal));
    forall rest ensures Play(s, [Work(p, ch)] + rest) == Play(n, rest) { PlayFirst(s, Work(p, ch), rest); }
  }

  /** On its way to the replacement an apply gets closer with every step. */
  lemma TowardsArming(op: Op, stage: Stage)
    requires Rank(stage) > Rank(Validating)
    ensures var next := Onward(op, stage, Execute);
            Rank(Validating) <= Rank(next) < Rank(stage) && !next.Begin? && !next.Failing? && !stage.Failing? && !stage.Replacing?
  {
  }

  /** An apply from its first step to between dispatch and replacement, beside an idle process. */
  lemma {:induction false} ApplyArms(s: State, p: Pid, q: Pid, id: string) returns (acts: seq<Act>)
    requires Applying(s, p, id) && s.ops[id].replacements == 0 && Rank(s.runs[p].stage) >= Rank(Validating)
    requires s.runs[p].stage.Begin? ==> !HasIntent(s.ops[id].ledger)
    requires p != q && q in s.runs && s.runs[q].stage.Begin? && s.runs[q].operation == id
    ensures forall a :: a in acts ==> a.Work?
    ensures var n := Play(s, acts);
            && Applying(n, p, id) && n.runs[p].stage.Validating? && n.ops[id].replacements == 0
            && q in n.runs && n.runs[q] == s.runs[q]
    decreases Rank(s.runs[p].stage)
  {
    if s.runs[p].stage.Validating? {
      acts := [];
    } else {
      TowardsArming(s.ops[id], s.runs[p].stage);
      var n := ApplyGetsOn(s, p, id, SMOOTH);
      var rest := ApplyArms(n, p, q, id);
      acts := [Work(p, SMOOTH)] + rest;
      assert Play(s, acts) == Play(n, rest);
    }
  }

  const RECONCILE: Choice := Choice(Reconcile, NoFault, Completed, 0)

  /** Where a reconcile that finds no effect stands. */
  predicate FindingNothing(s: State, q: Pid, id: string)
    requires q in s.runs && id in s.ops
  {
    s.ops[id].replacements == 0 &&
    match s.runs[q].stage
    case Begin => HasIntent(s.ops[id].ledger) && !LastIsReceipt(s.ops[id])
    case Deciding(terminal) => terminal == FailedNoEffect
    case Checking(terminal) => terminal == FailedNoEffect
    case _ => false
  }

  /** Meanwhile the other process reconciles: it observes no effect and says so for good. */
  lemma {:induction false} ReconcilesBefore(s: State, p: Pid, q: Pid, id: string) returns (acts: seq<Act>)
    requires Applying(s, q, id) && FindingNothing(s, q, id) && p != q && p in s.runs
    ensures forall a :: a in acts ==> a.Work?
    ensures var n := Play(s, acts);
            && Applying(n, q, id) && FindingNothing(n, q, id) && n.runs[q].stage.Checking?
            && p in n.runs && n.runs[p] == s.runs[p]
    decreases Rank(s.runs[q].stage)
  {
    if s.runs[q].stage.Checking? {
      acts := [];
    } else {
      var n := ApplyGetsOn(s, q, id, RECONCILE);
      var rest := ReconcilesBefore(n, p, q, id);
      acts := [Work(q, RECONCILE)] + rest;
      assert Play(s, acts) == Play(n, rest);
    }
  }

  /** Two processes inside for one fresh apply: one gets up to the replacement, the other
      reconciles, and then the first one replaces the target. */
  lemma TwoInsideContradict(s: State, p: Pid, q: Pid, id: string) returns (acts: seq<Act>)
    requires Core(s) && Applying(s, p, id) && s.ops[id].replacements == 0 && s.ops[id].ledger == [] && p != q
    requires s.runs[p].stage.Begin? && q in s.runs && s.runs[q].stage.Begin? && s.runs[q].operation == id
    ensures forall a :: a in acts ==> a.Work?
    ensures Contradicted(Play(s, acts), id)
  {
    var arm := ApplyArms(s, p, q, id);
    var n := Play(s, arm);
    PlayCore(s, arm);
    TerminatedIsLast(n.ops[id]);
    assert Applying(n, q, id) && FindingNothing(n, q, id);
    var reconcile := ReconcilesBefore(n, p, q, id);
    var m := Play(n, reconcile);
    PlayCore(n, reconcile);
    var replace := ArmedGoesOn(m, p, id);
    PlayOver(n, reconcile, replace);
    PlayOver(s, arm, reconcile + replace);
    acts := arm + (reconcile + replace);
  }

  /** The receipt says that nothing happened, but the target was replaced, and by nobody else. */
  ghost predicate Contradicted(s: State, id: string) {
    && id in s.ops && s.ops[id].clean && LastIsReceipt(s.ops[id]) && s.ops[id].replacements == 1
    && s.ops[id].ledger[|s.ops[id].ledger| - 1].payload.body.terminal == FailedNoEffect
  }

  /** For every target and every proposal that changes it there is a run, without any outside
      interference, whose receipt is false: one late lock failure is enough. */
  lemma LateFailureBreaksVerdict(t: Target, id: string, nonce: string, hash: Digest, proposal: Bytes) returns (acts: seq<Act>)
    requires t.file.Some? && proposal != t.file.value.content
    ensures forall a :: a in acts ==> !a.Disturb?
    ensures Contradicted(Play(Initial(t), acts), id)
  {
    var authorize := [Authorize(id, nonce, hash, proposal)];
    var s := Play(Initial(t), authorize);
    assert s == Next(Initial(t), authorize[0]) by { PlayFirst(Initial(t), authorize[0], []); assert authorize + [] == authorize; }
    FreshOpOk(s.ops[id], t);
    var moves := TwoGetIn(id);
    EnterAll(s, moves, id);
    var n := Play(s, Locks(moves));
    AlwaysCore(t, authorize);
    PlayCore(s, Locks(moves));
    var rest := TwoInsideContradict(n, 1, 2, id);
    PlayOver(s, Locks(moves), rest);
    PlayOver(Initial(t), authorize, Locks(moves) + rest);
    acts := authorize + (Locks(moves) + rest);
  }
}
