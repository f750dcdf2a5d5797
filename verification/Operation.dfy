/** One authorized operation as its lock holder executes it: the steps of `apply`,
    `restore`, `reconcile` and the failure handler on the target, the create-only
    backup and the ledger. Every step may fail before or after its effect. */
module Operation {
  import opened Wrappers
  import opened Records
  import opened Ledger

  datatype File = File(content: Bytes, device: nat, inode: nat, mode: nat)

  /** The target name (empty when nothing readable is there) and its directory. */
  datatype Target = Target(file: Option<File>, parentDevice: nat, parentInode: nat)

  /** `replacements` counts the replacements of the target made for this authorization;
      `clean` is lost when anything else changes the target. Both are bookkeeping of
      the model that no step of the protocol reads. */
  datatype Op = Op(auth: Authorization, source: Option<string>, proposal: Bytes,
                   ledger: seq<Event>, backup: Option<File>, replacements: nat, clean: bool)

  datatype Call = Execute | Reconcile

  datatype Stage =
    | Begin
    | BackingUp
    | Manifesting
    | Intending
    | Staging
    | Dispatching
    | Validating
    | Replacing
    | Observing
    | Committing
    | Deciding(terminal: Terminal)
    | Checking(terminal: Terminal)
    | Failing(code: Option<string>)
    | Leaving
    | Abandoning

  /** A lock holder's local variables: the image it found, the one it wants, the staged file. */
  datatype Run = Run(operation: string, stage: Stage, before: File, desired: Bytes, staged: File)

  /** A system call that fails, before or after its effect; a code marks the
      errors raised as attention, none the ordinary ones. */
  datatype Fault = NoFault | Before(code: Option<string>) | After(code: Option<string>)

  datatype Choice = Choice(call: Call, fault: Fault, fsync: Fsync, inode: nat)

  const RESTRICTED: nat := 384

  function Observe(f: File): Observation { Observation(OfBytes(f.content), |f.content|, f.device, f.inode, f.mode) }

  function NoFile(): File { File([], 0, 0, 0) }

  predicate InPlace(t: Target, a: Authorization) {
    t.parentDevice == a.parentDevice && t.parentInode == a.parentInode
  }

  predicate ShowsCurrent(f: File, a: Authorization) {
    OfBytes(f.content) == a.current.sha && |f.content| == a.current.size && f.mode == a.current.mode
  }

  predicate ShowsDesired(f: File, a: Authorization) {
    OfBytes(f.content) == a.desiredSha && |f.content| == a.desiredSize && f.mode == a.desiredMode
  }

  /** `_classify_target_effect` */
  function Classify(t: Target, a: Authorization): Effect {
    if t.file.None? then Unknown
    else if !InPlace(t, a) then ExternalDrift
    else if ShowsDesired(t.file.value, a) then EffectPresent
    else if ShowsCurrent(t.file.value, a) then NoEffect
    else ExternalDrift
  }

  /** `_make` inside `_append_event`: the next self-authenticating event. */
  function Make(op: Op, b: Body): Event {
    var a := op.auth;
    var p := Payload(|op.ledger| + 1, a.operation, a.hash, LastHash(op.ledger, a), a.action, b);
    Event(p, OfPayload(p))
  }

  predicate BackupMatches(op: Op) {
    op.backup.Some? && ManifestOf(op.ledger).Some?
    && var f, m := op.backup.value, ManifestOf(op.ledger).value.payload.body;
       && m.restricted && m.fsynced && f.mode == RESTRICTED && f.mode == m.backupMode
       && m.sourceMode == op.auth.current.mode
       && OfBytes(f.content) == m.backupSha && |f.content| == m.backupSize
  }

  predicate LastIsReceipt(op: Op) {
    op.ledger != [] && op.ledger[|op.ledger|-1].payload.body.Receipt?
  }

  /** What a step finds out before it may go on. */
  datatype Verdict = Go | Stop(code: Option<string>)

  /** The checks of `apply` and `restore` up to their first append. */
  function StartVerdict(op: Op, t: Target, evidence: Option<Bytes>): Verdict {
    var a := op.auth;
    if a.action == ApplyProposal && LastIsReceipt(op) then Stop(Some("ALREADY_TERMINAL"))
    else if a.action == RestoreBackup && HasIntent(op.ledger) then Stop(Some("RECONCILE_REQUIRED"))
    else if evidence.None? || OfBytes(evidence.value) != a.desiredSha || |evidence.value| != a.desiredSize then Stop(None)
    else if t.file.None? || Observe(t.file.value) != a.current || !InPlace(t, a) then Stop(None)
    else if op.ledger == [] then Go
    else if HasIntent(op.ledger) || HasDispatch(op.ledger) || LatestPost(op.ledger).Some? || Terminated(op.ledger)
    then Stop(Some("RECONCILE_REQUIRED"))
    else if op.backup.Some? && (op.backup.value.content != t.file.value.content || op.backup.value.mode != RESTRICTED)
    then Stop(Some("BACKUP_VERIFY_FAILED"))
    else if ManifestOf(op.ledger).Some? && !BackupMatches(op) then Stop(Some("INVALID_BACKUP"))
    else Go
  }

  function RecoveryBody(op: Op, f: File): Body {
    var o := Observe(f);
    if op.backup.None? then Recovery(o, Absent, None, None, None)
    else var b := op.backup.value;
         Recovery(o, if ManifestOf(op.ledger).Some? then ExactManifested else ExactUnmanifested,
                  Some(OfBytes(b.content)), Some(|b.content|), Some(b.mode))
  }

  /** The checks of `reconcile` before it observes. */
  function ReconcileVerdict(op: Op, t: Target): Verdict {
    if ManifestOf(op.ledger).None? || !HasIntent(op.ledger) then Stop(Some("RECONCILE_REQUIRED"))
    else if !BackupMatches(op) then Stop(Some("INVALID_BACKUP"))
    else match Classify(t, op.auth)
         case Unknown => Stop(Some("TARGET_OBSERVATION_UNAVAILABLE"))
         case ExternalDrift => Stop(Some("EXTERNAL_DRIFT_BLOCKED"))
         case EffectPresent => if HasDispatch(op.ledger) then Go else Stop(Some("EXTERNAL_DRIFT_BLOCKED"))
         case NoEffect => Go
  }

  function ReceiptBody(op: Op, terminal: Terminal): Body
    requires ManifestOf(op.ledger).Some? && LatestPost(op.ledger).Some?
  {
    var a, m, p := op.auth, ManifestOf(op.ledger).value, LatestPost(op.ledger).value;
    var backup, o := m.payload.body, p.payload.body.observed;
    Receipt(terminal, m.hash, p.hash, backup.backupSha, backup.backupSize, a.current.mode,
            a.desiredSha, a.desiredSize, a.desiredMode, o.sha, o.size, o.mode,
            backup.backupSha, backup.backupSize, backup.backupMode)
  }

  function FailureCode(op: Op, code: Option<string>): string {
    if code.Some? then code.value
    else if HasDispatch(op.ledger) then "DISPATCH_OUTCOME_UNKNOWN"
    else if op.ledger != [] then "EXECUTION_ATTENTION"
    else "EXECUTION_REJECTED"
  }

  predicate NeedsAttention(op: Op, code: string) {
    op.ledger != [] && !LastIsReceipt(op)
    && var last := op.ledger[|op.ledger|-1].payload.body; !(last.Attention? && last.code == code)
  }

  // ---------- The event each appending stage proposes, if its checks let it get that far ----------

  function StartBody(op: Op, t: Target, evidence: Option<Bytes>): Option<Body> {
    if StartVerdict(op, t, evidence) != Go then None
    else if op.ledger == [] then Some(Preflight(Observe(t.file.value)))
    else Some(RecoveryBody(op, t.file.value))
  }

  function ReconcileBody(op: Op, t: Target, fsync: Fsync): Option<Body> {
    if LastIsReceipt(op) || ReconcileVerdict(op, t) != Go then None
    else Some(Post(Observe(t.file.value), op.auth.desiredMode, Classify(t, op.auth) == EffectPresent, true, fsync))
  }

  function ManifestBody(op: Op): Option<Body> {
    if ManifestOf(op.ledger).Some? || op.backup.None? then None
    else var f := op.backup.value;
         Some(Manifest(OfBytes(f.content), |f.content|, f.mode, op.auth.current.mode, true, true))
  }

  function IntentBody(op: Op, r: Run): Body { Intent(OfText(op.auth.nonce), OfBytes(r.desired), |r.desired|) }

  function DispatchBody(op: Op, t: Target, r: Run): Option<Body> {
    if t.file.None? || !Undrifted(t, op.auth, r.before) then None
    else var live := t.file.value;
         Some(Dispatch(Observe(r.staged), live.device, live.inode, live.mode, t.parentDevice, t.parentInode))
  }

  function PostBody(op: Op, t: Target, r: Run, fsync: Fsync): Option<Body> {
    if t.file.None? then None
    else Some(Post(Observe(t.file.value), op.auth.desiredMode, t.file.value.content == r.desired, InPlace(t, op.auth), fsync))
  }

  function DecisionBody(op: Op, t: Target, terminal: Terminal): Option<Body> {
    if ReceiptBindingOk(op, t) then Some(ReceiptBody(op, terminal)) else None
  }

  function AttentionBody(op: Op, t: Target, code: Option<string>): Option<Body> {
    var c := FailureCode(op, code);
    if NeedsAttention(op, c) then Some(Attention(c, Classify(t, op.auth))) else None
  }

  /** Content and identity as first observed, in the authorized directory. */
  predicate Undrifted(t: Target, a: Authorization, before: File)
    requires t.file.Some?
  {
    var live := t.file.value;
    live.content == before.content && live.device == before.device && live.inode == before.inode && InPlace(t, a)
  }

  /** `_receipt` re-reads the mode of the target against the post observation. */
  predicate ReceiptBindingOk(op: Op, t: Target) {
    && ManifestOf(op.ledger).Some? && LatestPost(op.ledger).Some? && t.file.Some?
    && ManifestOf(op.ledger).value.payload.body.restricted && ManifestOf(op.ledger).value.payload.body.fsynced
    && LatestPost(op.ledger).value.payload.body.observed.mode == t.file.value.mode
    && LatestPost(op.ledger).value.payload.body.expectedMode == op.auth.desiredMode
  }

  datatype CheckResult = AuthorizedNotDispatched | ReconcileRequired | TargetChanged | Decided(terminal: Terminal) | Rejected

  /** `check`: read-only judgement of ledger, backup, evidence and target. */
  function Check(op: Op, t: Target, evidence: Option<Bytes>): CheckResult {
    var a := op.auth;
    if op.ledger == [] then
      if t.file.Some? && Observe(t.file.value) == a.current && InPlace(t, a) then AuthorizedNotDispatched else Rejected
    else if LastIsReceipt(op) then
      var b := op.ledger[|op.ledger|-1].payload.body;
      if LatestPost(op.ledger).None? || !BackupMatches(op) then Rejected
      else
        var post, m := LatestPost(op.ledger).value.payload.body, ManifestOf(op.ledger).value.payload.body;
        if b.manifestHash != ManifestOf(op.ledger).value.hash || b.postHash != LatestPost(op.ledger).value.hash
           || b.copySha != m.backupSha || b.copySize != m.backupSize || b.copyMode != m.backupMode
           || post.fsync.Failed? || !post.scopeMatch || b.finalMode != post.observed.mode
           || evidence.None? || OfBytes(evidence.value) != a.desiredSha || |evidence.value| != a.desiredSize
        then Rejected
        else if t.file.None? || OfBytes(t.file.value.content) != b.finalSha || |t.file.value.content| != b.finalSize
                || t.file.value.device != post.observed.device || t.file.value.inode != post.observed.inode
                || t.file.value.mode != post.observed.mode || !InPlace(t, a)
        then TargetChanged
        else Decided(b.terminal)
    else if ManifestOf(op.ledger).Some? && !BackupMatches(op) then Rejected
    else match Classify(t, a)
         case NoEffect => ReconcileRequired
         case EffectPresent => if HasDispatch(op.ledger) then ReconcileRequired else Rejected
         case _ => Rejected
  }

  // ---------- Steps ----------

  datatype Outcome = Outcome(op: Op, target: Target, run: Run, replaced: bool)

  /** What no step touches: the authorization, the ledger written so far, a backup
      once made; and the target, except by the one replacing step. */
  predicate Framed(op: Op, t: Target, r: Run, o: Outcome) {
    && o.op.auth == op.auth && o.op.source == op.source && o.op.proposal == op.proposal && o.op.clean == op.clean
    && o.run.operation == r.operation
    && op.ledger <= o.op.ledger && |o.op.ledger| <= |op.ledger| + 1
    && (op.backup.Some? ==> o.op.backup == op.backup)
    && (if o.replaced then o.op.replacements == op.replacements + 1 && o.op.ledger == op.ledger
        else o.target == t && o.op.replacements == op.replacements)
  }

  function Stay(op: Op, t: Target, r: Run, stage: Stage): Outcome { Outcome(op, t, r.(stage := stage), false) }

  /** Read, validate, publish, confirm: `_append_event` as one atomic publication. */
  function Append(op: Op, t: Target, r: Run, b: Body, next: Stage, fault: Fault): (o: Outcome)
    ensures Framed(op, t, r, o) && !o.replaced
  {
    var e := Make(op, b);
    if fault.Before? then Stay(op, t, r, Failing(fault.code))
    else if !Admissible(op.ledger, e, op.auth) then Stay(op, t, r, Failing(None))
    else Stay(op.(ledger := op.ledger + [e]), t, r, if fault.After? then Failing(fault.code) else next)
  }

  function StepExecute(op: Op, t: Target, r: Run, ch: Choice, evidence: Option<Bytes>): (o: Outcome)
    ensures Framed(op, t, r, o) && !o.replaced
  {
    match StartVerdict(op, t, evidence)
    case Stop(code) => Stay(op, t, r, Failing(code))
    case Go =>
      Append(op, t, r.(before := t.file.value, desired := evidence.value), StartBody(op, t, evidence).value, BackingUp, ch.fault)
  }

  function StepReconcile(op: Op, t: Target, r: Run, ch: Choice): (o: Outcome)
    ensures Framed(op, t, r, o) && !o.replaced
  {
    if LastIsReceipt(op) then
      Stay(op, t, r, Checking(op.ledger[|op.ledger|-1].payload.body.terminal))
    else
      match ReconcileVerdict(op, t)
      case Stop(code) => Stay(op, t, r, Failing(code))
      case Go =>
        Append(op, t, r, ReconcileBody(op, t, ch.fsync).value,
               if ch.fsync.Failed? then Stage.Failing(Some("DIRECTORY_FSYNC_FAILED"))
               else Deciding(if Classify(t, op.auth) == EffectPresent then Committed else FailedNoEffect), ch.fault)
  }

  function StepBackup(op: Op, t: Target, r: Run, ch: Choice): (o: Outcome)
    ensures Framed(op, t, r, o) && !o.replaced
  {
    if ch.fault.Before? then Stay(op, t, r, Failing(ch.fault.code))
    else if op.backup.Some? then
      if op.backup.value.content != r.before.content || op.backup.value.mode != RESTRICTED
      then Stay(op, t, r, Failing(Some("BACKUP_VERIFY_FAILED")))
      else Stay(op, t, r, if ch.fault.After? then Failing(ch.fault.code) else Manifesting)
    else
      var copy := File(r.before.content, t.parentDevice, ch.inode, RESTRICTED);
      Stay(op.(backup := Some(copy)), t, r, if ch.fault.After? then Failing(ch.fault.code) else Manifesting)
  }

  function StepManifest(op: Op, t: Target, r: Run, ch: Choice): (o: Outcome)
    ensures Framed(op, t, r, o) && !o.replaced
  {
    match ManifestBody(op)
    case Some(b) => Append(op, t, r, b, Intending, ch.fault)
    case None => Stay(op, t, r, if ManifestOf(op.ledger).Some? then Intending else Failing(None))
  }

  function StepIntent(op: Op, t: Target, r: Run, ch: Choice): (o: Outcome)
    ensures Framed(op, t, r, o) && !o.replaced
  {
    Append(op, t, r, IntentBody(op, r), Staging, ch.fault)
  }

  function StepStage(op: Op, t: Target, r: Run, ch: Choice): (o: Outcome)
    ensures Framed(op, t, r, o) && !o.replaced
  {
    if !ch.fault.NoFault? then Stay(op, t, r, Failing(ch.fault.code))
    else Stay(op, t, r.(staged := File(r.desired, t.parentDevice, ch.inode, op.auth.desiredMode)), Dispatching)
  }

  function StepDispatch(op: Op, t: Target, r: Run, ch: Choice): (o: Outcome)
    ensures Framed(op, t, r, o) && !o.replaced
  {
    match DispatchBody(op, t, r)
    case Some(b) => Append(op, t, r, b, Validating, ch.fault)
    case None => Stay(op, t, r, Failing(if t.file.None? then None else Some("EXTERNAL_DRIFT_BLOCKED")))
  }

  /** `_validate_immediate_replace_state` */
  function StepValidate(op: Op, t: Target, r: Run, ch: Choice): (o: Outcome)
    ensures Framed(op, t, r, o) && !o.replaced
  {
    if !ch.fault.NoFault? then Stay(op, t, r, Failing(ch.fault.code))
    else if t.file.None? then Stay(op, t, r, Failing(None))
    else if !Undrifted(t, op.auth, r.before) || t.file.value.mode != op.auth.current.mode
            || r.staged.content != r.desired || r.staged.mode != op.auth.desiredMode
    then Stay(op, t, r, Failing(Some("EXTERNAL_DRIFT_BLOCKED")))
    else Stay(op, t, r, Replacing)
  }

  /** `os.replace`: atomic, but its error leaves the outcome open. */
  function StepReplace(op: Op, t: Target, r: Run, ch: Choice): (o: Outcome)
    ensures Framed(op, t, r, o)
  {
    var unknown := Stage.Failing(Some("DISPATCH_OUTCOME_UNKNOWN"));
    if ch.fault.Before? then Stay(op, t, r, unknown)
    else Outcome(op.(replacements := op.replacements + 1), t.(file := Some(r.staged)),
                 r.(stage := if ch.fault.After? then unknown else Observing), true)
  }

  function StepObserve(op: Op, t: Target, r: Run, ch: Choice): (o: Outcome)
    ensures Framed(op, t, r, o) && !o.replaced
  {
    match PostBody(op, t, r, ch.fsync)
    case None => Stay(op, t, r, Failing(None))
    case Some(b) =>
      Append(op, t, r, b,
             if !b.expectedMatch || b.observed.mode != op.auth.desiredMode || !b.scopeMatch || ch.fsync.Failed?
             then Stage.Failing(Some("EFFECT_PRESENT_ATTENTION")) else Committing, ch.fault)
  }

  function StepReceipt(op: Op, t: Target, r: Run, ch: Choice, terminal: Terminal): (o: Outcome)
    ensures Framed(op, t, r, o) && !o.replaced
  {
    match DecisionBody(op, t, terminal)
    case Some(b) => Append(op, t, r, b, Checking(terminal), ch.fault)
    case None => Stay(op, t, r, Failing(None))
  }

  function StepCheck(op: Op, t: Target, r: Run, ch: Choice, evidence: Option<Bytes>, terminal: Terminal): (o: Outcome)
    ensures Framed(op, t, r, o) && !o.replaced
  {
    if !ch.fault.NoFault? then Stay(op, t, r, Failing(ch.fault.code))
    else if Check(op, t, evidence) == Decided(terminal) then Stay(op, t, r, Leaving)
    else Stay(op, t, r, Failing(Some("POST_RECEIPT_VERIFY_FAILED")))
  }

  /** `_handle_operation_failure`: record the attention, then let the lock go; when
      the ledger cannot be read or written the lock record stays behind. */
  function StepFail(op: Op, t: Target, r: Run, ch: Choice, code: Option<string>): (o: Outcome)
    ensures Framed(op, t, r, o) && !o.replaced
  {
    if ch.fault.Before? then Stay(op, t, r, Abandoning)
    else match AttentionBody(op, t, code)
         case None => Stay(op, t, r, Leaving)
         case Some(b) =>
           var e := Make(op, b);
           if !Admissible(op.ledger, e, op.auth) then Stay(op, t, r, Abandoning)
           else Stay(op.(ledger := op.ledger + [e]), t, r, if ch.fault.After? then Abandoning else Leaving)
  }

  /** One step of the lock holder. */
  function Step(op: Op, t: Target, r: Run, ch: Choice, evidence: Option<Bytes>): (o: Outcome)
    ensures Framed(op, t, r, o)
    ensures o.replaced ==> r.stage.Replacing? && o.target == t.(file := Some(r.staged))
  {
    match r.stage
    case Begin =>
      if ch.fault.Before? then Stay(op, t, r, Failing(ch.fault.code))
      else if ch.call == Execute then StepExecute(op, t, r, ch, evidence)
      else StepReconcile(op, t, r, ch)
    case BackingUp => StepBackup(op, t, r, ch)
    case Manifesting => StepManifest(op, t, r, ch)
    case Intending => StepIntent(op, t, r, ch)
    case Staging => StepStage(op, t, r, ch)
    case Dispatching => StepDispatch(op, t, r, ch)
    case Validating => StepValidate(op, t, r, ch)
    case Replacing => StepReplace(op, t, r, ch)
    case Observing => StepObserve(op, t, r, ch)
    case Committing => StepReceipt(op, t, r, ch, Committed)
    case Deciding(terminal) => StepReceipt(op, t, r, ch, terminal)
    case Checking(terminal) => StepCheck(op, t, r, ch, evidence, terminal)
    case Failing(code) => StepFail(op, t, r, ch, code)
    case Leaving => Stay(op, t, r, Leaving)
    case Abandoning => Stay(op, t, r, Abandoning)
  }

  /** The event the next step would append. */
  function Proposed(op: Op, t: Target, r: Run, ch: Choice, evidence: Option<Bytes>): Option<Body> {
    match r.stage
    case Begin => if ch.call == Execute then StartBody(op, t, evidence) else ReconcileBody(op, t, ch.fsync)
    case Manifesting => ManifestBody(op)
    case Intending => Some(IntentBody(op, r))
    case Dispatching => DispatchBody(op, t, r)
    case Observing => PostBody(op, t, r, ch.fsync)
    case Committing => DecisionBody(op, t, Committed)
    case Deciding(terminal) => DecisionBody(op, t, terminal)
    case Failing(code) => AttentionBody(op, t, code)
    case _ => None
  }
}
