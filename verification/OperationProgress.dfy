/** An undisturbed operation has no dead ends: whatever it wants to append is
    accepted, every fault-free step gets on, and reconciling is decisive. */
module OperationProgress {
  import opened Wrappers
  import opened Records
  import opened Ledger
  import opened Operation
  import opened OperationProofs

  predicate EvidenceOk(op: Op, evidence: Option<Bytes>) {
    evidence.Some? && OfBytes(evidence.value) == op.auth.desiredSha && |evidence.value| == op.auth.desiredSize
  }

  lemma CleanTarget(op: Op, t: Target)
    requires OpOk(op, t) && op.clean
    ensures Undisturbed(op, t) && (!HasDispatch(op.ledger) ==> op.replacements == 0)
    ensures Classify(t, op.auth) == if op.replacements == 1 then EffectPresent else NoEffect
  {
    ClassifyTells(op, t);
  }

  // ---------- Every proposed event is accepted ----------

  lemma StartAccepted(op: Op, t: Target, evidence: Option<Bytes>)
    requires OpOk(op, t) && StartBody(op, t, evidence).Some?
    ensures Admissible(op.ledger, Make(op, StartBody(op, t, evidence).value), op.auth)
  {
    IntentBacked(op);
  }

  lemma ReconcileAccepted(op: Op, t: Target, fsync: Fsync)
    requires OpOk(op, t) && op.clean && ReconcileBody(op, t, fsync).Some?
    ensures Admissible(op.ledger, Make(op, ReconcileBody(op, t, fsync).value), op.auth)
  {
    CleanTarget(op, t);
    TerminatedIsLast(op);
  }

  lemma ReceiptAccepted(op: Op, t: Target, r: Run, terminal: Terminal)
    requires OpOk(op, t) && RunOk(op, r) && DecisionBody(op, t, terminal).Some?
    requires r.stage == Deciding(terminal) || (r.stage.Committing? && terminal == Committed)
    ensures Admissible(op.ledger, Make(op, DecisionBody(op, t, terminal).value), op.auth)
  {
    LatestPostShows(op);
  }

  lemma AttentionAccepted(op: Op, t: Target, code: Option<string>)
    requires OpOk(op, t) && AttentionBody(op, t, code).Some?
    ensures Admissible(op.ledger, Make(op, AttentionBody(op, t, code).value), op.auth)
  {
    TerminatedIsLast(op);
    IntentBacked(op);
  }

  lemma DispatchAccepted(op: Op, t: Target, r: Run)
    requires OpOk(op, t) && op.clean && r.stage.Dispatching? && RunOk(op, r) && DispatchBody(op, t, r).Some?
    ensures Admissible(op.ledger, Make(op, DispatchBody(op, t, r).value), op.auth)
  {
    CleanTarget(op, t);
  }

  lemma PostAccepted(op: Op, t: Target, r: Run, fsync: Fsync)
    requires OpOk(op, t) && op.clean && r.stage.Observing? && RunOk(op, r) && PostBody(op, t, r, fsync).Some?
    ensures Admissible(op.ledger, Make(op, PostBody(op, t, r, fsync).value), op.auth)
  {
    CleanTarget(op, t);
  }

  lemma ManifestAccepted(op: Op, t: Target, r: Run)
    requires OpOk(op, t) && r.stage.Manifesting? && RunOk(op, r) && ManifestBody(op).Some?
    ensures Admissible(op.ledger, Make(op, ManifestBody(op).value), op.auth)
  {}

  lemma IntentAccepted(op: Op, t: Target, r: Run)
    requires OpOk(op, t) && r.stage.Intending? && RunOk(op, r)
    ensures Admissible(op.ledger, Make(op, IntentBody(op, r)), op.auth)
  {}

  /** No event that an undisturbed run proposes is ever refused by the grammar. */
  lemma ProposalsAreAccepted(op: Op, t: Target, r: Run, ch: Choice, evidence: Option<Bytes>)
    requires OpOk(op, t) && RunOk(op, r) && op.clean && Proposed(op, t, r, ch, evidence).Some?
    ensures Admissible(op.ledger, Make(op, Proposed(op, t, r, ch, evidence).value), op.auth)
  {
    match r.stage {
      case Begin =>
        if ch.call == Execute { StartAccepted(op, t, evidence); } else { ReconcileAccepted(op, t, ch.fsync); }
      case Manifesting => ManifestAccepted(op, t, r);
      case Intending => IntentAccepted(op, t, r);
      case Dispatching => DispatchAccepted(op, t, r);
      case Observing => PostAccepted(op, t, r, ch.fsync);
      case Committing => ReceiptAccepted(op, t, r, Committed);
      case Deciding(terminal) => ReceiptAccepted(op, t, r, terminal);
      case Failing(code) => AttentionAccepted(op, t, code);
    }
  }

  // ---------- A failure leaves its mark ----------

  /** What an attention must say: the error's own code if it was raised as attention, else whether
      a dispatch is on record; and what the target shows against both authorized images. */
  ghost predicate Tells(op: Op, code: Option<string>, b: Body) {
    && b.Attention?
    && (code.Some? ==> b.code == code.value)
    && (code.None? ==> b.code == if exists e :: e in op.ledger && e.payload.body.Dispatch? then "DISPATCH_OUTCOME_UNKNOWN" else "EXECUTION_ATTENTION")
  }

  ghost predicate TellsEffect(op: Op, t: Target, b: Body)
    requires b.Attention?
  {
    && (b.effect.Unknown? <==> t.file.None?)
    && (b.effect.EffectPresent? <==> t.file.Some? && InPlace(t, op.auth) && ShowsDesired(t.file.value, op.auth))
    && (b.effect.NoEffect? <==> t.file.Some? && InPlace(t, op.auth) && ShowsCurrent(t.file.value, op.auth) && !ShowsDesired(t.file.value, op.auth))
  }

  /** An attention is proposed exactly when the last event does not say the same, and says what it must. */
  lemma AttentionTells(op: Op, t: Target, code: Option<string>)
    requires op.ledger != [] && !LastIsReceipt(op)
    ensures AttentionBody(op, t, code).Some? <==> !Tells(op, code, op.ledger[|op.ledger| - 1].payload.body)
    ensures AttentionBody(op, t, code).Some? ==>
              Tells(op, code, AttentionBody(op, t, code).value) && TellsEffect(op, t, AttentionBody(op, t, code).value)
  {
  }

  /** A failed call with something on its ledger and no receipt ends with an attention of the right
      code as its last event, and a new one tells the effect; it lets the lock go. */
  lemma FailureRecorded(op: Op, t: Target, r: Run, ch: Choice, evidence: Option<Bytes>)
    requires OpOk(op, t) && r.stage.Failing? && !ch.fault.Before? && op.ledger != [] && !LastIsReceipt(op)
    ensures var o := Step(op, t, r, ch, evidence);
            var last := o.op.ledger[|o.op.ledger| - 1].payload.body;
            && Tells(op, r.stage.code, last)
            && (if Tells(op, r.stage.code, op.ledger[|op.ledger| - 1].payload.body) then o.op.ledger == op.ledger
                else |o.op.ledger| == |op.ledger| + 1 && TellsEffect(op, t, last))
            && (ch.fault.NoFault? ==> o.run.stage == Leaving)
  {
    AttentionTells(op, t, r.stage.code);
    if AttentionBody(op, t, r.stage.code).Some? { AttentionAccepted(op, t, r.stage.code); }
  }

  /** With nothing on the ledger, or a receipt as its last event, a failure leaves it as it is. */
  lemma FailureUnrecorded(op: Op, t: Target, r: Run, ch: Choice, evidence: Option<Bytes>)
    requires r.stage.Failing? && !ch.fault.Before? && (op.ledger == [] || LastIsReceipt(op))
    ensures Step(op, t, r, ch, evidence).op == op && Step(op, t, r, ch, evidence).run.stage == Leaving
  {
  }

  // ---------- Every fault-free step gets on ----------

  lemma ReceiptFacts(op: Op)
    requires Accepted(op.ledger, op.auth) && LastIsReceipt(op)
    ensures LatestPost(op.ledger).Some? && ManifestOf(op.ledger).Some? && HasIntent(op.ledger)
    ensures var b, p, m := op.ledger[|op.ledger|-1].payload.body, LatestPost(op.ledger).value, ManifestOf(op.ledger).value;
            && b.manifestHash == m.hash && b.postHash == p.hash
            && b.copySha == m.payload.body.backupSha && b.copySize == m.payload.body.backupSize
            && b.copyMode == m.payload.body.backupMode
            && b.finalSha == p.payload.body.observed.sha && b.finalSize == p.payload.body.observed.size
            && b.finalMode == p.payload.body.observed.mode
            && (b.terminal == Committed <==> p.payload.body.expectedMatch)
  {
    var k := |op.ledger| - 1;
    assert Admissible(op.ledger[..k], op.ledger[k], op.auth);
    assert op.ledger == op.ledger[..k] + [op.ledger[k]];
    Grow(op.ledger[..k], op.ledger[k]);
  }

  /** The operation has its receipt, `check` confirms it, and it is the truth. */
  predicate Settles(op: Op, t: Target, evidence: Option<Bytes>) {
    && LastIsReceipt(op)
    && op.ledger[|op.ledger|-1].payload.body.terminal == (if op.replacements == 1 then Committed else FailedNoEffect)
    && Check(op, t, evidence) == Decided(op.ledger[|op.ledger|-1].payload.body.terminal)
  }

  /** On an undisturbed terminal operation `check` returns the receipt's state, and
      that is COMMITTED exactly when the target was replaced. */
  lemma CheckDecides(op: Op, t: Target, evidence: Option<Bytes>)
    requires OpOk(op, t) && op.clean && LastIsReceipt(op) && EvidenceOk(op, evidence)
    ensures Settles(op, t, evidence)
  {
    ReceiptFacts(op);
    CleanTarget(op, t);
  }

  /** On any ledger the grammar accepts, `check` confirms a state exactly when the ledger ends with a
      receipt of it, the backup and the evidence are the ones on record, and the target is, to its
      inode, what was observed after the replacement. */
  lemma CheckExactly(op: Op, t: Target, evidence: Option<Bytes>, terminal: Terminal)
    requires Accepted(op.ledger, op.auth)
    ensures Check(op, t, evidence) == Decided(terminal) <==>
              && LastIsReceipt(op) && op.ledger[|op.ledger|-1].payload.body.terminal == terminal
              && BackupMatches(op) && EvidenceOk(op, evidence)
              && LatestPost(op.ledger).Some? && t.file.Some? && InPlace(t, op.auth)
              && var post := LatestPost(op.ledger).value.payload.body;
                 !post.fsync.Failed? && post.scopeMatch && Observe(t.file.value) == post.observed
  {
    if LastIsReceipt(op) { ReceiptFacts(op); }
  }

  /** And it finds nothing dispatched exactly when nothing is on record and the target is as authorized. */
  lemma CheckFindsNothing(op: Op, t: Target, evidence: Option<Bytes>)
    ensures Check(op, t, evidence) == AuthorizedNotDispatched <==>
              op.ledger == [] && t.file.Some? && Observe(t.file.value) == op.auth.current && InPlace(t, op.auth)
  {
  }

  predicate Smooth(ch: Choice) { ch.fault.NoFault? && !ch.fsync.Failed? }

  /** What `apply`, `restore` and `reconcile` do next when nothing fails. */
  function Onward(op: Op, stage: Stage, call: Call): Stage {
    match stage
    case Begin =>
      if call == Execute then BackingUp
      else if LastIsReceipt(op) then Checking(op.ledger[|op.ledger|-1].payload.body.terminal)
      else Deciding(if op.replacements == 1 then Committed else FailedNoEffect)
    case BackingUp => Manifesting
    case Manifesting => Intending
    case Intending => Staging
    case Staging => Dispatching
    case Dispatching => Validating
    case Validating => Replacing
    case Replacing => Observing
    case Observing => Committing
    case Committing => Checking(Committed)
    case Deciding(terminal) => Checking(terminal)
    case Checking(_) => Leaving
    case other => other
  }

  lemma ExecuteGetsOn(op: Op, t: Target, r: Run, ch: Choice, evidence: Option<Bytes>)
    requires OpOk(op, t) && op.clean && Smooth(ch) && EvidenceOk(op, evidence) && !HasIntent(op.ledger)
    ensures StepExecute(op, t, r, ch, evidence).run.stage == BackingUp
  {
    IntentBacked(op);
    TerminatedIsLast(op);
    if LastIsReceipt(op) { ReceiptFacts(op); }
    CleanTarget(op, t);
    assert StartVerdict(op, t, evidence) == Go;
    StartAccepted(op, t, evidence);
  }

  lemma ReconcileGetsOn(op: Op, t: Target, r: Run, ch: Choice)
    requires OpOk(op, t) && op.clean && Smooth(ch) && HasIntent(op.ledger)
    ensures StepReconcile(op, t, r, ch).run.stage == Onward(op, Begin, Reconcile)
  {
    IntentBacked(op);
    CleanTarget(op, t);
    if !LastIsReceipt(op) { ReconcileAccepted(op, t, ch.fsync); }
  }

  lemma ReceiptGetsOn(op: Op, t: Target, r: Run, ch: Choice, terminal: Terminal)
    requires OpOk(op, t) && RunOk(op, r) && op.clean && Smooth(ch)
    requires r.stage == Deciding(terminal) || (r.stage.Committing? && terminal == Committed)
    ensures StepReceipt(op, t, r, ch, terminal).run.stage == Checking(terminal)
  {
    CleanTarget(op, t);
    LatestPostShows(op);
    ReceiptAccepted(op, t, r, terminal);
  }

  lemma ObserveGetsOn(op: Op, t: Target, r: Run, ch: Choice)
    requires OpOk(op, t) && RunOk(op, r) && op.clean && Smooth(ch) && r.stage.Observing?
    ensures StepObserve(op, t, r, ch).run.stage == Committing
  {
    CleanTarget(op, t);
    PostAccepted(op, t, r, ch.fsync);
  }

  lemma DispatchGetsOn(op: Op, t: Target, r: Run, ch: Choice)
    requires OpOk(op, t) && RunOk(op, r) && op.clean && Smooth(ch) && r.stage.Dispatching?
    ensures StepDispatch(op, t, r, ch).run.stage == Validating
  {
    CleanTarget(op, t);
    DispatchAccepted(op, t, r);
  }

  lemma ValidateGetsOn(op: Op, t: Target, r: Run, ch: Choice)
    requires OpOk(op, t) && RunOk(op, r) && op.clean && Smooth(ch) && r.stage.Validating?
    ensures StepValidate(op, t, r, ch).run.stage == Replacing
  {
    CleanTarget(op, t);
  }

  lemma PrepareGetsOn(op: Op, t: Target, r: Run, ch: Choice)
    requires OpOk(op, t) && RunOk(op, r) && op.clean && Smooth(ch)
    ensures r.stage.BackingUp? ==> StepBackup(op, t, r, ch).run.stage == Manifesting
    ensures r.stage.Manifesting? ==> StepManifest(op, t, r, ch).run.stage == Intending
    ensures r.stage.Intending? ==> StepIntent(op, t, r, ch).run.stage == Staging
  {
    if r.stage.Manifesting? && ManifestBody(op).Some? { ManifestAccepted(op, t, r); }
    if r.stage.Intending? { IntentAccepted(op, t, r); }
  }

  lemma CheckGetsOn(op: Op, t: Target, r: Run, ch: Choice, evidence: Option<Bytes>)
    requires OpOk(op, t) && RunOk(op, r) && op.clean && Smooth(ch) && EvidenceOk(op, evidence) && r.stage.Checking?
    ensures StepCheck(op, t, r, ch, evidence, r.stage.terminal).run.stage == Leaving
  {
    CheckDecides(op, t, evidence);
  }

  /** In an undisturbed operation no fault-free step fails. */
  lemma GetsOn(op: Op, t: Target, r: Run, ch: Choice, evidence: Option<Bytes>)
    requires OpOk(op, t) && RunOk(op, r) && op.clean && Smooth(ch) && EvidenceOk(op, evidence)
    requires !r.stage.Failing? && (r.stage.Begin? ==> (ch.call == Reconcile <==> HasIntent(op.ledger)))
    ensures Step(op, t, r, ch, evidence).run.stage == Onward(op, r.stage, ch.call)
  {
    match r.stage {
      case Begin =>
        if ch.call == Execute { ExecuteGetsOn(op, t, r, ch, evidence); } else { ReconcileGetsOn(op, t, r, ch); }
      case Dispatching => DispatchGetsOn(op, t, r, ch);
      case Validating => ValidateGetsOn(op, t, r, ch);
      case Observing => ObserveGetsOn(op, t, r, ch);
      case Committing => ReceiptGetsOn(op, t, r, ch, Committed);
      case Deciding(terminal) => ReceiptGetsOn(op, t, r, ch, terminal);
      case Checking(_) => CheckGetsOn(op, t, r, ch, evidence);
      case _ => PrepareGetsOn(op, t, r, ch);
    }
  }
}
