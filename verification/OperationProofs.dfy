/** What every step of a lock holder keeps, and why an undisturbed operation
    always gets on. */
module OperationProofs {
  import opened Wrappers
  import opened Records
  import opened Ledger
  import opened Operation

  /** The invariant of one operation against the current target. */
  ghost predicate OpOk(op: Op, t: Target) {
    var a := op.auth;
    && a.current.sha != a.desiredSha
    && Accepted(op.ledger, a)
    && (op.backup.Some? ==> var f := op.backup.value;
          OfBytes(f.content) == a.current.sha && |f.content| == a.current.size && f.mode == RESTRICTED)
    && (ManifestOf(op.ledger).Some? ==> BackupMatches(op))
    && op.replacements <= 1
    && (op.replacements == 1 ==> HasDispatch(op.ledger))
    && (op.clean ==> Undisturbed(op, t))
    && (op.clean && LatestPost(op.ledger).Some? ==> PostTells(op, t, LatestPost(op.ledger).value.payload.body))
    && (LastIsReceipt(op) ==> LatestPost(op.ledger).Some? && !LatestPost(op.ledger).value.payload.body.fsync.Failed?)
  }

  /** A post of an undisturbed operation shows the target as it still is, and
      says whether the replacement happened. */
  predicate PostTells(op: Op, t: Target, b: Body)
    requires b.Post?
  {
    t.file.Some? && b.observed == Observe(t.file.value) && b.scopeMatch && (b.expectedMatch <==> op.replacements == 1)
  }

  /** The target is what the authorization found, or what its one replacement left. */
  predicate Undisturbed(op: Op, t: Target) {
    InPlace(t, op.auth) && t.file.Some?
    && (if op.replacements == 0 then Observe(t.file.value) == op.auth.current else ShowsDesired(t.file.value, op.auth))
  }

  predicate LocalsOk(op: Op, r: Run) {
    && Observe(r.before) == op.auth.current
    && OfBytes(r.desired) == op.auth.desiredSha && |r.desired| == op.auth.desiredSize
  }

  /** Preflighted, nothing pending, no intent yet. */
  predicate BeforeIntent(op: Op) {
    var l := op.ledger;
    && HasPreflight(l) && !HasIntent(l) && !HasDispatch(l) && LatestPost(l).None?
    && !AttentionPending(l) && !Terminated(l)
  }

  predicate Intended(op: Op) {
    var l := op.ledger;
    HasIntent(l) && ManifestOf(l).Some? && LatestPost(l).None? && !Terminated(l)
  }

  predicate Observed(op: Op) {
    var l := op.ledger;
    HasIntent(l) && ManifestOf(l).Some? && LatestPost(l).Some? && !Terminated(l)
  }

  /** What a lock holder knows at each stage. */
  predicate RunOk(op: Op, r: Run) {
    var l := op.ledger;
    match r.stage
    case BackingUp => LocalsOk(op, r) && BeforeIntent(op)
    case Manifesting => LocalsOk(op, r) && BeforeIntent(op) && op.backup.Some?
    case Intending => LocalsOk(op, r) && BeforeIntent(op) && ManifestOf(l).Some?
    case Staging => LocalsOk(op, r) && Intended(op) && !HasDispatch(l) && !AttentionPending(l)
    case Dispatching =>
      LocalsOk(op, r) && Intended(op) && !HasDispatch(l) && !AttentionPending(l) && ShowsDesired(r.staged, op.auth)
    case Validating => LocalsOk(op, r) && Intended(op) && HasDispatch(l) && op.replacements == 0 && ShowsDesired(r.staged, op.auth)
    case Replacing => LocalsOk(op, r) && Intended(op) && HasDispatch(l) && op.replacements == 0 && ShowsDesired(r.staged, op.auth)
    case Observing => LocalsOk(op, r) && Intended(op) && HasDispatch(l) && op.replacements == 1
    case Committing =>
      && Observed(op) && HasDispatch(l) && LatestPost(l).value.payload.body.expectedMatch
      && !LatestPost(l).value.payload.body.fsync.Failed?
    case Deciding(terminal) =>
      && Observed(op) && (terminal == Committed <==> LatestPost(l).value.payload.body.expectedMatch)
      && (terminal == Committed ==> HasDispatch(l)) && !LatestPost(l).value.payload.body.fsync.Failed?
    case Checking(terminal) => LastIsReceipt(op) && l[|l|-1].payload.body.terminal == terminal
    case _ => true
  }

  function Appended(op: Op, b: Body): Op { op.(ledger := op.ledger + [Make(op, b)]) }

  lemma AppendKeepsOp(op: Op, t: Target, b: Body)
    requires OpOk(op, t) && Admissible(op.ledger, Make(op, b), op.auth)
    requires b.Manifest? ==> ManifestBody(op) == Some(b)
    requires b.Post? && op.clean ==> PostTells(op, t, b)
    requires b.Receipt? ==> LatestPost(op.ledger).Some? && !LatestPost(op.ledger).value.payload.body.fsync.Failed?
    ensures OpOk(Appended(op, b), t)
  {
    Grow(op.ledger, Make(op, b));
    ExtendAccepted(op.ledger, Make(op, b), op.auth);
    if b.Manifest? { ManifestFacts(op.ledger, Make(op, b), op.auth); }
  }

  lemma ManifestFacts(h: seq<Event>, e: Event, auth: Authorization)
    requires Admissible(h, e, auth) && e.payload.body.Manifest?
    ensures e.payload.body.sourceMode == auth.current.mode && ManifestOf(h).None?
  {}

  lemma TerminatedIsLast(op: Op)
    requires Accepted(op.ledger, op.auth)
    ensures Terminated(op.ledger) <==> LastIsReceipt(op)
  {
    if Terminated(op.ledger) {
      var e :| e in op.ledger && e.payload.body.Receipt?;
      var i := IndexOf(op.ledger, e);
      if i < |op.ledger| - 1 { OrderOfKinds(op.ledger, op.auth, i, |op.ledger| - 1); }
    }
  }

  /** A dispatch or an intent is only there with what must come before it. */
  lemma IntentBacked(op: Op)
    requires Accepted(op.ledger, op.auth)
    ensures HasDispatch(op.ledger) ==> HasIntent(op.ledger)
    ensures HasIntent(op.ledger) ==> ManifestOf(op.ledger).Some?
    ensures LatestPost(op.ledger).Some? ==> HasIntent(op.ledger)
    ensures op.ledger != [] <==> HasPreflight(op.ledger)
  {
    var l := op.ledger;
    FirstIsPreflight(l, op.auth);
    if HasDispatch(l) {
      var e :| e in l && e.payload.body.Dispatch?;
      var j := IndexOf(l, e);
      EventFacts(l, op.auth, j);
      assert HasIntent(l[..j]);
    }
    if LatestPost(l).Some? {
      var j := IndexOf(l, LatestPost(l).value);
      EventFacts(l, op.auth, j);
      assert HasIntent(l[..j]);
    }
    if HasIntent(l) {
      var e :| e in l && e.payload.body.Intent?;
      var j := IndexOf(l, e);
      var m := IntentHasManifest(l, op.auth, j);
      ManifestFound(l, m);
    }
  }

  /** What the latest post of an accepted ledger shows. */
  lemma LatestPostShows(op: Op)
    requires Accepted(op.ledger, op.auth) && LatestPost(op.ledger).Some?
    ensures var b := LatestPost(op.ledger).value.payload.body;
            && b.expectedMode == op.auth.desiredMode
            && (if b.expectedMatch
                then b.observed.sha == op.auth.desiredSha && b.observed.size == op.auth.desiredSize
                     && b.observed.mode == op.auth.desiredMode
                else b.observed.sha == op.auth.current.sha && b.observed.size == op.auth.current.size
                     && b.observed.mode == op.auth.current.mode)
  {
    var j := IndexOf(op.ledger, LatestPost(op.ledger).value);
    assert Admissible(op.ledger[..j], op.ledger[j], op.auth);
  }

  // ---------- Each stage keeps both invariants ----------

  ghost predicate Kept(o: Outcome) { OpOk(o.op, o.target) && RunOk(o.op, o.run) }

  /** Append keeps the invariants if an admitted event leads to where the next stage expects. */
  lemma AppendKeeps(op: Op, t: Target, r: Run, b: Body, next: Stage, fault: Fault)
    requires OpOk(op, t)
    requires b.Manifest? ==> ManifestBody(op) == Some(b)
    requires b.Post? && op.clean ==> PostTells(op, t, b)
    requires b.Receipt? ==> LatestPost(op.ledger).Some? && !LatestPost(op.ledger).value.payload.body.fsync.Failed?
    requires Admissible(op.ledger, Make(op, b), op.auth) ==> RunOk(Appended(op, b), r.(stage := next))
    ensures Kept(Append(op, t, r, b, next, fault))
  {
    if Admissible(op.ledger, Make(op, b), op.auth) { AppendKeepsOp(op, t, b); }
  }

  lemma ExecuteKeeps(op: Op, t: Target, r: Run, ch: Choice, evidence: Option<Bytes>)
    requires OpOk(op, t)
    ensures Kept(StepExecute(op, t, r, ch, evidence))
  {
    if StartVerdict(op, t, evidence) == Go {
      var b := StartBody(op, t, evidence).value;
      Grow(op.ledger, Make(op, b));
      IntentBacked(op);
      AppendKeeps(op, t, r.(before := t.file.value, desired := evidence.value), b, BackingUp, ch.fault);
    }
  }

  /** Classification of an undisturbed target tells whether it was replaced. */
  lemma ClassifyTells(op: Op, t: Target)
    requires Undisturbed(op, t) && op.replacements <= 1 && op.auth.current.sha != op.auth.desiredSha
    ensures Classify(t, op.auth) == if op.replacements == 1 then EffectPresent else NoEffect
  {}

  /** What reconcile appends prepares the terminal state that it goes for. */
  lemma ReconcilePrepares(op: Op, t: Target, r: Run, fsync: Fsync)
    requires OpOk(op, t) && ReconcileBody(op, t, fsync).Some?
    ensures var b := ReconcileBody(op, t, fsync).value;
            && b.Post? && (op.clean ==> PostTells(op, t, b))
            && (Admissible(op.ledger, Make(op, b), op.auth) ==> RunOk(Appended(op, b), r.(stage := AfterReconcile(op, t, fsync))))
  {
    if op.clean { ClassifyTells(op, t); }
    TerminatedIsLast(op);
    Grow(op.ledger, Make(op, ReconcileBody(op, t, fsync).value));
  }

  function AfterReconcile(op: Op, t: Target, fsync: Fsync): Stage {
    if fsync.Failed? then Stage.Failing(Some("DIRECTORY_FSYNC_FAILED"))
    else Deciding(if Classify(t, op.auth) == EffectPresent then Committed else FailedNoEffect)
  }

  lemma ReconcileKeeps(op: Op, t: Target, r: Run, ch: Choice)
    requires OpOk(op, t)
    ensures Kept(StepReconcile(op, t, r, ch))
  {
    if ReconcileBody(op, t, ch.fsync).Some? {
      ReconcilePrepares(op, t, r, ch.fsync);
      AppendKeeps(op, t, r, ReconcileBody(op, t, ch.fsync).value, AfterReconcile(op, t, ch.fsync), ch.fault);
    }
  }

  lemma ManifestKeeps(op: Op, t: Target, r: Run, ch: Choice)
    requires OpOk(op, t) && r.stage.Manifesting? && RunOk(op, r)
    ensures Kept(StepManifest(op, t, r, ch))
  {
    if ManifestBody(op).Some? {
      var b := ManifestBody(op).value;
      Grow(op.ledger, Make(op, b));
      AppendKeeps(op, t, r, b, Intending, ch.fault);
    }
  }

  lemma IntentKeeps(op: Op, t: Target, r: Run, ch: Choice)
    requires OpOk(op, t) && r.stage.Intending? && RunOk(op, r)
    ensures Kept(StepIntent(op, t, r, ch))
  {
    Grow(op.ledger, Make(op, IntentBody(op, r)));
    AppendKeeps(op, t, r, IntentBody(op, r), Staging, ch.fault);
  }

  lemma DispatchKeeps(op: Op, t: Target, r: Run, ch: Choice)
    requires OpOk(op, t) && r.stage.Dispatching? && RunOk(op, r)
    ensures Kept(StepDispatch(op, t, r, ch))
  {
    if DispatchBody(op, t, r).Some? {
      var b := DispatchBody(op, t, r).value;
      Grow(op.ledger, Make(op, b));
      AppendKeeps(op, t, r, b, Validating, ch.fault);
    }
  }

  /** Where the observation after the replacement leads. */
  function AfterObserve(op: Op, b: Body): Stage
    requires b.Post?
  {
    if !b.expectedMatch || b.observed.mode != op.auth.desiredMode || !b.scopeMatch || b.fsync.Failed?
    then Stage.Failing(Some("EFFECT_PRESENT_ATTENTION")) else Committing
  }

  /** What an appended post leaves of the facts that the later stages need. */
  lemma PostGrows(op: Op, b: Body)
    requires b.Post? && Admissible(op.ledger, Make(op, b), op.auth)
    ensures var l := Appended(op, b).ledger;
            && LatestPost(l) == Some(Make(op, b)) && ManifestOf(l) == ManifestOf(op.ledger) && !Terminated(l)
            && HasIntent(l) == HasIntent(op.ledger) && HasDispatch(l) == HasDispatch(op.ledger)
  {
    Grow(op.ledger, Make(op, b));
  }

  lemma ObservePrepares(op: Op, t: Target, r: Run, fsync: Fsync)
    requires r.stage.Observing? && RunOk(op, r) && t.file.Some?
    requires Admissible(op.ledger, Make(op, PostBody(op, t, r, fsync).value), op.auth)
    ensures var b := PostBody(op, t, r, fsync).value; RunOk(Appended(op, b), r.(stage := AfterObserve(op, b)))
  {
    PostGrows(op, PostBody(op, t, r, fsync).value);
  }

  lemma ObserveTells(op: Op, t: Target, r: Run, fsync: Fsync)
    requires op.clean && Undisturbed(op, t) && op.replacements == 1 && LocalsOk(op, r)
    ensures PostTells(op, t, PostBody(op, t, r, fsync).value)
  {
  }

  lemma ObserveKeeps(op: Op, t: Target, r: Run, ch: Choice)
    requires OpOk(op, t) && r.stage.Observing? && RunOk(op, r)
    ensures Kept(StepObserve(op, t, r, ch))
  {
    if t.file.Some? {
      var b := PostBody(op, t, r, ch.fsync).value;
      if Admissible(op.ledger, Make(op, b), op.auth) { ObservePrepares(op, t, r, ch.fsync); }
      if op.clean { ObserveTells(op, t, r, ch.fsync); }
      AppendKeeps(op, t, r, b, AfterObserve(op, b), ch.fault);
    }
  }

  lemma ReceiptKeeps(op: Op, t: Target, r: Run, ch: Choice, terminal: Terminal)
    requires OpOk(op, t) && RunOk(op, r) && (r.stage.Committing? || r.stage.Deciding?)
    ensures Kept(StepReceipt(op, t, r, ch, terminal))
  {
    if DecisionBody(op, t, terminal).Some? {
      var b := DecisionBody(op, t, terminal).value;
      AppendKeeps(op, t, r, b, Checking(terminal), ch.fault);
    }
  }

  /** The attention that the failure handler appends. */
  lemma AttentionKeeps(op: Op, t: Target, b: Body)
    requires OpOk(op, t) && b.Attention? && Admissible(op.ledger, Make(op, b), op.auth)
    ensures OpOk(Appended(op, b), t)
  {
    AppendKeepsOp(op, t, b);
  }

  /** The handler ends with the lock let go or left behind, after at most the attention. */
  lemma FailShape(op: Op, t: Target, r: Run, ch: Choice, code: Option<string>)
    ensures var o := StepFail(op, t, r, ch, code);
            && o.target == t && (o.run.stage.Leaving? || o.run.stage.Abandoning?)
            && (o.op != op ==>
                  && AttentionBody(op, t, code).Some? && o.op == Appended(op, AttentionBody(op, t, code).value)
                  && Admissible(op.ledger, Make(op, AttentionBody(op, t, code).value), op.auth))
  {
  }

  lemma FailKeeps(op: Op, t: Target, r: Run, ch: Choice, code: Option<string>)
    requires OpOk(op, t)
    ensures Kept(StepFail(op, t, r, ch, code))
  {
    FailShape(op, t, r, ch, code);
    if StepFail(op, t, r, ch, code).op != op { AttentionKeeps(op, t, AttentionBody(op, t, code).value); }
  }

  lemma BackupKeeps(op: Op, t: Target, r: Run, ch: Choice)
    requires OpOk(op, t) && r.stage.BackingUp? && RunOk(op, r)
    ensures Kept(StepBackup(op, t, r, ch))
  {}

  lemma StageKeeps(op: Op, t: Target, r: Run, ch: Choice)
    requires OpOk(op, t) && r.stage.Staging? && RunOk(op, r)
    ensures Kept(StepStage(op, t, r, ch))
  {}

  lemma ValidateKeeps(op: Op, t: Target, r: Run, ch: Choice)
    requires OpOk(op, t) && r.stage.Validating? && RunOk(op, r)
    ensures Kept(StepValidate(op, t, r, ch))
  {}

  lemma ReplaceKeeps(op: Op, t: Target, r: Run, ch: Choice)
    requires OpOk(op, t) && r.stage.Replacing? && RunOk(op, r)
    ensures Kept(StepReplace(op, t, r, ch))
  {}

  lemma CheckKeeps(op: Op, t: Target, r: Run, ch: Choice, evidence: Option<Bytes>, terminal: Terminal)
    requires OpOk(op, t)
    ensures Kept(StepCheck(op, t, r, ch, evidence, terminal))
  {}

  lemma StayKeeps(op: Op, t: Target, r: Run, stage: Stage)
    requires OpOk(op, t) && (stage.Leaving? || stage.Abandoning? || stage.Failing?)
    ensures Kept(Stay(op, t, r, stage))
  {}

  /** Whatever fails, every step of a lock holder keeps the operation's invariant
      and leaves the holder knowing what its next stage relies on. */
  lemma StepKeeps(op: Op, t: Target, r: Run, ch: Choice, evidence: Option<Bytes>)
    requires OpOk(op, t) && RunOk(op, r)
    ensures Kept(Step(op, t, r, ch, evidence))
  {
    if r.stage.Begin? || r.stage.BackingUp? || r.stage.Manifesting? || r.stage.Intending? {
      EarlyStepKeeps(op, t, r, ch, evidence);
    } else if r.stage.Staging? || r.stage.Dispatching? || r.stage.Validating? || r.stage.Replacing? {
      MiddleStepKeeps(op, t, r, ch, evidence);
    } else {
      LateStepKeeps(op, t, r, ch, evidence);
    }
  }

  lemma EarlyStepKeeps(op: Op, t: Target, r: Run, ch: Choice, evidence: Option<Bytes>)
    requires OpOk(op, t) && RunOk(op, r)
    requires r.stage.Begin? || r.stage.BackingUp? || r.stage.Manifesting? || r.stage.Intending?
    ensures Kept(Step(op, t, r, ch, evidence))
  {
    match r.stage {
      case Begin =>
        StayKeeps(op, t, r, Failing(if ch.fault.Before? then ch.fault.code else None));
        ExecuteKeeps(op, t, r, ch, evidence);
        ReconcileKeeps(op, t, r, ch);
      case BackingUp => BackupKeeps(op, t, r, ch);
      case Manifesting => ManifestKeeps(op, t, r, ch);
      case Intending => IntentKeeps(op, t, r, ch);
    }
  }

  lemma MiddleStepKeeps(op: Op, t: Target, r: Run, ch: Choice, evidence: Option<Bytes>)
    requires OpOk(op, t) && RunOk(op, r)
    requires r.stage.Staging? || r.stage.Dispatching? || r.stage.Validating? || r.stage.Replacing?
    ensures Kept(Step(op, t, r, ch, evidence))
  {
    match r.stage {
      case Staging => StageKeeps(op, t, r, ch);
      case Dispatching => DispatchKeeps(op, t, r, ch);
      case Validating => ValidateKeeps(op, t, r, ch);
      case Replacing => ReplaceKeeps(op, t, r, ch);
    }
  }

  lemma LateStepKeeps(op: Op, t: Target, r: Run, ch: Choice, evidence: Option<Bytes>)
    requires OpOk(op, t) && RunOk(op, r)
    requires r.stage.Observing? || r.stage.Committing? || r.stage.Deciding? || r.stage.Checking?
             || r.stage.Failing? || r.stage.Leaving? || r.stage.Abandoning?
    ensures Kept(Step(op, t, r, ch, evidence))
  {
    match r.stage {
      case Observing => ObserveKeeps(op, t, r, ch);
      case Committing => ReceiptKeeps(op, t, r, ch, Committed);
      case Deciding(terminal) => ReceiptKeeps(op, t, r, ch, terminal);
      case Checking(terminal) => CheckKeeps(op, t, r, ch, evidence, terminal);
      case Failing(code) => FailKeeps(op, t, r, ch, code);
      case Leaving => StayKeeps(op, t, r, Leaving);
      case Abandoning => StayKeeps(op, t, r, Abandoning);
    }
  }
}
