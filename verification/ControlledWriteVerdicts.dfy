/** What an undisturbed operation's records say about the target in every run, with any number
    of processes inside the lock: COMMITTED is true, and a committed restore undoes its apply. */
module ControlledWriteVerdicts {
  import opened Wrappers
  import opened Records
  import opened Ledger
  import opened Operation
  import opened OperationProofs
  import opened OperationProgress
  import opened ControlledWrite
  import opened ControlledWriteProofs
  import opened ControlledWriteRaces
  import L = LockFile

  /** A post observation of the authorized image. */
  predicate Matches(b: Body) { b.Post? && b.expectedMatch }

  predicate SomeMatch(h: seq<Event>) { exists e :: e in h && Matches(e.payload.body) }

  /** An undisturbed target is what its replacements made it, and is never observed to show the
      authorized image before it does. */
  ghost predicate OpImage(op: Op, t: Target) {
    && op.auth.current.sha != op.auth.desiredSha
    && (op.clean ==> Undisturbed(op, t) && (SomeMatch(op.ledger) ==> op.replacements == 1))
  }

  ghost predicate Images(s: State) {
    forall id :: id in s.ops ==> OpImage(s.ops[id], s.target) && SourceOk(s.ops, s.ops[id])
  }

  ghost predicate Inv(s: State) { Core(s) && Images(s) }

  // ---------- One step ----------

  lemma MatchGrows(h: seq<Event>, e: Event)
    ensures SomeMatch(h + [e]) <==> SomeMatch(h) || Matches(e.payload.body)
  {
    assert e in h + [e];
    forall x | x in h ensures x in h + [e] {}
    assert forall x :: x in h + [e] <==> x in h || x == e;
  }

  /** What an event says that a step appends. */
  ghost predicate Truthful(op: Op, o: Outcome) {
    o.op.ledger == op.ledger
    || exists b :: o.op.ledger == op.ledger + [Make(op, b)] && (Matches(b) && op.clean ==> op.replacements == 1)
  }

  lemma AppendTruthful(op: Op, t: Target, r: Run, b: Body, next: Stage, fault: Fault)
    requires Matches(b) && op.clean ==> op.replacements == 1
    ensures Truthful(op, Append(op, t, r, b, next, fault))
  {
    assert Append(op, t, r, b, next, fault).op.ledger == op.ledger
           || Append(op, t, r, b, next, fault).op.ledger == op.ledger + [Make(op, b)];
  }

  lemma ReconcileTruthful(op: Op, t: Target, r: Run, ch: Choice)
    requires OpCore(op) && OpImage(op, t)
    ensures Truthful(op, StepReconcile(op, t, r, ch))
  {
    if ReconcileBody(op, t, ch.fsync).Some? {
      if op.clean { ClassifyTells(op, t); }
      AppendTruthful(op, t, r, ReconcileBody(op, t, ch.fsync).value, AfterReconcile(op, t, ch.fsync), ch.fault);
    }
  }

  lemma ObserveTruthful(op: Op, t: Target, r: Run, ch: Choice)
    requires OpCore(op) && OpImage(op, t) && r.stage.Observing? && RunCore(op, r)
    ensures Truthful(op, StepObserve(op, t, r, ch))
  {
    if t.file.Some? {
      var b := PostBody(op, t, r, ch.fsync).value;
      AppendTruthful(op, t, r, b, AfterObserve(op, b), ch.fault);
    }
  }

  lemma ExecuteTruthful(op: Op, t: Target, r: Run, ch: Choice, evidence: Option<Bytes>)
    ensures Truthful(op, StepExecute(op, t, r, ch, evidence))
  {
    if StartVerdict(op, t, evidence) == Go {
      AppendTruthful(op, t, r.(before := t.file.value, desired := evidence.value), StartBody(op, t, evidence).value, BackingUp, ch.fault);
    }
  }

  lemma OtherTruthful(op: Op, t: Target, r: Run, ch: Choice)
    ensures Truthful(op, StepManifest(op, t, r, ch)) && Truthful(op, StepIntent(op, t, r, ch)) && Truthful(op, StepDispatch(op, t, r, ch))
  {
    if ManifestBody(op).Some? { AppendTruthful(op, t, r, ManifestBody(op).value, Intending, ch.fault); }
    AppendTruthful(op, t, r, IntentBody(op, r), Staging, ch.fault);
    if DispatchBody(op, t, r).Some? { AppendTruthful(op, t, r, DispatchBody(op, t, r).value, Validating, ch.fault); }
  }

  lemma LastTruthful(op: Op, t: Target, r: Run, ch: Choice, terminal: Terminal, code: Option<string>)
    ensures Truthful(op, StepReceipt(op, t, r, ch, terminal)) && Truthful(op, StepFail(op, t, r, ch, code))
  {
    if DecisionBody(op, t, terminal).Some? { AppendTruthful(op, t, r, DecisionBody(op, t, terminal).value, Checking(terminal), ch.fault); }
    FailShape(op, t, r, ch, code);
  }

  lemma BeginTruthful(op: Op, t: Target, r: Run, ch: Choice, evidence: Option<Bytes>)
    requires OpCore(op) && OpImage(op, t) && r.stage.Begin?
    ensures Truthful(op, Step(op, t, r, ch, evidence))
  {
    if ch.call == Execute { ExecuteTruthful(op, t, r, ch, evidence); } else { ReconcileTruthful(op, t, r, ch); }
  }

  lemma StepTruthful(op: Op, t: Target, r: Run, ch: Choice, evidence: Option<Bytes>)
    requires OpCore(op) && OpImage(op, t) && RunCore(op, r)
    ensures Truthful(op, Step(op, t, r, ch, evidence))
  {
    match r.stage {
      case Observing => ObserveTruthful(op, t, r, ch);
      case Committing => LastTruthful(op, t, r, ch, Committed, None);
      case Deciding(terminal) => LastTruthful(op, t, r, ch, terminal, None);
      case Failing(code) => LastTruthful(op, t, r, ch, Committed, code);
      case BackingUp =>
      case Staging =>
      case Validating =>
      case Replacing =>
      case Checking(_) =>
      case Leaving =>
      case Abandoning =>
      case Begin => BeginTruthful(op, t, r, ch, evidence);
      case _ => OtherTruthful(op, t, r, ch);
    }
  }

  lemma OutcomeImage(op: Op, t: Target, r: Run, o: Outcome)
    requires OpCore(op) && OpImage(op, t) && RunCore(op, r) && Framed(op, t, r, o) && Truthful(op, o)
    requires o.replaced ==> r.stage.Replacing? && o.target == t.(file := Some(r.staged))
    ensures OpImage(o.op, o.target)
  {
    if o.op.ledger != op.ledger {
      var b :| o.op.ledger == op.ledger + [Make(op, b)] && (Matches(b) && op.clean ==> op.replacements == 1);
      MatchGrows(op.ledger, Make(op, b));
    }
  }

  // ---------- Every step ----------

  lemma WorkImages(s: State, p: Pid, ch: Choice)
    requires Inv(s) && p in s.runs && s.runs[p].operation in s.ops
    ensures Images(WorkStep(s, p, ch))
  {
    var id := s.runs[p].operation;
    var op := s.ops[id];
    var o := Step(op, s.target, s.runs[p], ch, Evidence(s, op));
    StepCore(op, s.target, s.runs[p], ch, Evidence(s, op));
    StepTruthful(op, s.target, s.runs[p], ch, Evidence(s, op));
    OutcomeImage(op, s.target, s.runs[p], o);
    OthersKeepImages(s, p, o);
  }

  lemma OthersKeepImages(s: State, p: Pid, o: Outcome)
    requires Inv(s) && p in s.runs && s.runs[p].operation in s.ops
    requires Framed(s.ops[s.runs[p].operation], s.target, s.runs[p], o) && OpCore(o.op) && OpImage(o.op, o.target)
    ensures Images(WithOutcome(s, p, o))
  {
    var id, n := s.runs[p].operation, WithOutcome(s, p, o);
    forall other | other in n.ops ensures OpImage(n.ops[other], n.target) && SourceOk(n.ops, n.ops[other]) {
      SourceKept(s, p, o, s.ops[other]);
    }
  }

  lemma AddingImages(s: State, id: string, op: Op)
    requires Images(s) && id !in s.ops && SourceOk(s.ops, op) && OpImage(op, s.target)
    ensures Images(s.(ops := s.ops[id := op]))
  {
  }

  lemma FreshImage(op: Op, t: Target)
    requires op.ledger == [] && op.replacements == 0 && t.file.Some? && Observe(t.file.value) == op.auth.current && InPlace(t, op.auth)
    requires op.auth.current.sha != op.auth.desiredSha
    ensures OpImage(op, t)
  {
  }

  /** A committed apply that check confirms left its image, which is not the one it started from. */
  lemma ConfirmedImage(op: Op, t: Target, evidence: Option<Bytes>)
    requires OpCore(op) && Check(op, t, evidence) == Decided(Committed) && LastIsReceipt(op)
    ensures t.file.Some? && OfBytes(t.file.value.content) == op.auth.desiredSha && ManifestOf(op.ledger).Some?
  {
    ReceiptFacts(op);
    LatestPostShows(op);
  }

  lemma RestoreImages(s: State, id: string, nonce: string, hash: Digest, source: string)
    requires Inv(s)
    ensures Images(AuthorizeRestoreStep(s, id, nonce, hash, source))
  {
    var n := AuthorizeRestoreStep(s, id, nonce, hash, source);
    if id !in s.ops && Restorable(s, source) && s.target.file.Some? && BackupMatches(s.ops[source]) {
      ConfirmedImage(s.ops[source], s.target, Evidence(s, s.ops[source]));
      FreshImage(n.ops[id], s.target);
      AddingImages(s, id, n.ops[id]);
    }
  }

  lemma DisturbImages(s: State, t: Target)
    requires Images(s)
    ensures Images(Next(s, Disturb(t)))
  {
    var n := Next(s, Disturb(t));
    forall id | id in n.ops ensures OpImage(n.ops[id], n.target) && SourceOk(n.ops, n.ops[id]) {
      assert SourceOk(s.ops, s.ops[id]);
    }
  }

  lemma NextImages(s: State, act: Act)
    requires Inv(s)
    ensures Inv(Next(s, act))
  {
    NextCore(s, act);
    match act {
      case Lock(p, a) =>
      case Work(p, ch) => if p in s.runs && s.runs[p].operation in s.ops { WorkImages(s, p, ch); }
      case Disturb(t) => DisturbImages(s, t);
      case Authorize(id, nonce, hash, proposal) =>
        var n := AuthorizeStep(s, id, nonce, hash, proposal);
        if n != s {
          FreshImage(n.ops[id], s.target);
          AddingImages(s, id, n.ops[id]);
        }
      case AuthorizeRestore(id, nonce, hash, source) => RestoreImages(s, id, nonce, hash, source);
    }
  }

  lemma {:induction false} PlayImages(s: State, acts: seq<Act>)
    requires Inv(s)
    ensures Inv(Play(s, acts))
    decreases |acts|
  {
    if acts != [] {
      NextImages(s, acts[0]);
      PlayImages(Next(s, acts[0]), acts[1..]);
    }
  }

  // ---------- Main results ----------

  /** COMMITTED is never false: in every undisturbed run, whatever became of the lock, the target
      was replaced, once, and shows the authorized image. */
  lemma CommittedIsTrue(t: Target, acts: seq<Act>, id: string)
    requires id in Play(Initial(t), acts).ops
    requires var op := Play(Initial(t), acts).ops[id];
             op.clean && LastIsReceipt(op) && op.ledger[|op.ledger| - 1].payload.body.terminal == Committed
    ensures var s := Play(Initial(t), acts);
            s.ops[id].replacements == 1 && s.target.file.Some? && ShowsDesired(s.target.file.value, s.ops[id].auth)
  {
    var s := Play(Initial(t), acts);
    PlayImages(Initial(t), acts);
    ReceiptFacts(s.ops[id]);
    assert LatestPost(s.ops[id].ledger).value in s.ops[id].ledger;
  }

  /** Round trip: an undisturbed committed restore puts back the bytes and the permission mode
      that the apply it undoes had started from. */
  lemma RestoreUndoesApply(t: Target, acts: seq<Act>, id: string)
    requires id in Play(Initial(t), acts).ops
    requires var op := Play(Initial(t), acts).ops[id];
             && op.source.Some? && op.clean && LastIsReceipt(op)
             && op.ledger[|op.ledger|-1].payload.body.terminal == Committed
    ensures var s := Play(Initial(t), acts);
            var op := s.ops[id];
            && op.source.value in s.ops && s.target.file.Some?
            && var started := s.ops[op.source.value].auth.current;
               && OfBytes(s.target.file.value.content) == started.sha
               && |s.target.file.value.content| == started.size && s.target.file.value.mode == started.mode
  {
    var s := Play(Initial(t), acts);
    PlayImages(Initial(t), acts);
    CommittedIsTrue(t, acts, id);
    assert SourceOk(s.ops, s.ops[id]);
  }
}
