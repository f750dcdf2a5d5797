/** Recovery after a crash equals never crashing. */
module AuthoringResults {
  import opened Wrappers
  import opened AuthoringStore
  import opened AuthoringRecovery
  import opened AuthoringCompletion
  import opened AuthoringRuns

  /** One intent for each slot of the task. */
  ghost predicate OneIntentEach(s: Store, task: Task) {
    forall i, j :: i in s.intents && j in s.intents && i.task == task && j.task == task && i.op == j.op ==> i == j
  }

  /** The catalog that the draft was made from has been published. */
  ghost predicate CatalogThere(s: Store, task: Task) {
    forall i :: i in s.intents && i.task == task && i.op == DraftOp && i.parent.OfCatalog? ==> i.parent.catalog in s.catalogs
  }

  /** What the recovery theorem asks of a task. */
  ghost predicate Recoverable(s: Store, task: Task) {
    OneIntentEach(s, task) && CatalogThere(s, task) && !Dangling(s, task)
  }

  lemma OnlyIntent(w: World, s: Store, task: Task, op: Operation)
    requires Linked(w, s) && OneIntentEach(s, task) && (task, op) in s.outputs
    ensures TheIntent(s, task, op).Some? && IntentLinked(w, s, IntentOf(s, task, op))
    ensures IntentOf(s, task, op).task == task && IntentOf(s, task, op).op == op
  {
    assert OutputLinked(w, s, task, op);
    var i :| i in Matching(s, task, op);
    assert Matching(s, task, op) == {i};
    assert i in s.intents;
  }

  lemma TracedLinked(w: World, s: Store, task: Task, op: Operation)
    requires Linked(w, s) && OneIntentEach(s, task)
    ensures Traced(s, task, op)
  {
    if (task, op) in s.outputs {
      OnlyIntent(w, s, task, op);
      var i := IntentOf(s, task, op);
      forall r | r in s.receipts && ((r.task == task && r.op == op) || r.intent == i) ensures r == ReceiptFor(s, task, op) {
        assert ReceiptLinked(s, r);
        assert i in Matching(s, task, op);
      }
    }
  }

  lemma SoundLinked(w: World, s: Store, task: Task)
    requires Linked(w, s) && OneIntentEach(s, task) && CatalogThere(s, task)
    ensures DraftSound(w, s, task) && ResultSound(w, s, task)
    ensures ExportSound(w, s, task, MarkdownOp) && ExportSound(w, s, task, PdfOp)
  {
    if (task, DraftOp) in s.outputs {
      OnlyIntent(w, s, task, DraftOp);
      assert OutputLinked(w, s, task, DraftOp);
      assert IntentOf(s, task, DraftOp) in Matching(s, task, DraftOp);
    }
    if (task, GenerateOp) in s.outputs {
      OnlyIntent(w, s, task, GenerateOp);
      assert OutputLinked(w, s, task, GenerateOp);
    }
    assert (task, MarkdownOp) in s.outputs ==> OutputLinked(w, s, task, MarkdownOp);
    assert (task, PdfOp) in s.outputs ==> OutputLinked(w, s, task, PdfOp);
  }

  /** In any linked store, a task with one intent for each slot, no intent
      without its output and its catalog published is healthy. */
  lemma ReachableHealthy(w: World, s: Store, task: Task)
    requires Linked(w, s) && Recoverable(s, task)
    ensures Healthy(w, s, task)
  {
    TracedLinked(w, s, task, DraftOp);
    TracedLinked(w, s, task, GenerateOp);
    TracedLinked(w, s, task, MarkdownOp);
    TracedLinked(w, s, task, PdfOp);
    SoundLinked(w, s, task);
    if task in s.bindings { BoundHealthy(w, s, task); }
  }

  /** Whatever calls and crashes a run went through from the empty store. */
  lemma EveryRunHealthy(w: World, calls: seq<(Call, nat)>, task: Task)
    requires Steady(w) && Recoverable(Play(w, EMPTY, calls), task)
    ensures Healthy(w, Play(w, EMPTY, calls), task)
  {
    EveryRunLinked(w, calls);
    ReachableHealthy(w, Play(w, EMPTY, calls), task);
  }

  lemma BoundHealthy(w: World, s: Store, task: Task)
    requires Linked(w, s) && OneIntentEach(s, task) && task in s.bindings
    requires Traced(s, task, DraftOp) && Traced(s, task, GenerateOp) && DraftSound(w, s, task) && ResultSound(w, s, task)
    ensures (task, GenerateOp) in s.outputs && s.bindings[task] == TheBinding(w, s, task)
    ensures ReceiptFor(s, task, DraftOp) in s.receipts && ReceiptFor(s, task, GenerateOp) in s.receipts
  {
    var b := s.bindings[task];
    assert BindingLinked(w, s, task, b);
    assert ReceiptLinked(s, b.draftReceipt) && ReceiptLinked(s, b.generateReceipt);
    assert b.draftReceipt == ReceiptFor(s, task, DraftOp);
    assert b.generateReceipt == ReceiptFor(s, task, GenerateOp);
  }

  // ---------------------------------------------------------------- crash and recover

  /** A store that differs from a later one by records that the task's recovery supplies. */
  ghost predicate Behind(u: Store, t: Store, task: Task) {
    && SameBase(u, t) && u.receipts <= t.receipts
    && (forall r :: r in t.receipts && r !in u.receipts ==> r.task == task)
    && (t.bindings == u.bindings || (task in t.bindings && t.bindings == u.bindings[task := t.bindings[task]]))
  }

  lemma BehindCompletes(w: World, u: Store, t: Store, task: Task)
    requires Linked(w, u) && Linked(w, t) && Recoverable(t, task) && Behind(u, t, task)
    ensures Healthy(w, u, task) && Healthy(w, t, task) && Completed(w, t, task) == Completed(w, u, task)
  {
    ReachableHealthy(w, t, task);
    ReachableHealthy(w, u, task);
    SameReceipts(u, t, task);
    forall r | r in t.receipts && r !in u.receipts
      ensures exists op :: (task, op) in u.outputs && TheIntent(u, task, op).Some? && r == ReceiptFor(u, task, op)
    {
      assert ReceiptLinked(t, r);
      OnlyIntent(w, u, task, r.op);
      assert r == ReceiptFor(t, task, r.op);
    }
    SameCompletion(w, u, t, task);
  }

  /** The prefixes of a publication list after its third element only lack receipts and bindings. */
  ghost predicate TailOfTask(pubs: seq<Publication>, task: Task) {
    && 4 <= |pubs| <= 5 && pubs[3].PutReceipt? && pubs[3].receipt.task == task
    && (|pubs| == 5 ==> pubs[4].PutBinding? && pubs[4].binding.task == task)
  }

  lemma PrefixBehind(s: Store, pubs: seq<Publication>, task: Task, k: nat)
    requires TailOfTask(pubs, task) && 3 <= k <= |pubs|
    ensures Behind(PutAll(s, pubs[..k]), PutAll(s, pubs), task)
  {
    assert pubs[..|pubs|] == pubs;
    PutOne(s, pubs, 3);
    if |pubs| == 5 { PutOne(s, pubs, 4); }
  }

  predicate OperationOf(c: Call, task: Task) {
    match c
    case DraftCall(t, p, _) => t == task && p.ForDraft?
    case GenerateCall(t, _, _) => t == task
    case ExportCall(t, _, _) => t == task
    case _ => false
  }

  /** The call got as far as building its output. */
  ghost predicate Builds(w: World, s: Store, c: Call, task: Task) {
    OperationOf(c, task) && |ScriptOf(w, s, c).pubs| > 3
  }

  /** The publications of a call that builds its output. */
  datatype Build = Build(r: Request, parent: Parent, output: Output)

  ghost predicate BuiltAs(pubs: seq<Publication>, b: Build, task: Task) {
    && b.r.task == task && TailOfTask(pubs, task) && pubs[..4] == Produce(b.r, b.parent, b.output)
  }

  lemma DraftBuild(w: World, s: Store, task: Task, p: Payload, key: Key) returns (b: Build)
    requires p.ForDraft? && |DraftScript(w, s, task, p, key).pubs| > 3
    ensures BuiltAs(DraftScript(w, s, task, p, key).pubs, b, task) && (task, DraftOp) !in s.outputs
    ensures b.r == Request(task, DraftOp, key, p) && DraftScript(w, s, task, p, key).pubs == Produce(b.r, b.parent, b.output)
    ensures b.output.DraftOut? && DraftScript(w, s, task, p, key).answer == GaveDraft(b.output.draft)
  {
    b := Build(Request(task, DraftOp, key, p), OfCatalog(p.catalog), DraftOut(w.draftOf(p).value));
  }

  lemma GenerateBuild(w: World, s: Store, task: Task, confirmed: Draft, key: Key) returns (b: Build)
    requires |GenerateScript(w, s, task, confirmed, key).pubs| > 3
    ensures BuiltAs(GenerateScript(w, s, task, confirmed, key).pubs, b, task) && (task, GenerateOp) !in s.outputs
    ensures (task, DraftOp) in s.outputs && s.outputs[(task, DraftOp)] == DraftOut(confirmed)
    ensures b.r == Request(task, GenerateOp, key, ForGenerate(confirmed)) && b.output.ResultOut?
    ensures |GenerateScript(w, s, task, confirmed, key).pubs| == 5 ==>
              && DraftChain(PutAll(s, Produce(b.r, b.parent, b.output)), task).Some?
              && GenerateScript(w, s, task, confirmed, key).answer == GaveResult(b.output.result)
    ensures |GenerateScript(w, s, task, confirmed, key).pubs| == 4 ==> GenerateScript(w, s, task, confirmed, key).answer.Failed?
  {
    b := Build(Request(task, GenerateOp, key, ForGenerate(confirmed)), OfDraft(confirmed), ResultOut(w.resultOf(confirmed).value));
  }

  lemma ExportBuild(w: World, s: Store, task: Task, op: Operation, key: Key) returns (b: Build)
    requires |ExportScript(w, s, task, op, key).pubs| > 3
    ensures BuiltAs(ExportScript(w, s, task, op, key).pubs, b, task)
    ensures (task, GenerateOp) in s.outputs && s.outputs[(task, GenerateOp)].ResultOut?
    ensures b.r == Request(task, op, key, ForExport(s.outputs[(task, GenerateOp)].result))
    ensures ExportScript(w, s, task, op, key).pubs == Produce(b.r, b.parent, b.output)
    ensures b.output.ExportOut? && ExportScript(w, s, task, op, key).answer == GaveExport(b.output.bytes)
  {
    var d := s.outputs[(task, GenerateOp)].result;
    b := Build(Request(task, op, key, ForExport(d)), OfResult(d), ExportOut(w.exportOf(d, op).value));
  }

  lemma AnyBuild(w: World, s: Store, c: Call, task: Task) returns (b: Build)
    requires Builds(w, s, c, task)
    ensures BuiltAs(ScriptOf(w, s, c).pubs, b, task)
  {
    match c
    case DraftCall(_, p, key) => b := DraftBuild(w, s, task, p, key);
    case GenerateCall(_, confirmed, key) => b := GenerateBuild(w, s, task, confirmed, key);
    case ExportCall(_, pdf, key) => b := ExportBuild(w, s, task, if pdf then PdfOp else MarkdownOp, key);
  }

  lemma AfterIs(w: World, s: Store, c: Call, k: nat)
    requires k <= |ScriptOf(w, s, c).pubs|
    ensures After(w, s, c, k) == PutAll(s, ScriptOf(w, s, c).pubs[..k])
    ensures k == |ScriptOf(w, s, c).pubs| ==> After(w, s, c, k) == PutAll(s, ScriptOf(w, s, c).pubs)
  {
    var pubs := ScriptOf(w, s, c).pubs;
    assert pubs[..|pubs|] == pubs;
  }

  /** Crash at any point after the output, recover, and the store is what recovery makes of
      the uninterrupted run's store; the state reported is the same and is not attention. */
  lemma CrashThenRecover(w: World, s: Store, c: Call, task: Task, k: nat)
    requires Steady(w) && Linked(w, s) && Builds(w, s, c, task) && 3 <= k <= |ScriptOf(w, s, c).pubs|
    requires Recoverable(PutAll(s, ScriptOf(w, s, c).pubs), task)
    ensures var (t, u) := (PutAll(s, ScriptOf(w, s, c).pubs), After(w, s, c, k));
            && PutAll(u, RecoverScript(w, u, task).pubs) == PutAll(t, RecoverScript(w, t, task).pubs)
            && RecoverScript(w, u, task).answer == RecoverScript(w, t, task).answer == Recovered(StateOf(t, task))
  {
    var pubs := ScriptOf(w, s, c).pubs;
    var t, u := PutAll(s, pubs), After(w, s, c, k);
    var b := AnyBuild(w, s, c, task);
    AfterIs(w, s, c, k);
    AfterIs(w, s, c, |pubs|);
    AfterKeeps(w, s, c, k);
    AfterKeeps(w, s, c, |pubs|);
    PrefixBehind(s, pubs, task, k);
    BehindRecovers(w, u, t, task);
  }

  lemma BehindRecovers(w: World, u: Store, t: Store, task: Task)
    requires Linked(w, u) && Linked(w, t) && Recoverable(t, task) && Behind(u, t, task)
    ensures PutAll(u, RecoverScript(w, u, task).pubs) == PutAll(t, RecoverScript(w, t, task).pubs)
    ensures RecoverScript(w, u, task).answer == RecoverScript(w, t, task).answer == Recovered(StateOf(t, task))
  {
    BehindCompletes(w, u, t, task);
    RecoverCompletes(w, u, task);
    RecoverCompletes(w, t, task);
  }

  /** Nothing of the task is missing. */
  ghost predicate Finished(s: Store, task: Task) {
    && (forall op :: (task, op) in s.outputs ==> ReceiptIn(s, task, op).Some?)
    && ((task, GenerateOp) in s.outputs ==> task in s.bindings)
  }

  lemma FinishedIsComplete(w: World, s: Store, task: Task)
    requires Healthy(w, s, task) && Finished(s, task)
    ensures Completed(w, s, task) == s
  {
    forall op | (task, op) in s.outputs && TheIntent(s, task, op).Some? ensures ReceiptFor(s, task, op) in s.receipts {
      assert ReceiptIn(s, task, op).Some? && Traced(s, task, op);
    }
    assert s.receipts + AllReceipts(s, task) == s.receipts;
  }

  lemma NoneBefore(w: World, s: Store, task: Task, op: Operation)
    requires Linked(w, s) && op != DraftOp && (task, if op.GenerateOp? then DraftOp else GenerateOp) !in s.outputs
    ensures (task, op) !in s.outputs
  {
  }

  lemma ReceiptThere(s: Store, task: Task, op: Operation, r: Receipt)
    requires r in s.receipts && r.task == task && r.op == op
    ensures ReceiptIn(s, task, op).Some?
  {
  }

  lemma ProducedFinishes(w: World, s: Store, r: Request, parent: Parent, output: Output)
    requires Linked(w, s) && r.op != GenerateOp && (r.op == DraftOp ==> (r.task, DraftOp) !in s.outputs)
    requires r.op != DraftOp ==> Finished(s, r.task)
    ensures Finished(PutAll(s, Produce(r, parent, output)), r.task)
  {
    ProduceSteps(s, r, parent, output);
    var t := PutAll(s, Produce(r, parent, output));
    forall op | (r.task, op) in t.outputs ensures ReceiptIn(t, r.task, op).Some? {
      if op == r.op {
        ReceiptThere(t, r.task, op, Produce(r, parent, output)[3].receipt);
      } else if r.op == DraftOp {
        NoneBefore(w, s, r.task, GenerateOp);
        NoneBefore(w, s, r.task, op);
      } else {
        ReceiptThere(t, r.task, op, ReceiptIn(s, r.task, op).value);
      }
    }
    if r.op == DraftOp { NoneBefore(w, s, r.task, GenerateOp); }
  }

  /** The store after a result and its binding. */
  lemma BoundAfter(s: Store, pubs: seq<Publication>, b: Build, task: Task)
    requires BuiltAs(pubs, b, task) && |pubs| == 5
    ensures PutAll(s, pubs) == Put(PutAll(s, Produce(b.r, b.parent, b.output)), pubs[4])
    ensures var t := PutAll(s, pubs);
            && task in t.bindings && Produce(b.r, b.parent, b.output)[3].receipt in t.receipts
            && t.outputs == s.outputs[(task, b.r.op) := b.output]
  {
    ProduceSteps(s, b.r, b.parent, b.output);
    assert pubs[..5] == pubs;
    PutOne(s, pubs, 4);
  }

  lemma GeneratedFinishes(w: World, s: Store, pubs: seq<Publication>, b: Build, task: Task)
    requires Linked(w, s) && BuiltAs(pubs, b, task) && |pubs| == 5 && b.r.op == GenerateOp && (task, GenerateOp) !in s.outputs
    requires DraftChain(PutAll(s, Produce(b.r, b.parent, b.output)), task).Some?
    ensures Finished(PutAll(s, pubs), task)
  {
    var made := Produce(b.r, b.parent, b.output);
    BoundAfter(s, pubs, b, task);
    ChainFacts(PutAll(s, made), task);
    ReceiptThere(PutAll(s, pubs), task, DraftOp, DraftChain(PutAll(s, made), task).value);
    ReceiptThere(PutAll(s, pubs), task, GenerateOp, made[3].receipt);
    NoneBefore(w, s, task, MarkdownOp);
    NoneBefore(w, s, task, PdfOp);
  }

  /** A call that ends well leaves nothing missing. */
  lemma SuccessFinishes(w: World, s: Store, c: Call, task: Task)
    requires Linked(w, s) && Builds(w, s, c, task) && !ScriptOf(w, s, c).answer.Failed?
    requires c.ExportCall? ==> Finished(s, task)
    ensures Finished(PutAll(s, ScriptOf(w, s, c).pubs), task)
  {
    match c
    case DraftCall(_, p, key) =>
      var b := DraftBuild(w, s, task, p, key);
      ProducedFinishes(w, s, b.r, b.parent, b.output);
    case GenerateCall(_, confirmed, key) =>
      var b := GenerateBuild(w, s, task, confirmed, key);
      GeneratedFinishes(w, s, GenerateScript(w, s, task, confirmed, key).pubs, b, task);
    case ExportCall(_, pdf, key) =>
      var b := ExportBuild(w, s, task, if pdf then PdfOp else MarkdownOp, key);
      ProducedFinishes(w, s, b.r, b.parent, b.output);
  }

  /** Main result: crash anywhere after the output was published, then recover, and the record
      store is exactly the one that the uninterrupted run leaves; recovering again writes nothing. */
  lemma CrashEqualsUninterrupted(w: World, s: Store, c: Call, task: Task, k: nat)
    requires Steady(w) && Linked(w, s) && Builds(w, s, c, task) && 3 <= k <= |ScriptOf(w, s, c).pubs|
    requires !ScriptOf(w, s, c).answer.Failed? && (c.ExportCall? ==> Finished(s, task))
    requires Recoverable(PutAll(s, ScriptOf(w, s, c).pubs), task)
    ensures var (t, u) := (PutAll(s, ScriptOf(w, s, c).pubs), After(w, s, c, k));
            && PutAll(u, RecoverScript(w, u, task).pubs) == t
            && RecoverScript(w, t, task) == Script([], RecoverScript(w, u, task).answer)
            && RecoverScript(w, u, task).answer == Recovered(StateOf(t, task))
  {
    var t := PutAll(s, ScriptOf(w, s, c).pubs);
    CrashThenRecover(w, s, c, task, k);
    AfterIs(w, s, c, |ScriptOf(w, s, c).pubs|);
    AfterKeeps(w, s, c, |ScriptOf(w, s, c).pubs|);
    ReachableHealthy(w, t, task);
    SuccessFinishes(w, s, c, task);
    FinishedIsComplete(w, t, task);
    RecoverCompletes(w, t, task);
    RecoverTwice(w, t, task);
  }
}
