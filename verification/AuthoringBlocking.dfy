/** Exactly when a task can still get its binding. */
module AuthoringBlocking {
  import opened Wrappers
  import opened AuthoringStore
  import opened AuthoringRecovery
  import opened AuthoringCompletion
  import opened AuthoringRuns
  import opened AuthoringResults
  import opened AuthoringReplay

  // ---------------------------------------------------------------- the condition

  /** Exactly one intent for the slot. */
  ghost predicate One(s: Store, task: Task, op: Operation) {
    exists i :: Matching(s, task, op) == {i}
  }

  /** A receipt for the slot. */
  ghost predicate Filed(s: Store, task: Task, op: Operation) {
    exists r :: r in s.receipts && r.task == task && r.op == op
  }

  /** Some draft of these sources can be built and turned into a result, and the store has room for the task. */
  ghost predicate Startable(w: World, s: Store, task: Task) {
    && (task in KnownTasks(s) || |KnownTasks(s)| < MAX_TASKS)
    && exists p :: Buildable(w, p)
  }

  ghost predicate Buildable(w: World, p: Payload) {
    p.ForDraft? && CatalogOk(w, p) && w.readmeOk(p) && w.draftOf(p).Some? && w.resultOf(w.draftOf(p).value).Some?
  }

  /** An export slot does not stop recovery: its receipt is filed or can be restored, or its
      output is not asked for or can still be built. */
  ghost predicate Passes(w: World, s: Store, task: Task, op: Operation) {
    if (task, op) in s.outputs then Filed(s, task, op) || One(s, task, op)
    else Matching(s, task, op) != {} ==> ResultIn(s, task).Some? && w.exportOf(ResultIn(s, task).value, op).Some?
  }

  /** What the records must look like for an unbound task to be bound some day. With a result:
      one draft intent, one generate intent, and no export in the way. With a draft only: one
      draft intent, and a receipt or no generate intent yet. With neither: no draft intent. */
  ghost predicate Bindable(w: World, s: Store, task: Task) {
    if ResultIn(s, task).Some? then
      One(s, task, DraftOp) && One(s, task, GenerateOp) && Passes(w, s, task, MarkdownOp) && Passes(w, s, task, PdfOp)
    else if DraftIn(s, task).Some? then
      && One(s, task, DraftOp) && (Filed(s, task, DraftOp) || Matching(s, task, GenerateOp) == {})
      && w.resultOf(DraftIn(s, task).value).Some?
    else Matching(s, task, DraftOp) == {} && Startable(w, s, task)
  }

  lemma TwoNotOne(s: Store, task: Task, op: Operation, i: Intent, j: Intent)
    requires i in Matching(s, task, op) && j in Matching(s, task, op) && i != j
    ensures !One(s, task, op)
  {
  }

  lemma OneIs(s: Store, task: Task, op: Operation)
    ensures One(s, task, op) <==> TheIntent(s, task, op).Some?
  {
  }

  /** In a linked store an output has its kind, its intent, and what it was made from. */
  lemma OutputFacts(w: World, s: Store, task: Task)
    requires Linked(w, s)
    ensures (task, DraftOp) in s.outputs <==> DraftIn(s, task).Some?
    ensures (task, GenerateOp) in s.outputs <==> ResultIn(s, task).Some?
    ensures ResultIn(s, task).Some? ==> DraftIn(s, task) == Some(ResultIn(s, task).value.parent)
    ensures forall op :: (task, op) in s.outputs ==> Matching(s, task, op) != {}
    ensures forall op :: (task, op) in s.outputs && op != DraftOp && op != GenerateOp ==> ResultIn(s, task).Some?
  {
    forall op | (task, op) in s.outputs
      ensures Matching(s, task, op) != {}
      ensures op.DraftOp? ==> s.outputs[(task, op)].DraftOut?
      ensures op.GenerateOp? ==> s.outputs[(task, op)].ResultOut? && (task, DraftOp) in s.outputs
                                 && s.outputs[(task, DraftOp)] == DraftOut(s.outputs[(task, op)].result.parent)
      ensures op != DraftOp && op != GenerateOp ==> (task, GenerateOp) in s.outputs
    {
      assert OutputLinked(w, s, task, op);
    }
  }

  // ---------------------------------------------------------------- what a call leaves alone

  /** Nothing of the task differs, as far as its binding is concerned. */
  ghost predicate SameTask(s: Store, t: Store, task: Task) {
    && (forall op :: Matching(s, task, op) == Matching(t, task, op))
    && (forall op :: (task, op) in s.outputs <==> (task, op) in t.outputs)
    && (forall op :: (task, op) in s.outputs && (task, op) in t.outputs ==> s.outputs[(task, op)] == t.outputs[(task, op)])
    && (forall op :: Filed(s, task, op) <==> Filed(t, task, op))
    && (task in s.bindings <==> task in t.bindings)
  }

  lemma SameTaskBindable(w: World, s: Store, t: Store, task: Task)
    requires SameTask(s, t, task) && (Startable(w, t, task) ==> Startable(w, s, task))
    ensures Bindable(w, t, task) ==> Bindable(w, s, task)
  {
    assert DraftIn(s, task) == DraftIn(t, task) && ResultIn(s, task) == ResultIn(t, task);
    assert forall op :: One(s, task, op) <==> One(t, task, op);
  }

  /** The publication is a record of the task. */
  predicate About(p: Publication, task: Task) {
    match p
    case PutCatalog(_) => true
    case PutRequest(r) => r.task == task
    case PutIntent(i) => i.task == task
    case PutOutput(t, _, _) => t == task
    case PutReceipt(r) => r.task == task
    case PutBinding(b) => b.task == task
  }

  ghost predicate AllAbout(pubs: seq<Publication>, task: Task) {
    forall p :: p in pubs ==> About(p, task)
  }

  lemma ForeignFiled(s: Store, r: Receipt, task: Task, op: Operation)
    requires r.task != task
    ensures Filed(s, task, op) <==> Filed(s.(receipts := s.receipts + {r}), task, op)
  {
  }

  lemma ForeignPut(s: Store, p: Publication, other: Task, task: Task)
    requires About(p, other) && other != task
    ensures SameTask(s, Put(s, p), task)
    ensures KnownTasks(s) <= KnownTasks(Put(s, p)) <= KnownTasks(s) + {other}
  {
    var t := Put(s, p);
    forall op ensures Matching(s, task, op) == Matching(t, task, op) {}
    if p.PutReceipt? {
      forall op ensures Filed(s, task, op) <==> Filed(t, task, op) { ForeignFiled(s, p.receipt, task, op); }
    }
  }

  lemma SameTaskOver(s: Store, t: Store, u: Store, task: Task)
    requires SameTask(s, t, task) && SameTask(t, u, task)
    ensures SameTask(s, u, task)
  {
  }

  lemma {:induction false} ForeignAll(s: Store, pubs: seq<Publication>, k: nat, other: Task, task: Task)
    requires AllAbout(pubs, other) && other != task && k <= |pubs|
    ensures SameTask(s, PutAll(s, pubs[..k]), task)
    ensures KnownTasks(s) <= KnownTasks(PutAll(s, pubs[..k])) <= KnownTasks(s) + {other}
  {
    if k > 0 {
      var j: nat := k - 1;
      ForeignAll(s, pubs, j, other, task);
      PutOne(s, pubs, j);
      assert pubs[j] in pubs;
      ForeignPut(PutAll(s, pubs[..j]), pubs[j], other, task);
      SameTaskOver(s, PutAll(s, pubs[..j]), PutAll(s, pubs[..k]), task);
    }
  }

  lemma StartableBefore(w: World, s: Store, t: Store, other: Task, task: Task)
    requires KnownTasks(s) <= KnownTasks(t) <= KnownTasks(s) + {other} && other != task && Startable(w, t, task)
    ensures Startable(w, s, task)
  {
    CardinalityGrows(KnownTasks(s), KnownTasks(t));
  }

  lemma CardinalityGrows(a: set<Task>, b: set<Task>)
    requires a <= b
    ensures |a| <= |b|
  {
    assert b == a + (b - a);
  }

  lemma InOrderAbout(pubs: seq<Publication>, r: Request, parent: Parent, output: Output)
    requires InOrder(pubs, r, parent, output)
    ensures AllAbout(pubs, r.task)
  {
    var all := Produce(r, parent, output);
    if |pubs| == 5 {
      assert pubs == pubs[..4] + [pubs[4]];
    } else {
      assert forall p :: p in pubs ==> p in all;
    }
  }

  lemma TurnAbout(w: World, g: Progress, task: Task, op: Operation)
    requires AllAbout(g.pubs, task)
    ensures AllAbout(RecoverOutput(w, g, task, op).pubs, task)
  {
    if !g.stopped && (task, op) in g.store.outputs { InspectKeeps(Restore(w, g, task, op), task, op); }
  }

  lemma RepairAbout(w: World, g: Progress, task: Task)
    requires AllAbout(g.pubs, task)
    ensures AllAbout(RecoverBinding(w, g, task).pubs, task)
  {
    if DraftChain(g.store, task).Some? { ChainFacts(g.store, task); }
  }

  lemma RecoverAbout(w: World, s: Store, task: Task)
    ensures AllAbout(RecoverScript(w, s, task).pubs, task)
  {
    var a := RecoverOutput(w, Started(s), task, DraftOp);
    var b := RecoverOutput(w, a, task, GenerateOp);
    var c := RecoverOutput(w, b, task, MarkdownOp);
    TurnAbout(w, Started(s), task, DraftOp);
    TurnAbout(w, a, task, GenerateOp);
    TurnAbout(w, b, task, MarkdownOp);
    TurnAbout(w, c, task, PdfOp);
    RepairAbout(w, RecoverOutput(w, c, task, PdfOp), task);
  }

  /** The task a call is about. */
  function TaskOf(c: Call): Option<Task> {
    match c
    case CatalogCall(_) => None
    case DraftCall(t, _, _) => Some(t)
    case GenerateCall(t, _, _) => Some(t)
    case ExportCall(t, _, _) => Some(t)
    case RecoverCall(t, _) => Some(t)
  }

  lemma ScriptAbout(w: World, s: Store, c: Call, task: Task)
    requires TaskOf(c) == Some(task)
    ensures AllAbout(ScriptOf(w, s, c).pubs, task)
  {
    if ScriptOf(w, s, c).pubs != [] {
      match c
      case DraftCall(_, p, key) =>
        var output := DraftOrder(w, s, task, p, key);
        InOrderAbout(ScriptOf(w, s, c).pubs, Request(task, DraftOp, key, p), OfCatalog(p.catalog), output);
      case GenerateCall(_, d, key) =>
        var output := GenerateOrder(w, s, task, d, key);
        InOrderAbout(ScriptOf(w, s, c).pubs, Request(task, GenerateOp, key, ForGenerate(d)), OfDraft(d), output);
      case ExportCall(_, pdf, key) =>
        var op := if pdf then PdfOp else MarkdownOp;
        var output := ExportOrder(w, s, task, op, key);
        var d := s.outputs[(task, GenerateOp)].result;
        InOrderAbout(ScriptOf(w, s, c).pubs, Request(task, op, key, ForExport(d)), OfResult(d), output);
      case RecoverCall(_, _) =>
        RecoverAbout(w, s, task);
        RootlessExactly(w, s, task);
    }
  }

  /** A call about another task, or a catalog, does not help. */
  lemma ForeignBack(w: World, s: Store, c: Call, k: nat, task: Task)
    requires TaskOf(c) != Some(task) && k <= |ScriptOf(w, s, c).pubs|
    ensures var t := PutAll(s, ScriptOf(w, s, c).pubs[..k]);
            (task in t.bindings ==> task in s.bindings) && (Bindable(w, t, task) ==> Bindable(w, s, task))
  {
    var pubs := ScriptOf(w, s, c).pubs;
    var t := PutAll(s, pubs[..k]);
    var other: Task := if TaskOf(c).Some? then TaskOf(c).value else task + "-";
    if TaskOf(c).Some? { ScriptAbout(w, s, c, other); }
    assert |task + "-"| != |task|;
    ForeignAll(s, pubs, k, other, task);
    if Startable(w, t, task) { StartableBefore(w, s, t, other, task); }
    SameTaskBindable(w, s, t, task);
  }

  // ---------------------------------------------------------------- what a call about the task can do

  /** How the task's records have grown after `k` publications of a fresh operation, the binding aside. */
  ghost predicate GrewBy(s: Store, t: Store, r: Request, i: Intent, output: Output, k: nat) {
    && t.bindings == s.bindings && i !in s.intents
    && (forall op :: Matching(t, r.task, op) == Matching(s, r.task, op) + (if k > 1 && op == r.op then {i} else {}))
    && t.outputs == (if k > 2 then s.outputs[(r.task, r.op) := output] else s.outputs)
    && (forall op :: Filed(t, r.task, op) <==> Filed(s, r.task, op) || (k > 3 && op == r.op))
  }

  lemma GrownFiled(s: Store, t: Store, q: Receipt, task: Task)
    requires t.receipts == s.receipts + {q} && q.task == task
    ensures forall op :: Filed(t, task, op) <==> Filed(s, task, op) || op == q.op
  {
    forall op ensures Filed(t, task, op) <==> Filed(s, task, op) || op == q.op { assert q in t.receipts; }
  }

  lemma GrownMatching(s: Store, t: Store, i: Intent, more: bool)
    requires t.intents == if more then s.intents + {i} else s.intents
    ensures forall op :: Matching(t, i.task, op) == Matching(s, i.task, op) + (if more && op == i.op then {i} else {})
  {
    forall op ensures Matching(t, i.task, op) == Matching(s, i.task, op) + (if more && op == i.op then {i} else {}) {}
  }

  lemma GrownIs(w: World, s: Store, r: Request, parent: Parent, output: Output, k: nat)
    requires Linked(w, s) && SameKey(s, r) == {} && k <= 4
    ensures GrewBy(s, Grown(s, r, parent, output, k), r, Intent(r.task, r.op, r, parent), output, k)
  {
    ProduceSteps(s, r, parent, output);
    var t := Grown(s, r, parent, output, k);
    var i := Intent(r.task, r.op, r, parent);
    assert r in s.requests ==> r in SameKey(s, r);
    IntentFree(w, s, r, i);
    GrownMatching(s, t, i, k > 1);
    if k > 3 { GrownFiled(s, t, Receipt(r.task, r.op, i, output, SchemaOf(r.op)), r.task); }
  }

  /** A second intent for a slot. */
  lemma SecondIntent(s: Store, t: Store, task: Task, op: Operation, i: Intent)
    requires i !in s.intents && Matching(t, task, op) == Matching(s, task, op) + {i} && Matching(s, task, op) != {}
    ensures !One(t, task, op)
  {
    var j :| j in Matching(s, task, op);
    TwoNotOne(t, task, op, i, j);
  }

  lemma DraftBack(w: World, s: Store, task: Task, p: Payload, key: Key, k: nat)
    requires Steady(w) && Linked(w, s) && p.ForDraft? && k <= |DraftScript(w, s, task, p, key).pubs|
    ensures var t := PutAll(s, DraftScript(w, s, task, p, key).pubs[..k]);
            t.bindings == s.bindings && (Bindable(w, t, task) ==> Bindable(w, s, task))
  {
    if k > 0 {
      var r := Request(task, DraftOp, key, p);
      var output := DraftOrder(w, s, task, p, key);
      PrefixIs(s, DraftScript(w, s, task, p, key).pubs, r, OfCatalog(p.catalog), output, k);
      GrownIs(w, s, r, OfCatalog(p.catalog), output, k);
      DraftGrew(w, s, Grown(s, r, OfCatalog(p.catalog), output, k), r, Intent(task, DraftOp, r, OfCatalog(p.catalog)), output, k);
    }
  }

  /** A request alone changes nothing for the binding. */
  lemma RequestGrew(w: World, s: Store, t: Store, r: Request, i: Intent, output: Output)
    requires GrewBy(s, t, r, i, output, 1) && (r.task in KnownTasks(s) || |KnownTasks(s)| < MAX_TASKS)
    ensures Bindable(w, t, r.task) ==> Bindable(w, s, r.task)
  {
    assert forall op :: Matching(t, r.task, op) == Matching(s, r.task, op) + {};
    SameTaskBindable(w, s, t, r.task);
  }

  /** A second draft intent, or one whose output is missing, ends it. */
  lemma DraftIntentGrew(w: World, s: Store, t: Store, r: Request, i: Intent, output: Output, k: nat)
    requires Linked(w, s) && r.op == DraftOp && 2 <= k <= 4 && GrewBy(s, t, r, i, output, k)
    requires k == 2 || Matching(s, r.task, DraftOp) != {}
    ensures !Bindable(w, t, r.task)
  {
    assert i in Matching(t, r.task, DraftOp);
    if Matching(s, r.task, DraftOp) != {} {
      SecondIntent(s, t, r.task, DraftOp, i);
    } else {
      OutputFacts(w, s, r.task);
    }
  }

  lemma DraftGrew(w: World, s: Store, t: Store, r: Request, i: Intent, output: Output, k: nat)
    requires Linked(w, s) && r.op == DraftOp && 0 < k <= 4 && GrewBy(s, t, r, i, output, k)
    requires r.payload.ForDraft? && CatalogOk(w, r.payload) && (k > 1 ==> w.readmeOk(r.payload))
    requires r.task in KnownTasks(s) || |KnownTasks(s)| < MAX_TASKS
    requires k > 2 ==> (r.task, DraftOp) !in s.outputs && w.draftOf(r.payload).Some? && output == DraftOut(w.draftOf(r.payload).value)
    ensures Bindable(w, t, r.task) ==> Bindable(w, s, r.task)
  {
    if k == 1 {
      RequestGrew(w, s, t, r, i, output);
    } else if k == 2 || Matching(s, r.task, DraftOp) != {} {
      DraftIntentGrew(w, s, t, r, i, output, k);
    } else {
      OutputFacts(w, s, r.task);
      assert ResultIn(t, r.task) == ResultIn(s, r.task) == None && DraftIn(s, r.task) == None && DraftIn(t, r.task).Some?;
      if Bindable(w, t, r.task) { assert Buildable(w, r.payload); }
    }
  }

  lemma GenerateBack(w: World, s: Store, task: Task, d: Draft, key: Key, k: nat)
    requires Steady(w) && Linked(w, s) && k <= |GenerateScript(w, s, task, d, key).pubs|
    ensures var t := PutAll(s, GenerateScript(w, s, task, d, key).pubs[..k]);
            (task in s.bindings || task in t.bindings || Bindable(w, t, task)) ==> task in s.bindings || Bindable(w, s, task)
  {
    if k > 0 {
      var r := Request(task, GenerateOp, key, ForGenerate(d));
      var output := GenerateOrder(w, s, task, d, key);
      var pubs := GenerateScript(w, s, task, d, key).pubs;
      PrefixIs(s, pubs, r, OfDraft(d), output, k);
      var t := Grown(s, r, OfDraft(d), output, k);
      GrownIs(w, s, r, OfDraft(d), output, if k <= 4 then k else 4);
      GenerateGrew(w, s, t, r, Intent(task, GenerateOp, r, OfDraft(d)), output, if k <= 4 then k else 4);
      if k == 5 {
        assert Produce(r, OfDraft(d), output)[..4] == Produce(r, OfDraft(d), output);
        ChainMeansDraft(w, s, t, r, Intent(task, GenerateOp, r, OfDraft(d)), output);
      }
    }
  }

  /** The draft that a result is asked for is the one on file. */
  predicate Parented(s: Store, r: Request) {
    && r.op == GenerateOp && r.payload.ForGenerate? && (r.task, DraftOp) in s.outputs
    && s.outputs[(r.task, DraftOp)] == DraftOut(r.payload.draft)
  }

  lemma SameDraftSlot(s: Store, t: Store, r: Request, i: Intent, output: Output, k: nat)
    requires r.op != DraftOp && GrewBy(s, t, r, i, output, k)
    ensures DraftIn(t, r.task) == DraftIn(s, r.task)
    ensures One(t, r.task, DraftOp) <==> One(s, r.task, DraftOp)
    ensures Filed(t, r.task, DraftOp) <==> Filed(s, r.task, DraftOp)
  {
    assert Matching(t, r.task, DraftOp) == Matching(s, r.task, DraftOp) + {};
  }

  /** A second intent for the result: only a filed draft receipt can still help. */
  lemma SecondGenerate(w: World, s: Store, t: Store, r: Request, i: Intent, output: Output, k: nat)
    requires Linked(w, s) && Parented(s, r) && 2 <= k <= 4 && GrewBy(s, t, r, i, output, k)
    requires Matching(s, r.task, GenerateOp) != {} && (k > 2 ==> output.ResultOut?)
    ensures Bindable(w, t, r.task) ==> Bindable(w, s, r.task)
  {
    SecondIntent(s, t, r.task, GenerateOp, i);
    SameDraftSlot(s, t, r, i, output, k);
    assert i in Matching(t, r.task, GenerateOp);
    if ResultIn(t, r.task).None? { assert ResultIn(s, r.task).None?; }
  }

  lemma FirstGenerate(w: World, s: Store, t: Store, r: Request, i: Intent, output: Output, k: nat)
    requires Linked(w, s) && Parented(s, r) && 2 <= k <= 4 && GrewBy(s, t, r, i, output, k)
    requires Matching(s, r.task, GenerateOp) == {} && (k > 2 ==> w.resultOf(r.payload.draft).Some?)
    ensures Bindable(w, t, r.task) ==> Bindable(w, s, r.task)
  {
    OutputFacts(w, s, r.task);
    SameDraftSlot(s, t, r, i, output, k);
    if k == 2 { assert ResultIn(t, r.task) == ResultIn(s, r.task); }
  }

  lemma GenerateGrew(w: World, s: Store, t: Store, r: Request, i: Intent, output: Output, k: nat)
    requires Linked(w, s) && Parented(s, r) && 0 < k <= 4 && GrewBy(s, t, r, i, output, k)
    requires k > 2 ==> w.resultOf(r.payload.draft).Some? && output.ResultOut?
    ensures Bindable(w, t, r.task) ==> Bindable(w, s, r.task)
  {
    if k == 1 {
      TaskKnown(w, s, r.task);
      RequestGrew(w, s, t, r, i, output);
    } else if Matching(s, r.task, GenerateOp) != {} {
      SecondGenerate(w, s, t, r, i, output, k);
    } else {
      FirstGenerate(w, s, t, r, i, output, k);
    }
  }

  lemma TaskKnown(w: World, s: Store, task: Task)
    requires Linked(w, s) && (task, DraftOp) in s.outputs
    ensures task in KnownTasks(s)
  {
    OutputFacts(w, s, task);
    var i :| i in Matching(s, task, DraftOp);
    assert i in s.intents;
  }

  /** A call that publishes the binding itself found the draft's chain in order. */
  lemma ChainMeansDraft(w: World, s: Store, t: Store, r: Request, i: Intent, output: Output)
    requires Linked(w, s) && Parented(s, r) && GrewBy(s, t, r, i, output, 4) && (r.task, GenerateOp) !in s.outputs
    requires w.resultOf(r.payload.draft).Some? && DraftChain(t, r.task).Some?
    ensures Bindable(w, s, r.task)
  {
    OutputFacts(w, s, r.task);
    SameDraftSlot(s, t, r, i, output, 4);
    ChainFacts(t, r.task);
    OneIs(t, r.task, DraftOp);
    assert Filed(t, r.task, DraftOp);
  }

  lemma ExportBack(w: World, s: Store, task: Task, op: Operation, key: Key, k: nat)
    requires Steady(w) && Linked(w, s) && (op.MarkdownOp? || op.PdfOp?) && k <= |ExportScript(w, s, task, op, key).pubs|
    ensures var t := PutAll(s, ExportScript(w, s, task, op, key).pubs[..k]);
            t.bindings == s.bindings && (Bindable(w, t, task) ==> Bindable(w, s, task))
  {
    if k > 0 {
      var output := ExportOrder(w, s, task, op, key);
      var d := s.outputs[(task, GenerateOp)].result;
      var r := Request(task, op, key, ForExport(d));
      PrefixIs(s, ExportScript(w, s, task, op, key).pubs, r, OfResult(d), output, k);
      GrownIs(w, s, r, OfResult(d), output, k);
      ExportGrew(w, s, Grown(s, r, OfResult(d), output, k), r, Intent(task, op, r, OfResult(d)), output, k);
    }
  }

  lemma ExportGrew(w: World, s: Store, t: Store, r: Request, i: Intent, output: Output, k: nat)
    requires Linked(w, s) && (r.op.MarkdownOp? || r.op.PdfOp?) && 0 < k <= 4 && GrewBy(s, t, r, i, output, k)
    requires r.payload.ForExport? && (r.task, GenerateOp) in s.outputs && s.outputs[(r.task, GenerateOp)] == ResultOut(r.payload.result)
    requires k > 2 ==> (r.task, r.op) !in s.outputs && w.exportOf(r.payload.result, r.op).Some?
    ensures Bindable(w, t, r.task) ==> Bindable(w, s, r.task)
  {
    OutputFacts(w, s, r.task);
    if k > 1 && Matching(s, r.task, r.op) != {} { SecondIntent(s, t, r.task, r.op, i); }
    assert ResultIn(t, r.task) == ResultIn(s, r.task);
    assert Passes(w, t, r.task, r.op) ==> Passes(w, s, r.task, r.op);
    forall op | op != r.op ensures Passes(w, t, r.task, op) ==> Passes(w, s, r.task, op) {}
  }

  // ---------------------------------------------------------------- what recovery can do

  /** A receipt that recovery may file: of an output with a single intent. */
  ghost predicate FilesReceipt(s: Store, p: Publication, task: Task) {
    p.PutReceipt? && p.receipt.task == task && (task, p.receipt.op) in s.outputs && One(s, task, p.receipt.op)
  }

  ghost predicate Restoring(s: Store, g: Progress, task: Task) {
    && g.store == PutAll(s, g.pubs) && g.store.outputs == s.outputs && g.store.intents == s.intents
    && (forall p :: p in g.pubs ==> FilesReceipt(s, p, task))
  }

  /** Only such receipts have been added. */
  ghost predicate Restored(s: Store, t: Store, task: Task) {
    && SameBase(s, t) && t.bindings == s.bindings && s.receipts <= t.receipts
    && (forall r :: r in t.receipts && r !in s.receipts ==> r.task == task && (task, r.op) in s.outputs && One(s, task, r.op))
  }

  lemma {:induction false} FilesAll(s: Store, pubs: seq<Publication>, k: nat, task: Task)
    requires (forall p :: p in pubs ==> FilesReceipt(s, p, task)) && k <= |pubs|
    ensures Restored(s, PutAll(s, pubs[..k]), task)
  {
    if k > 0 {
      var j: nat := k - 1;
      FilesAll(s, pubs, j, task);
      PutOne(s, pubs, j);
      assert pubs[j] in pubs;
    }
  }

  lemma RestoredFiled(s: Store, t: Store, task: Task, op: Operation)
    requires Restored(s, t, task) && Filed(t, task, op)
    ensures Filed(s, task, op) || ((task, op) in s.outputs && One(s, task, op))
  {
    var r :| r in t.receipts && r.task == task && r.op == op;
    assert r in s.receipts ==> Filed(s, task, op);
  }

  /** A store without an intent that lacks its output has, for a missing output, no intent at all. */
  lemma NotDangling(s: Store, task: Task, op: Operation)
    requires !Dangling(s, task) && (task, op) !in s.outputs
    ensures Matching(s, task, op) == {}
  {
  }

  lemma RestoredBack(w: World, s: Store, t: Store, task: Task)
    requires Linked(w, s) && !Dangling(s, task) && Restored(s, t, task) && Bindable(w, t, task)
    ensures Bindable(w, s, task)
  {
    forall op ensures Matching(s, task, op) == Matching(t, task, op) {}
    forall op | Filed(t, task, op) ensures Filed(s, task, op) || ((task, op) in s.outputs && One(s, task, op)) {
      RestoredFiled(s, t, task, op);
    }
    OutputFacts(w, s, task);
    if (task, GenerateOp) !in s.outputs { NotDangling(s, task, GenerateOp); }
    assert KnownTasks(s) == KnownTasks(t);
  }

  lemma RestoreRestoring(w: World, s: Store, g: Progress, task: Task, op: Operation)
    requires Restoring(s, g, task) && (task, op) in g.store.outputs
    ensures var h := Restore(w, g, task, op);
            Restoring(s, h, task) && g.store.receipts <= h.store.receipts && (!h.stopped && !g.stopped ==> Filed(h.store, task, op))
  {
    var i := TheIntent(g.store, task, op);
    if i.Some? && ReceiptIn(g.store, task, op).None? {
      SameIntent(s, g.store, task, op);
      OneIs(s, task, op);
      var q := Receipt(task, op, i.value, g.store.outputs[(task, op)], SchemaOf(op));
      assert (g.pubs + [PutReceipt(q)])[..|g.pubs|] == g.pubs;
      assert Free(g.store, PutReceipt(q)) ==> q in Put(g.store, PutReceipt(q)).receipts;
    }
  }

  lemma TurnRestoring(w: World, s: Store, g: Progress, task: Task, op: Operation)
    requires Restoring(s, g, task)
    ensures var h := RecoverOutput(w, g, task, op);
            && Restoring(s, h, task) && g.store.receipts <= h.store.receipts && (g.stopped ==> h.stopped)
            && (!h.stopped && (task, op) in s.outputs ==> Filed(h.store, task, op))
  {
    if !g.stopped && (task, op) in g.store.outputs {
      RestoreRestoring(w, s, g, task, op);
      InspectKeeps(Restore(w, g, task, op), task, op);
    }
  }

  /** When no turn stops, both exports pass. */
  lemma TurnsRestoring(w: World, s: Store, task: Task)
    requires Linked(w, s) && !Dangling(s, task)
    ensures var d := RecoverOutputs(w, s, task);
            Restoring(s, d, task) && (!d.stopped ==> Passes(w, s, task, MarkdownOp) && Passes(w, s, task, PdfOp))
  {
    var a := RecoverOutput(w, Started(s), task, DraftOp);
    var b := RecoverOutput(w, a, task, GenerateOp);
    var c := RecoverOutput(w, b, task, MarkdownOp);
    var d := RecoverOutput(w, c, task, PdfOp);
    TurnRestoring(w, s, Started(s), task, DraftOp);
    TurnRestoring(w, s, a, task, GenerateOp);
    TurnRestoring(w, s, b, task, MarkdownOp);
    TurnRestoring(w, s, c, task, PdfOp);
    if !d.stopped {
      FiledPasses(w, s, d, task, MarkdownOp);
      FiledPasses(w, s, d, task, PdfOp);
    }
  }

  lemma FiledPasses(w: World, s: Store, d: Progress, task: Task, op: Operation)
    requires !Dangling(s, task) && Restoring(s, d, task) && ((task, op) in s.outputs ==> Filed(d.store, task, op))
    ensures Passes(w, s, task, op)
  {
    if (task, op) in s.outputs {
      FilesAll(s, d.pubs, |d.pubs|, task);
      assert d.pubs[..|d.pubs|] == d.pubs;
      RestoredFiled(s, d.store, task, op);
    } else {
      NotDangling(s, task, op);
    }
  }

  /** What the binding step adds, and when. */
  lemma BindingStep(w: World, s: Store, d: Progress, task: Task)
    requires Linked(w, s) && d.store.outputs == s.outputs && d.store.intents == s.intents && task !in d.store.bindings
    ensures var g := RecoverBinding(w, d, task);
            g.pubs == d.pubs || (|g.pubs| == |d.pubs| + 1 && g.pubs[..|d.pubs|] == d.pubs && !d.stopped
                                 && One(s, task, DraftOp) && One(s, task, GenerateOp) && ResultIn(s, task).Some?)
  {
    SameIntent(s, d.store, task, DraftOp);
    SameIntent(s, d.store, task, GenerateOp);
    OneIs(s, task, DraftOp);
    OneIs(s, task, GenerateOp);
  }

  /** Recovery of an unbound task files receipts, and then perhaps the binding of a bindable task. */
  lemma RecoverShape(w: World, s: Store, task: Task) returns (n: nat)
    requires Linked(w, s) && task !in s.bindings && !Dangling(s, task)
    ensures var pubs := RecoverScript(w, s, task).pubs;
            n <= |pubs| && (forall p :: p in pubs[..n] ==> FilesReceipt(s, p, task)) && (n < |pubs| ==> Bindable(w, s, task))
  {
    var d := RecoverOutputs(w, s, task);
    TurnsRestoring(w, s, task);
    FilesAll(s, d.pubs, |d.pubs|, task);
    assert d.pubs[..|d.pubs|] == d.pubs;
    BindingStep(w, s, d, task);
    n := |d.pubs|;
  }

  lemma RecoverBack(w: World, s: Store, task: Task, k: nat)
    requires Linked(w, s) && task !in s.bindings && k <= |RecoverScript(w, s, task).pubs|
    ensures var t := PutAll(s, RecoverScript(w, s, task).pubs[..k]);
            (task in t.bindings || Bindable(w, t, task)) ==> Bindable(w, s, task)
  {
    if !Dangling(s, task) {
      var pubs := RecoverScript(w, s, task).pubs;
      var n := RecoverShape(w, s, task);
      if k <= n {
        assert pubs[..n][..k] == pubs[..k];
        FilesAll(s, pubs[..n], k, task);
        var t := PutAll(s, pubs[..k]);
        if Bindable(w, t, task) { RestoredBack(w, s, t, task); }
      }
    }
  }

  // ---------------------------------------------------------------- a task that can not be bound stays so

  lemma ScriptBack(w: World, s: Store, c: Call, k: nat, task: Task)
    requires Steady(w) && Linked(w, s) && task !in s.bindings && k <= |ScriptOf(w, s, c).pubs|
    ensures var t := PutAll(s, ScriptOf(w, s, c).pubs[..k]);
            (task in t.bindings || Bindable(w, t, task)) ==> Bindable(w, s, task)
  {
    if TaskOf(c) != Some(task) {
      ForeignBack(w, s, c, k, task);
    } else {
      match c
      case DraftCall(_, p, key) => if p.ForDraft? { DraftBack(w, s, task, p, key, k); }
      case GenerateCall(_, d, key) => GenerateBack(w, s, task, d, key, k);
      case ExportCall(_, pdf, key) => ExportBack(w, s, task, if pdf then PdfOp else MarkdownOp, key, k);
      case RecoverCall(_, root) =>
        RootlessExactly(w, s, task);
        RecoverBack(w, s, task, if root || AllFiled(s, task) then k else 0);
    }
  }

  /** A task that is unbound and not bindable is so for ever, whatever is called and wherever it crashes. */
  lemma {:induction false} BlockedForever(w: World, s: Store, task: Task, calls: seq<(Call, nat)>)
    requires Steady(w) && Linked(w, s) && task !in s.bindings && !Bindable(w, s, task)
    ensures var t := Play(w, s, calls); task !in t.bindings && !Bindable(w, t, task)
  {
    if calls != [] {
      var n: nat := |calls| - 1;
      BlockedForever(w, s, task, calls[..n]);
      Monotone(w, s, calls[..n]);
      var t := Play(w, s, calls[..n]);
      var pubs := ScriptOf(w, t, calls[n].0).pubs;
      ScriptBack(w, t, calls[n].0, if calls[n].1 <= |pubs| then calls[n].1 else |pubs|, task);
      assert pubs[..|pubs|] == pubs;
    }
  }
}
