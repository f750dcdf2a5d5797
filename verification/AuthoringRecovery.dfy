/** `recover_authoring_state` and `_repair_binding_if_complete`: what recovery publishes,
    and that on a healthy store it completes exactly what is missing. */
module AuthoringRecovery {
  import opened Wrappers
  import opened AuthoringStore

  /** Recovery so far; `stopped` means that it has answered attention, `raised` that it did so
      by an error: `_matching_intent` raises when a slot has several intents. */
  datatype Progress = Progress(pubs: seq<Publication>, store: Store, stopped: bool,
                               draft: Option<Draft>, result: Option<ResultDoc>, exports: set<Operation>, raised: bool)

  /** A receipt filed under the task and operation, if there is one. */
  ghost function ReceiptIn(s: Store, task: Task, op: Operation): (r: Option<Receipt>)
    ensures r.Some? ==> r.value in s.receipts && r.value.task == task && r.value.op == op
    ensures r.None? ==> forall q :: q in s.receipts ==> q.task != task || q.op != op
  {
    if q :| q in s.receipts && q.task == task && q.op == op then Some(q) else None
  }

  /** No output has two receipts. */
  predicate OneReceiptEach(s: Store) {
    forall q, r :: q in s.receipts && r in s.receipts && q.task == r.task && q.op == r.op ==> q == r
  }

  /** The slot has more than one intent. */
  ghost predicate Several(s: Store, task: Task, op: Operation) {
    Matching(s, task, op) != {} && TheIntent(s, task, op).None?
  }

  /** Whether an output without a receipt may be given one: its sources are proved fresh. */
  predicate MayRestore(w: World, g: Progress, task: Task, op: Operation, output: Output) {
    match op
    case DraftOp => output.DraftOut? && w.upToDate(output.draft)
    case GenerateOp => output.ResultOut? && g.draft == Some(output.result.parent) && w.valid(output.result)
    case _ =>
      (task, GenerateOp) in g.store.outputs && g.store.outputs[(task, GenerateOp)].ResultOut?
      && w.valid(g.store.outputs[(task, GenerateOp)].result)
  }

  function Publish(g: Progress, p: Publication): Progress {
    if Free(g.store, p) then g.(pubs := g.pubs + [p], store := Put(g.store, p)) else g.(stopped := true)
  }

  /** The receipt of one output: the one on file, or a restored one. */
  ghost function Restore(w: World, g: Progress, task: Task, op: Operation): Progress
    requires (task, op) in g.store.outputs
  {
    var output := g.store.outputs[(task, op)];
    var i := TheIntent(g.store, task, op);
    if ReceiptIn(g.store, task, op).Some? then g
    else if i.None? || !MayRestore(w, g, task, op, output) then g.(stopped := true, raised := Several(g.store, task, op))
    else Publish(g, PutReceipt(Receipt(task, op, i.value, output, SchemaOf(op))))
  }

  /** Checks on the output, its receipt and its chain, and what it adds to the state. */
  ghost function Inspect(g: Progress, task: Task, op: Operation): Progress
    requires (task, op) in g.store.outputs
  {
    var output := g.store.outputs[(task, op)];
    var r := ReceiptIn(g.store, task, op);
    if r.None? || r.value.output != output || r.value.schema != SchemaOf(op) || !ChainOk(g.store, r.value, task, op, output)
    then g.(stopped := true)
    else
      match op
      case DraftOp => if output.DraftOut? then g.(draft := Some(output.draft)) else g.(stopped := true)
      case GenerateOp =>
        if output.ResultOut? && g.draft == Some(output.result.parent) && r.value.intent.parent == OfDraft(output.result.parent)
        then g.(result := Some(output.result)) else g.(stopped := true)
      case _ => g.(exports := g.exports + {op})
  }

  /** One turn of the loop over the four outputs. */
  ghost function RecoverOutput(w: World, g: Progress, task: Task, op: Operation): Progress {
    if g.stopped || (task, op) !in g.store.outputs then g
    else
      var restored := Restore(w, g, task, op);
      if restored.stopped || (task, op) !in restored.store.outputs then restored else Inspect(restored, task, op)
  }

  /** `_repair_binding_if_complete` */
  ghost function RepairBinding(w: World, g: Progress, task: Task): Progress {
    var s := g.store;
    var chain := DraftChain(s, task);
    var i := TheIntent(s, task, GenerateOp);
    if chain.None? || i.None? || TheReceipt(s, i.value).None? || (task, GenerateOp) !in s.outputs then g.(stopped := true)
    else
      var r := TheReceipt(s, i.value).value;
      var output := s.outputs[(task, GenerateOp)];
      if && ChainOk(s, r, task, GenerateOp, output) && output.ResultOut?
         && output.result.parent == chain.value.output.draft && w.upToDate(chain.value.output.draft) && w.valid(output.result)
         && chain.value.intent.parent.catalog.material == w.material
         && i.value.parent == OfDraft(chain.value.output.draft)
         && chain.value.intent.request.payload.ForDraft?
         && chain.value.intent.request.payload.catalog == chain.value.intent.parent.catalog
         && r.intent.request.payload == ForGenerate(chain.value.output.draft)
      then Publish(g, PutBinding(BindingOf(w, chain.value.intent.parent.catalog, chain.value, r)))
      else g.(stopped := true)
  }

  ghost function RecoverBinding(w: World, g: Progress, task: Task): Progress {
    if g.stopped || g.result.None? then g
    else if task in g.store.bindings then
      if BindingOk(w, g.store, g.store.bindings[task]) then g else g.(stopped := true)
    else RepairBinding(w, g, task)
  }

  const ATTENTION: State := State("attention", None, None, {})

  function StateName(draft: Option<Draft>, result: Option<ResultDoc>, exports: set<Operation>): string {
    if result.Some? then (if exports != {} then "exported" else "generated")
    else if draft.Some? then "waiting_confirmation" else "cataloged"
  }

  function AnswerOf(g: Progress): Answer {
    if g.raised then Failed("ATTENTION")
    else Recovered(if g.stopped then ATTENTION else State(StateName(g.draft, g.result, g.exports), g.draft, g.result, g.exports))
  }

  /** An intent of the task whose output is not there. */
  ghost predicate Dangling(s: Store, task: Task) {
    exists i :: i in s.intents && i.task == task && (task, i.op) !in s.outputs
  }

  function Started(s: Store): Progress { Progress([], s, false, None, None, {}, false) }

  ghost function RecoverOutputs(w: World, s: Store, task: Task): Progress {
    RecoverOutput(w, RecoverOutput(w, RecoverOutput(w, RecoverOutput(w, Started(s), task, DraftOp), task, GenerateOp),
                                   task, MarkdownOp), task, PdfOp)
  }

  /** `recover_authoring_state` with the material root given. */
  ghost function RecoverScript(w: World, s: Store, task: Task): Script {
    if Dangling(s, task) then Script([], Recovered(ATTENTION))
    else
      var g := RecoverBinding(w, RecoverOutputs(w, s, task), task);
      Script(g.pubs, AnswerOf(g))
  }

  // ---------------------------------------------------------------- without a material root

  /** The receipt of one output when nothing can be restored. */
  ghost function RootlessRestore(g: Progress, task: Task, op: Operation): Progress {
    if ReceiptIn(g.store, task, op).Some? then g else g.(stopped := true, raised := Several(g.store, task, op))
  }

  ghost function RootlessOutput(g: Progress, task: Task, op: Operation): Progress {
    if g.stopped || (task, op) !in g.store.outputs then g
    else
      var kept := RootlessRestore(g, task, op);
      if kept.stopped then kept else Inspect(kept, task, op)
  }

  ghost function RootlessOutputs(s: Store, task: Task): Progress {
    RootlessOutput(RootlessOutput(RootlessOutput(RootlessOutput(Started(s), task, DraftOp), task, GenerateOp), task, MarkdownOp), task, PdfOp)
  }

  /** `recover_authoring_state` without a material root; a missing binding is rebuilt over the
      root that the draft's catalog names. */
  ghost function RootlessScript(w: World, s: Store, task: Task): Script {
    if Dangling(s, task) then Script([], Recovered(ATTENTION))
    else
      var g := RecoverBinding(w, RootlessOutputs(s, task), task);
      Script(g.pubs, AnswerOf(g))
  }

  ghost predicate AllFiled(s: Store, task: Task) {
    forall op :: (task, op) in s.outputs ==> ReceiptIn(s, task, op).Some?
  }

  /** A turn without a root, over a store that recovery has not changed. */
  lemma RootlessTurn(w: World, s: Store, g: Progress, task: Task, op: Operation)
    requires g.store == s && g.pubs == []
    ensures var h := RootlessOutput(g, task, op);
            && h.store == s && h.pubs == [] && (g.stopped ==> h.stopped)
            && ((task, op) in s.outputs && ReceiptIn(s, task, op).None? ==> h.stopped)
            && ((task, op) !in s.outputs || ReceiptIn(s, task, op).Some? ==> h == RecoverOutput(w, g, task, op))
  {
  }

  lemma RootlessTurns(w: World, s: Store, task: Task)
    ensures var h := RootlessOutputs(s, task);
            h.pubs == [] && h.store == s && (if AllFiled(s, task) then h == RecoverOutputs(w, s, task) else h.stopped)
  {
    var a := RootlessOutput(Started(s), task, DraftOp);
    var b := RootlessOutput(a, task, GenerateOp);
    var c := RootlessOutput(b, task, MarkdownOp);
    RootlessTurn(w, s, Started(s), task, DraftOp);
    RootlessTurn(w, s, a, task, GenerateOp);
    RootlessTurn(w, s, b, task, MarkdownOp);
    RootlessTurn(w, s, c, task, PdfOp);
    if !AllFiled(s, task) {
      var op :| (task, op) in s.outputs && ReceiptIn(s, task, op).None?;
      assert op.DraftOp? || op.GenerateOp? || op.MarkdownOp? || op.PdfOp?;
    }
  }

  /** Without a material root recovery does the same as with one when no output lacks its
      receipt; otherwise it answers attention or raises it, and publishes nothing. */
  lemma RootlessExactly(w: World, s: Store, task: Task)
    ensures var script := RootlessScript(w, s, task);
            if AllFiled(s, task) then script == RecoverScript(w, s, task)
            else script.pubs == [] && script.answer in {Recovered(ATTENTION), Failed("ATTENTION")}
  {
    RootlessTurns(w, s, task);
  }

  // ---------------------------------------------------------------- what recovery never does

  ghost predicate OnlyReceipts(pubs: seq<Publication>) {
    forall p :: p in pubs ==> p.PutReceipt? || p.PutBinding?
  }

  /** The store is what the publications made of it; no output or intent is ever among them. */
  ghost predicate Recovering(s: Store, g: Progress) {
    g.store == PutAll(s, g.pubs) && AllFree(s, g.pubs) && OnlyReceipts(g.pubs)
    && g.store.outputs == s.outputs && g.store.intents == s.intents
  }

  lemma PublishRecovers(s: Store, g: Progress, p: Publication)
    requires Recovering(s, g) && (p.PutReceipt? || p.PutBinding?)
    ensures Recovering(s, Publish(g, p))
  {
    assert (g.pubs + [p])[..|g.pubs|] == g.pubs;
  }

  lemma RestoreRecovers(w: World, s: Store, g: Progress, task: Task, op: Operation)
    requires Recovering(s, g) && (task, op) in g.store.outputs
    ensures Recovering(s, Restore(w, g, task, op))
  {
    var i := TheIntent(g.store, task, op);
    if i.Some? {
      PublishRecovers(s, g, PutReceipt(Receipt(task, op, i.value, g.store.outputs[(task, op)], SchemaOf(op))));
    }
  }

  lemma InspectKeeps(g: Progress, task: Task, op: Operation)
    requires (task, op) in g.store.outputs
    ensures Inspect(g, task, op).store == g.store && Inspect(g, task, op).pubs == g.pubs
  {
  }

  lemma TurnShape(w: World, g: Progress, task: Task, op: Operation)
    ensures var h := RecoverOutput(w, g, task, op);
            if g.stopped || (task, op) !in g.store.outputs then h == g
            else h.store == Restore(w, g, task, op).store && h.pubs == Restore(w, g, task, op).pubs
  {
  }

  lemma OutputRecovers(w: World, s: Store, g: Progress, task: Task, op: Operation)
    requires Recovering(s, g)
    ensures Recovering(s, RecoverOutput(w, g, task, op))
  {
    if !g.stopped && (task, op) in g.store.outputs {
      RestoreRecovers(w, s, g, task, op);
      InspectKeeps(Restore(w, g, task, op), task, op);
    }
  }

  lemma BindingRecovers(w: World, s: Store, g: Progress, task: Task)
    requires Recovering(s, g)
    ensures Recovering(s, RecoverBinding(w, g, task))
  {
    var chain := DraftChain(g.store, task);
    var i := TheIntent(g.store, task, GenerateOp);
    if chain.Some? && i.Some? && TheReceipt(g.store, i.value).Some? && TheReceipt(g.store, i.value).value.output.ResultOut? {
      PublishRecovers(s, g, PutBinding(BindingOf(w, chain.value.intent.parent.catalog, chain.value, TheReceipt(g.store, i.value).value)));
    }
  }

  /** What recovery has done to the store is what it has published. */
  lemma RecoverStore(w: World, s: Store, task: Task)
    ensures Recovering(s, RecoverOutputs(w, s, task)) && Recovering(s, RecoverBinding(w, RecoverOutputs(w, s, task), task))
  {
    var a := RecoverOutput(w, Started(s), task, DraftOp);
    var b := RecoverOutput(w, a, task, GenerateOp);
    var c := RecoverOutput(w, b, task, MarkdownOp);
    OutputRecovers(w, s, Started(s), task, DraftOp);
    OutputRecovers(w, s, a, task, GenerateOp);
    OutputRecovers(w, s, b, task, MarkdownOp);
    OutputRecovers(w, s, c, task, PdfOp);
    BindingRecovers(w, s, RecoverOutput(w, c, task, PdfOp), task);
  }

  /** On any store whatever, recovery publishes receipts and a binding only, under free names;
      an intent without its output is answered with attention and nothing is written. */
  lemma NeverFabricates(w: World, s: Store, task: Task)
    ensures OnlyReceipts(RecoverScript(w, s, task).pubs) && AllFree(s, RecoverScript(w, s, task).pubs)
    ensures PutAll(s, RecoverScript(w, s, task).pubs).outputs == s.outputs
    ensures Dangling(s, task) ==> RecoverScript(w, s, task) == Script([], Recovered(ATTENTION))
  {
    RecoverStore(w, s, task);
  }

  // ---------------------------------------------------------------- healthy stores

  ghost function IntentOf(s: Store, task: Task, op: Operation): Intent
    requires TheIntent(s, task, op).Some?
  {
    TheIntent(s, task, op).value
  }

  /** The receipt that an uninterrupted run publishes for an output. */
  ghost function ReceiptFor(s: Store, task: Task, op: Operation): Receipt
    requires (task, op) in s.outputs && TheIntent(s, task, op).Some?
  {
    Receipt(task, op, IntentOf(s, task, op), s.outputs[(task, op)], SchemaOf(op))
  }

  /** One intent, its request, and no receipt but the right one. */
  ghost predicate Traced(s: Store, task: Task, op: Operation) {
    (task, op) in s.outputs ==>
      && TheIntent(s, task, op).Some?
      && IntentOf(s, task, op).request in s.requests
      && IntentOf(s, task, op).request.task == task && IntentOf(s, task, op).request.op == op
      && forall r :: r in s.receipts && ((r.task == task && r.op == op) || r.intent == IntentOf(s, task, op)) ==>
                       r == ReceiptFor(s, task, op)
  }

  ghost predicate DraftSound(w: World, s: Store, task: Task) {
    (task, DraftOp) in s.outputs ==>
      && s.outputs[(task, DraftOp)].DraftOut? && w.upToDate(s.outputs[(task, DraftOp)].draft)
      && TheIntent(s, task, DraftOp).Some?
      && var i := IntentOf(s, task, DraftOp);
         && i.parent.OfCatalog? && i.parent.catalog in s.catalogs && i.parent.catalog.material == w.material
         && i.request.payload.ForDraft? && i.request.payload.catalog == i.parent.catalog && i.request.payload.sources != {}
  }

  ghost predicate ResultSound(w: World, s: Store, task: Task) {
    (task, GenerateOp) in s.outputs ==>
      && s.outputs[(task, GenerateOp)].ResultOut? && w.valid(s.outputs[(task, GenerateOp)].result)
      && TheIntent(s, task, GenerateOp).Some?
      && var d := s.outputs[(task, GenerateOp)].result.parent;
         && (task, DraftOp) in s.outputs && s.outputs[(task, DraftOp)] == DraftOut(d)
         && IntentOf(s, task, GenerateOp).parent == OfDraft(d)
         && IntentOf(s, task, GenerateOp).request.payload == ForGenerate(d)
  }

  ghost predicate ExportSound(w: World, s: Store, task: Task, op: Operation) {
    (task, op) in s.outputs ==> (task, GenerateOp) in s.outputs
  }

  /** The binding that the chain determines. */
  ghost function TheBinding(w: World, s: Store, task: Task): Binding
    requires Traced(s, task, DraftOp) && Traced(s, task, GenerateOp)
    requires DraftSound(w, s, task) && ResultSound(w, s, task) && (task, GenerateOp) in s.outputs
  {
    BindingOf(w, IntentOf(s, task, DraftOp).parent.catalog, ReceiptFor(s, task, DraftOp), ReceiptFor(s, task, GenerateOp))
  }

  /** The task's records are an uninterrupted run's, except that receipts and the binding may be missing. */
  ghost predicate Healthy(w: World, s: Store, task: Task) {
    && !Dangling(s, task)
    && Traced(s, task, DraftOp) && Traced(s, task, GenerateOp) && Traced(s, task, MarkdownOp) && Traced(s, task, PdfOp)
    && DraftSound(w, s, task) && ResultSound(w, s, task)
    && ExportSound(w, s, task, MarkdownOp) && ExportSound(w, s, task, PdfOp)
    && (task in s.bindings ==>
          && (task, GenerateOp) in s.outputs && s.bindings[task] == TheBinding(w, s, task)
          && ReceiptFor(s, task, DraftOp) in s.receipts && ReceiptFor(s, task, GenerateOp) in s.receipts)
  }

  ghost function WithReceipt(s: Store, task: Task, op: Operation): Store
    requires Traced(s, task, op)
  {
    if (task, op) in s.outputs then s.(receipts := s.receipts + {ReceiptFor(s, task, op)}) else s
  }

  /** Only receipts and bindings differ. */
  ghost predicate SameBase(s: Store, t: Store) {
    s.catalogs == t.catalogs && s.requests == t.requests && s.intents == t.intents && s.outputs == t.outputs
  }

  lemma SameIntent(s: Store, t: Store, task: Task, op: Operation)
    requires s.intents == t.intents
    ensures TheIntent(s, task, op) == TheIntent(t, task, op)
  {
    assert Matching(s, task, op) == Matching(t, task, op);
  }

  lemma SameIntents(s: Store, t: Store, task: Task)
    requires s.intents == t.intents
    ensures forall op :: TheIntent(s, task, op) == TheIntent(t, task, op)
  {
    forall op ensures TheIntent(s, task, op) == TheIntent(t, task, op) { SameIntent(s, t, task, op); }
  }

  lemma WithReceiptHealthy(w: World, s: Store, task: Task, op: Operation)
    requires Healthy(w, s, task) && Traced(s, task, op)
    ensures Healthy(w, WithReceipt(s, task, op), task)
    ensures SameBase(s, WithReceipt(s, task, op))
  {
    var t := WithReceipt(s, task, op);
    SameIntents(s, t, task);
    TracedStill(s, t, task, op, DraftOp);
    TracedStill(s, t, task, op, GenerateOp);
    TracedStill(s, t, task, op, MarkdownOp);
    TracedStill(s, t, task, op, PdfOp);
  }

  lemma TracedStill(s: Store, t: Store, task: Task, op: Operation, other: Operation)
    requires Traced(s, task, op) && Traced(s, task, other) && t == WithReceipt(s, task, op)
    ensures Traced(t, task, other)
  {
    SameIntents(s, t, task);
    if (task, op) in s.outputs && (task, other) in s.outputs {
      assert IntentOf(s, task, op) in Matching(s, task, op);
      assert IntentOf(s, task, other) in Matching(s, task, other);
    }
  }

  /** What one turn of recovery does on a healthy store. */
  ghost predicate TurnOk(w: World, g: Progress, h: Progress, task: Task, op: Operation)
    requires Traced(g.store, task, op)
  {
    && !h.stopped && h.raised == g.raised && h.store == WithReceipt(g.store, task, op)
    && h.pubs == (if h.store == g.store then g.pubs else g.pubs + [PutReceipt(ReceiptFor(g.store, task, op))])
  }

  lemma RestoreHealthy(w: World, g: Progress, task: Task, op: Operation)
    requires Healthy(w, g.store, task) && !g.stopped && Traced(g.store, task, op) && (task, op) in g.store.outputs
    requires MayRestore(w, g, task, op, g.store.outputs[(task, op)])
    ensures TurnOk(w, g, Restore(w, g, task, op), task, op)
    ensures Restore(w, g, task, op).(store := g.store, pubs := g.pubs) == g
  {
    var r := ReceiptIn(g.store, task, op);
    if r.Some? {
      assert r.value == ReceiptFor(g.store, task, op);
    } else {
      assert ReceiptFor(g.store, task, op) !in g.store.receipts;
      assert Free(g.store, PutReceipt(ReceiptFor(g.store, task, op)));
    }
  }

  lemma InspectHealthy(w: World, g: Progress, task: Task, op: Operation)
    requires Healthy(w, g.store, task) && !g.stopped && Traced(g.store, task, op) && (task, op) in g.store.outputs
    requires ReceiptFor(g.store, task, op) in g.store.receipts
    requires op.GenerateOp? ==> g.draft == Some(g.store.outputs[(task, DraftOp)].draft)
    ensures Inspect(g, task, op) == match op
                                    case DraftOp => g.(draft := Some(g.store.outputs[(task, op)].draft))
                                    case GenerateOp => g.(result := Some(g.store.outputs[(task, op)].result))
                                    case _ => g.(exports := g.exports + {op})
  {
    var r := ReceiptIn(g.store, task, op);
    assert r.value == ReceiptFor(g.store, task, op);
    assert IntentOf(g.store, task, op) in Matching(g.store, task, op);
  }

  // ---------------------------------------------------------------- recovery completes

  ghost function AllReceipts(s: Store, task: Task): set<Receipt> {
    set op | (task, op) in s.outputs && TheIntent(s, task, op).Some? :: ReceiptFor(s, task, op)
  }

  lemma SameAllReceipts(s: Store, t: Store, task: Task)
    requires SameBase(s, t)
    ensures AllReceipts(s, task) == AllReceipts(t, task)
  {
    SameReceipts(s, t, task);
    assert AllReceipts(s, task) <= AllReceipts(t, task);
    assert AllReceipts(t, task) <= AllReceipts(s, task);
  }

  /** The store with every missing receipt and the missing binding added. */
  ghost function Completed(w: World, s: Store, task: Task): Store
    requires Healthy(w, s, task)
  {
    s.(receipts := s.receipts + AllReceipts(s, task),
       bindings := if (task, GenerateOp) in s.outputs then s.bindings[task := TheBinding(w, s, task)] else s.bindings)
  }

  function DraftIn(s: Store, task: Task): Option<Draft> {
    if (task, DraftOp) in s.outputs && s.outputs[(task, DraftOp)].DraftOut? then Some(s.outputs[(task, DraftOp)].draft) else None
  }

  function ResultIn(s: Store, task: Task): Option<ResultDoc> {
    if (task, GenerateOp) in s.outputs && s.outputs[(task, GenerateOp)].ResultOut? then Some(s.outputs[(task, GenerateOp)].result)
    else None
  }

  function ExportsIn(s: Store, task: Task): set<Operation> {
    set op | op in {MarkdownOp, PdfOp} && (task, op) in s.outputs
  }

  /** What the state should say, from the outputs alone. */
  function StateOf(s: Store, task: Task): State {
    State(StateName(DraftIn(s, task), ResultIn(s, task), ExportsIn(s, task)), DraftIn(s, task), ResultIn(s, task), ExportsIn(s, task))
  }

  /** A store on the way: healthy, with the same base and the same completion. */
  ghost predicate OnTheWay(w: World, s: Store, t: Store, task: Task)
    requires Healthy(w, s, task)
  {
    SameBase(s, t) && Healthy(w, t, task) && Completed(w, t, task) == Completed(w, s, task)
  }

  lemma ReceiptCompletes(w: World, s: Store, task: Task, op: Operation)
    requires Healthy(w, s, task) && Traced(s, task, op) && Healthy(w, WithReceipt(s, task, op), task)
    ensures Completed(w, WithReceipt(s, task, op), task) == Completed(w, s, task)
  {
    SameCompletion(w, s, WithReceipt(s, task, op), task);
  }

  lemma ReceiptOnTheWay(w: World, s: Store, t: Store, task: Task, op: Operation)
    requires Healthy(w, s, task) && OnTheWay(w, s, t, task) && Traced(t, task, op)
    ensures OnTheWay(w, s, WithReceipt(t, task, op), task)
  {
    WithReceiptHealthy(w, t, task, op);
    ReceiptCompletes(w, t, task, op);
  }

  /** Stores with the same base whose receipts differ by completing ones have the same completion. */
  lemma SameCompletion(w: World, s: Store, t: Store, task: Task)
    requires Healthy(w, s, task) && Healthy(w, t, task) && SameBase(s, t)
    requires s.receipts <= t.receipts
    requires forall r :: r in t.receipts && r !in s.receipts ==>
                           exists op :: (task, op) in s.outputs && TheIntent(s, task, op).Some? && r == ReceiptFor(s, task, op)
    requires t.bindings == s.bindings || ((task, GenerateOp) in s.outputs && t.bindings == s.bindings[task := TheBinding(w, s, task)])
    ensures Completed(w, t, task) == Completed(w, s, task)
  {
    SameIntents(s, t, task);
    SameReceipts(s, t, task);
    SameAllReceipts(s, t, task);
    forall r | r in t.receipts && r !in s.receipts ensures r in AllReceipts(s, task) {}
    assert s.receipts + AllReceipts(s, task) == t.receipts + AllReceipts(t, task);
  }

  lemma SameReceipts(s: Store, t: Store, task: Task)
    requires SameBase(s, t)
    ensures forall op :: TheIntent(s, task, op) == TheIntent(t, task, op)
    ensures forall op :: (task, op) in s.outputs && TheIntent(s, task, op).Some? ==> ReceiptFor(s, task, op) == ReceiptFor(t, task, op)
  {
    SameIntents(s, t, task);
  }

  /** Where recovery stands on the way: every crash point so far is on the way too. */
  ghost predicate Advancing(w: World, s: Store, g: Progress, task: Task)
    requires Healthy(w, s, task)
  {
    && !g.stopped && !g.raised && g.store == PutAll(s, g.pubs) && OnTheWay(w, s, g.store, task)
    && (forall k :: 0 <= k <= |g.pubs| ==> OnTheWay(w, s, PutAll(s, g.pubs[..k]), task))
  }

  lemma AdvanceMore(w: World, s: Store, g: Progress, h: Progress, task: Task, p: Publication)
    requires Healthy(w, s, task) && Advancing(w, s, g, task) && !h.stopped && !h.raised
    requires h.pubs == g.pubs + [p] && h.store == Put(g.store, p) && OnTheWay(w, s, h.store, task)
    ensures Advancing(w, s, h, task)
  {
    assert h.pubs[..|g.pubs|] == g.pubs;
    forall k | 0 <= k <= |h.pubs| ensures OnTheWay(w, s, PutAll(s, h.pubs[..k]), task) {
      if k <= |g.pubs| {
        assert h.pubs[..k] == g.pubs[..k];
      } else {
        assert h.pubs[..k] == h.pubs;
      }
    }
  }

  lemma AdvanceSame(w: World, s: Store, g: Progress, h: Progress, task: Task)
    requires Healthy(w, s, task) && Advancing(w, s, g, task) && !h.stopped && !h.raised && h.store == g.store && h.pubs == g.pubs
    ensures Advancing(w, s, h, task)
  {
  }

  lemma WithReceiptPut(s: Store, task: Task, op: Operation)
    requires Traced(s, task, op) && (task, op) in s.outputs
    ensures WithReceipt(s, task, op) == Put(s, PutReceipt(ReceiptFor(s, task, op)))
  {
  }

  lemma ReceiptAdvances(w: World, s: Store, g: Progress, h: Progress, task: Task, op: Operation)
    requires Healthy(w, s, task) && Advancing(w, s, g, task) && Traced(g.store, task, op) && (task, op) in g.store.outputs
    requires TurnOk(w, g, h, task, op)
    ensures Advancing(w, s, h, task)
  {
    if h.store == g.store {
      AdvanceSame(w, s, g, h, task);
    } else {
      ReceiptOnTheWay(w, s, g.store, task, op);
      WithReceiptPut(g.store, task, op);
      AdvanceMore(w, s, g, h, task, PutReceipt(ReceiptFor(g.store, task, op)));
    }
  }

  lemma RestoreAdvances(w: World, s: Store, g: Progress, task: Task, op: Operation)
    requires Healthy(w, s, task) && Advancing(w, s, g, task) && Traced(g.store, task, op) && (task, op) in s.outputs
    requires MayRestore(w, g, task, op, g.store.outputs[(task, op)])
    ensures var h := Restore(w, g, task, op);
            && Advancing(w, s, h, task) && h == g.(store := WithReceipt(g.store, task, op), pubs := h.pubs)
            && (h.store == g.store ==> h.pubs == g.pubs)
  {
    RestoreHealthy(w, g, task, op);
    ReceiptAdvances(w, s, g, Restore(w, g, task, op), task, op);
  }

  lemma MayRestoreHealthy(w: World, g: Progress, task: Task, op: Operation)
    requires Healthy(w, g.store, task) && (task, op) in g.store.outputs
    requires op.GenerateOp? ==> g.draft == Some(g.store.outputs[(task, DraftOp)].draft)
    ensures MayRestore(w, g, task, op, g.store.outputs[(task, op)])
  {
  }

  /** The state after the turn, from the outputs. */
  ghost predicate Turned(g: Progress, h: Progress, task: Task, op: Operation)
    requires op.DraftOp? ==> (task, op) in h.store.outputs ==> h.store.outputs[(task, op)].DraftOut?
    requires op.GenerateOp? ==> (task, op) in h.store.outputs ==> h.store.outputs[(task, op)].ResultOut?
  {
    if (task, op) !in h.store.outputs then h == g
    else
      match op
      case DraftOp => h.draft == Some(h.store.outputs[(task, op)].draft) && h.result == g.result && h.exports == g.exports
      case GenerateOp => h.result == Some(h.store.outputs[(task, op)].result) && h.draft == g.draft && h.exports == g.exports
      case _ => h.exports == g.exports + {op} && h.draft == g.draft && h.result == g.result
  }

  /** One turn on a healthy store: the missing receipt, and nothing else. */
  lemma TurnAdvances(w: World, s: Store, g: Progress, task: Task, op: Operation)
    requires Healthy(w, s, task) && Advancing(w, s, g, task) && Traced(g.store, task, op)
    requires op.GenerateOp? && (task, op) in s.outputs ==> g.draft == Some(s.outputs[(task, DraftOp)].draft)
    ensures var h := RecoverOutput(w, g, task, op);
            && Advancing(w, s, h, task) && h.store == WithReceipt(g.store, task, op)
            && (h.store == g.store ==> h.pubs == g.pubs) && Turned(g, h, task, op)
  {
    if (task, op) in s.outputs {
      MayRestoreHealthy(w, g, task, op);
      RestoreAdvances(w, s, g, task, op);
      var r := Restore(w, g, task, op);
      SameReceipts(g.store, r.store, task);
      InspectHealthy(w, r, task, op);
      InspectAdvances(w, s, r, task, op);
    }
  }

  lemma InspectAdvances(w: World, s: Store, g: Progress, task: Task, op: Operation)
    requires Healthy(w, s, task) && Advancing(w, s, g, task) && (task, op) in g.store.outputs
    ensures Inspect(g, task, op).stopped || Advancing(w, s, Inspect(g, task, op), task)
  {
  }
}
