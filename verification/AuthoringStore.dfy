/** The authoring record store: requests, intents, outputs, receipts and bindings, each
    published once and never changed, and what every operation publishes.

    A record's hash is the record itself. A file name is the part of the record it is
    derived from, so a second record with the same name is a conflict. */
module AuthoringStore {
  import opened Wrappers

  const MAX_TASKS: nat := 64

  type Task = string
  type Key = string

  datatype Operation = DraftOp | GenerateOp | MarkdownOp | PdfOp

  datatype Catalog = Catalog(id: nat, material: nat)

  datatype Draft = Draft(kind: nat, content: nat)

  datatype ResultDoc = ResultDoc(parent: Draft, content: nat)

  datatype Payload =
    | ForDraft(catalog: Catalog, content: nat, sources: set<nat>)
    | ForGenerate(draft: Draft)
    | ForExport(result: ResultDoc)

  datatype Request = Request(task: Task, op: Operation, key: Key, payload: Payload)

  datatype Parent = OfCatalog(catalog: Catalog) | OfDraft(draft: Draft) | OfResult(result: ResultDoc)

  datatype Intent = Intent(task: Task, op: Operation, request: Request, parent: Parent)

  datatype Output = DraftOut(draft: Draft) | ResultOut(result: ResultDoc) | ExportOut(bytes: nat)

  datatype Receipt = Receipt(task: Task, op: Operation, intent: Intent, output: Output, schema: string)

  datatype Binding = Binding(task: Task, material: nat, catalog: Catalog, draft: Draft, draftReceipt: Receipt,
                             draftIntent: Intent, draftRequest: Request, result: ResultDoc, generateReceipt: Receipt,
                             generateIntent: Intent, generateRequest: Request)

  /** An output's slot is its task and operation. */
  datatype Store = Store(catalogs: set<Catalog>, requests: set<Request>, intents: set<Intent>,
                         outputs: map<(Task, Operation), Output>, receipts: set<Receipt>, bindings: map<Task, Binding>)

  const EMPTY: Store := Store({}, {}, {}, map[], {}, map[])

  datatype Publication =
    | PutCatalog(catalog: Catalog)
    | PutRequest(request: Request)
    | PutIntent(intent: Intent)
    | PutOutput(task: Task, op: Operation, output: Output)
    | PutReceipt(receipt: Receipt)
    | PutBinding(binding: Binding)

  /** The material root and the deterministic builders over it. */
  datatype World = World(
    material: nat,
    current: Catalog -> bool,
    known: set<nat>,
    readmeOk: Payload -> bool,
    draftOf: Payload -> Option<Draft>,
    resultOf: Draft -> Option<ResultDoc>,
    exportOf: (ResultDoc, Operation) -> Option<nat>,
    upToDate: Draft -> bool,
    valid: ResultDoc -> bool)

  /** The sources do not change: what is built from them is fresh and verifies. */
  ghost predicate Steady(w: World) {
    && (forall p :: w.draftOf(p).Some? ==> w.upToDate(w.draftOf(p).value))
    && (forall d :: w.resultOf(d).Some? ==> w.resultOf(d).value.parent == d && w.valid(w.resultOf(d).value))
  }

  // ---------------------------------------------------------------- publication

  /** The name is free. */
  predicate Free(s: Store, p: Publication) {
    match p
    case PutCatalog(c) => c !in s.catalogs
    case PutRequest(r) => r !in s.requests
    case PutIntent(i) => forall j :: j in s.intents ==> j.request != i.request || j.op != i.op
    case PutOutput(task, op, _) => (task, op) !in s.outputs
    case PutReceipt(r) => forall q :: q in s.receipts ==> q.intent != r.intent || q.output != r.output
    case PutBinding(b) => b.task !in s.bindings
  }

  function Put(s: Store, p: Publication): Store {
    match p
    case PutCatalog(c) => s.(catalogs := s.catalogs + {c})
    case PutRequest(r) => s.(requests := s.requests + {r})
    case PutIntent(i) => s.(intents := s.intents + {i})
    case PutOutput(task, op, output) => s.(outputs := s.outputs[(task, op) := output])
    case PutReceipt(r) => s.(receipts := s.receipts + {r})
    case PutBinding(b) => s.(bindings := s.bindings[b.task := b])
  }

  function PutAll(s: Store, pubs: seq<Publication>): Store {
    if pubs == [] then s else Put(PutAll(s, pubs[..|pubs| - 1]), pubs[|pubs| - 1])
  }

  /** Each publication finds its name free. */
  predicate AllFree(s: Store, pubs: seq<Publication>) {
    pubs != [] ==>
      AllFree(s, pubs[..|pubs| - 1]) && Free(PutAll(s, pubs[..|pubs| - 1]), pubs[|pubs| - 1])
  }

  /** Nothing published is lost or altered. */
  predicate Within(s: Store, t: Store) {
    && s.catalogs <= t.catalogs && s.requests <= t.requests && s.intents <= t.intents && s.receipts <= t.receipts
    && (forall k :: k in s.outputs ==> k in t.outputs && t.outputs[k] == s.outputs[k])
    && (forall k :: k in s.bindings ==> k in t.bindings && t.bindings[k] == s.bindings[k])
  }

  // ---------------------------------------------------------------- lookups

  function SchemaOf(op: Operation): string {
    match op
    case DraftOp => "v3-material-draft-session-v1"
    case GenerateOp => "v3-material-result-session-v1"
    case MarkdownOp => "text/markdown"
    case PdfOp => "application/pdf"
  }

  function Matching(s: Store, task: Task, op: Operation): set<Intent> {
    set i | i in s.intents && i.task == task && i.op == op
  }

  /** `_matching_intent`; no intent and several intents both end in attention. */
  ghost function TheIntent(s: Store, task: Task, op: Operation): (i: Option<Intent>)
    ensures i.Some? <==> exists j :: Matching(s, task, op) == {j}
    ensures i.Some? ==> Matching(s, task, op) == {i.value}
  {
    if j :| Matching(s, task, op) == {j} then Some(j) else None
  }

  function ReceiptsOf(s: Store, i: Intent): set<Receipt> {
    set r | r in s.receipts && r.intent == i
  }

  /** `_receipt_for_intent` */
  ghost function TheReceipt(s: Store, i: Intent): (r: Option<Receipt>)
    ensures r.Some? <==> exists q :: ReceiptsOf(s, i) == {q}
    ensures r.Some? ==> ReceiptsOf(s, i) == {r.value}
  {
    if q :| ReceiptsOf(s, i) == {q} then Some(q) else None
  }

  /** `_verify_receipt_chain` */
  predicate ChainOk(s: Store, r: Receipt, task: Task, op: Operation, output: Output) {
    && r.task == task && r.op == op && r.output == output
    && r.intent in s.intents && r.intent.request in s.requests
    && r.intent.task == task && r.intent.op == op
    && r.intent.request.task == task && r.intent.request.op == op
  }

  /** `_idempotent_request`: the earlier requests under the same key. */
  function SameKey(s: Store, r: Request): set<Request> {
    set q | q in s.requests && q.task == r.task && q.op == r.op && q.key == r.key
  }

  /** No two requests share task, operation and key. */
  predicate OneRequestEach(s: Store) {
    forall q, r :: q in s.requests && r in s.requests && q.task == r.task && q.op == r.op && q.key == r.key ==> q == r
  }

  function KnownTasks(s: Store): set<Task> {
    (set r | r in s.requests :: r.task) + (set i | i in s.intents :: i.task) + s.bindings.Keys
  }

  // ---------------------------------------------------------------- scripts

  datatype Answer = GaveCatalog(catalog: Catalog) | GaveDraft(draft: Draft) | GaveResult(result: ResultDoc) | GaveExport(bytes: nat)
                  | Recovered(state: State) | Failed(code: string)

  datatype State = State(name: string, draft: Option<Draft>, result: Option<ResultDoc>, exports: set<Operation>)

  /** What an uninterrupted call publishes, in order, and what it answers. A crash, or a
      publication that fails, leaves a prefix. */
  datatype Script = Script(pubs: seq<Publication>, answer: Answer)

  function Refuse(code: string): Script { Script([], Failed(code)) }

  /** `_catalog_paths` */
  predicate CatalogOk(w: World, p: Payload)
    requires p.ForDraft?
  {
    p.catalog.material == w.material && w.current(p.catalog) && p.sources != {} && p.sources <= w.known
  }

  /** The chain of a replayed output, and the parent its intent names. */
  ghost predicate ReplayOk(s: Store, task: Task, op: Operation, output: Output, parent: Parent) {
    var i := TheIntent(s, task, op);
    && i.Some? && i.value.parent == parent
    && TheReceipt(s, i.value).Some? && ChainOk(s, TheReceipt(s, i.value).value, task, op, output)
  }

  /** The publications of a fresh operation whose output could be built. */
  function Produce(r: Request, parent: Parent, output: Output): seq<Publication> {
    var i := Intent(r.task, r.op, r, parent);
    [PutRequest(r), PutIntent(i), PutOutput(r.task, r.op, output), PutReceipt(Receipt(r.task, r.op, i, output, SchemaOf(r.op)))]
  }

  function StopAfter(r: Request, parent: Parent, code: string): Script {
    Script([PutRequest(r), PutIntent(Intent(r.task, r.op, r, parent))], Failed(code))
  }

  /** `create_authoring_draft` */
  ghost function DraftScript(w: World, s: Store, task: Task, p: Payload, key: Key): Script
    requires p.ForDraft?
  {
    var r := Request(task, DraftOp, key, p);
    if exists q :: q in SameKey(s, r) && q.payload != p then Refuse("IDEMPOTENCY_CONFLICT")
    else if !CatalogOk(w, p) then Refuse("INVALID_SOURCE_ID")
    else if SameKey(s, r) != {} then
      if (task, DraftOp) in s.outputs && s.outputs[(task, DraftOp)].DraftOut?
         && ReplayOk(s, task, DraftOp, s.outputs[(task, DraftOp)], OfCatalog(p.catalog))
         && w.upToDate(s.outputs[(task, DraftOp)].draft)
      then Script([], GaveDraft(s.outputs[(task, DraftOp)].draft))
      else Refuse("ATTENTION")
    else if task !in KnownTasks(s) && |KnownTasks(s)| >= MAX_TASKS then Refuse("TASK_CAPACITY_EXCEEDED")
    else if !w.readmeOk(p) then Script([PutRequest(r)], Failed("INVALID_README_TARGET"))
    else if w.draftOf(p).None? then StopAfter(r, OfCatalog(p.catalog), "DRAFT_REJECTED")
    else if (task, DraftOp) in s.outputs then StopAfter(r, OfCatalog(p.catalog), "CREATE_ONLY_CONFLICT")
    else Script(Produce(r, OfCatalog(p.catalog), DraftOut(w.draftOf(p).value)), GaveDraft(w.draftOf(p).value))
  }

  /** The binding that a finished chain determines. */
  function BindingOf(w: World, catalog: Catalog, draftReceipt: Receipt, generateReceipt: Receipt): Binding
    requires draftReceipt.output.DraftOut? && generateReceipt.output.ResultOut?
  {
    Binding(draftReceipt.task, w.material, catalog,
            draftReceipt.output.draft, draftReceipt, draftReceipt.intent, draftReceipt.intent.request,
            generateReceipt.output.result, generateReceipt, generateReceipt.intent, generateReceipt.intent.request)
  }

  /** The draft part of a binding: its receipt, when the chain and the catalog are there. */
  ghost function DraftChain(s: Store, task: Task): (c: Option<Receipt>)
    ensures c.Some? ==> c.value.output.DraftOut? && c.value.intent.parent.OfCatalog?
  {
    var i := TheIntent(s, task, DraftOp);
    if i.None? || (task, DraftOp) !in s.outputs || !s.outputs[(task, DraftOp)].DraftOut? || TheReceipt(s, i.value).None?
    then None
    else
      var r := TheReceipt(s, i.value).value;
      assert r in ReceiptsOf(s, i.value);
      if ChainOk(s, r, task, DraftOp, s.outputs[(task, DraftOp)]) && i.value.parent.OfCatalog? && i.value.parent.catalog in s.catalogs
      then Some(r) else None
  }

  /** `confirm_and_generate`; `confirmed` is the draft whose contract hash the phrase names. */
  ghost function GenerateScript(w: World, s: Store, task: Task, confirmed: Draft, key: Key): Script {
    if (task, DraftOp) !in s.outputs || !s.outputs[(task, DraftOp)].DraftOut? then Refuse("DRAFT_UNAVAILABLE")
    else
      var d := s.outputs[(task, DraftOp)].draft;
      var r := Request(task, GenerateOp, key, ForGenerate(d));
      if confirmed != d then Refuse("INVALID_CONFIRMATION")
      else if exists q :: q in SameKey(s, r) && q.payload != r.payload then Refuse("IDEMPOTENCY_CONFLICT")
      else if SameKey(s, r) != {} then
        if (task, GenerateOp) in s.outputs && s.outputs[(task, GenerateOp)].ResultOut?
           && ReplayOk(s, task, GenerateOp, s.outputs[(task, GenerateOp)], OfDraft(d))
           && w.valid(s.outputs[(task, GenerateOp)].result)
           && task in s.bindings && BindingOk(w, s, s.bindings[task])
        then Script([], GaveResult(s.outputs[(task, GenerateOp)].result))
        else Refuse("ATTENTION")
      else if w.resultOf(d).None? then StopAfter(r, OfDraft(d), "RESULT_REJECTED")
      else if (task, GenerateOp) in s.outputs then StopAfter(r, OfDraft(d), "CREATE_ONLY_CONFLICT")
      else
        var pubs := Produce(r, OfDraft(d), ResultOut(w.resultOf(d).value));
        var chain := DraftChain(PutAll(s, pubs), task);
        if chain.None? then Script(pubs, Failed("ATTENTION"))
        else if task in s.bindings then Script(pubs, Failed("CREATE_ONLY_CONFLICT"))
        else
          var b := BindingOf(w, chain.value.intent.parent.catalog, chain.value, pubs[3].receipt);
          Script(pubs + [PutBinding(b)], GaveResult(w.resultOf(d).value))
  }

  /** `export_result` */
  ghost function ExportScript(w: World, s: Store, task: Task, op: Operation, key: Key): Script {
    if (task, GenerateOp) !in s.outputs || !s.outputs[(task, GenerateOp)].ResultOut? then Refuse("RESULT_UNAVAILABLE")
    else
      var d := s.outputs[(task, GenerateOp)].result;
      var r := Request(task, op, key, ForExport(d));
      if !w.valid(d) then Refuse("MATERIAL_STALE_OR_MISMATCH")
      else if exists q :: q in SameKey(s, r) && q.payload != r.payload then Refuse("IDEMPOTENCY_CONFLICT")
      else if SameKey(s, r) != {} then
        if (task, op) in s.outputs && s.outputs[(task, op)].ExportOut? && ReplayOk(s, task, op, s.outputs[(task, op)], OfResult(d))
        then Script([], GaveExport(s.outputs[(task, op)].bytes))
        else Refuse("ATTENTION")
      else if w.exportOf(d, op).None? then StopAfter(r, OfResult(d), "EXPORT_REJECTED")
      else if (task, op) in s.outputs then StopAfter(r, OfResult(d), "CREATE_ONLY_CONFLICT")
      else
        Script(Produce(r, OfResult(d), ExportOut(w.exportOf(d, op).value)), GaveExport(w.exportOf(d, op).value))
  }

  /** `verify_authoring_binding` */
  predicate BindingOk(w: World, s: Store, b: Binding) {
    && b.material == w.material && b.catalog in s.catalogs && b.catalog.material == w.material
    && (b.task, DraftOp) in s.outputs && s.outputs[(b.task, DraftOp)] == DraftOut(b.draft)
    && (b.task, GenerateOp) in s.outputs && s.outputs[(b.task, GenerateOp)] == ResultOut(b.result)
    && b.result.parent == b.draft && w.upToDate(b.draft) && w.valid(b.result)
    && b.draftRequest in s.requests && b.draftIntent in s.intents && b.draftReceipt in s.receipts
    && b.generateRequest in s.requests && b.generateIntent in s.intents && b.generateReceipt in s.receipts
    && ChainOk(s, b.draftReceipt, b.task, DraftOp, DraftOut(b.draft))
    && ChainOk(s, b.generateReceipt, b.task, GenerateOp, ResultOut(b.result))
    && b.draftIntent.request == b.draftRequest && b.generateIntent.request == b.generateRequest
    && b.draftIntent.parent == OfCatalog(b.catalog) && b.generateIntent.parent == OfDraft(b.draft)
    && b.draftRequest.payload.ForDraft? && b.draftRequest.payload.catalog == b.catalog && b.draftRequest.payload.sources != {}
    && b.generateRequest.payload == ForGenerate(b.draft)
  }
}
