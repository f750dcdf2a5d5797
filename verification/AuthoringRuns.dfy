/** Runs of the authoring store: any calls in any order, each possibly cut off by a crash
    after any publication, over sources that do not change. */
module AuthoringRuns {
  import opened Wrappers
  import opened AuthoringStore
  import opened AuthoringRecovery
  import opened AuthoringCompletion

  datatype Call =
    | CatalogCall(catalog: Catalog)
    | DraftCall(task: Task, payload: Payload, key: Key)
    | GenerateCall(task: Task, confirmed: Draft, key: Key)
    | ExportCall(task: Task, pdf: bool, key: Key)
    | RecoverCall(task: Task, root: bool)

  ghost function ScriptOf(w: World, s: Store, c: Call): Script {
    match c
    case CatalogCall(catalog) => Script(if catalog in s.catalogs then [] else [PutCatalog(catalog)], GaveCatalog(catalog))
    case DraftCall(task, p, key) => if p.ForDraft? then DraftScript(w, s, task, p, key) else Refuse("INVALID_RECORD")
    case GenerateCall(task, confirmed, key) => GenerateScript(w, s, task, confirmed, key)
    case ExportCall(task, pdf, key) => ExportScript(w, s, task, if pdf then PdfOp else MarkdownOp, key)
    case RecoverCall(task, root) => if root then RecoverScript(w, s, task) else RootlessScript(w, s, task)
  }

  /** The store after a call that got through its first `k` publications. */
  ghost function After(w: World, s: Store, c: Call, k: nat): Store {
    var pubs := ScriptOf(w, s, c).pubs;
    PutAll(s, if k <= |pubs| then pubs[..k] else pubs)
  }

  ghost function Play(w: World, s: Store, calls: seq<(Call, nat)>): Store {
    if calls == [] then s
    else After(w, Play(w, s, calls[..|calls| - 1]), calls[|calls| - 1].0, calls[|calls| - 1].1)
  }

  // ---------------------------------------------------------------- the invariant

  predicate IntentLinked(w: World, s: Store, i: Intent) {
    && i.request in s.requests && i.task == i.request.task && i.op == i.request.op
    && match i.op
       case DraftOp =>
         && i.request.payload.ForDraft? && i.parent == OfCatalog(i.request.payload.catalog)
         && i.request.payload.sources != {} && i.request.payload.catalog.material == w.material
       case GenerateOp =>
         && i.request.payload.ForGenerate? && i.parent == OfDraft(i.request.payload.draft)
         && (i.task, DraftOp) in s.outputs && s.outputs[(i.task, DraftOp)] == DraftOut(i.request.payload.draft)
       case _ =>
         && i.request.payload.ForExport? && i.parent == OfResult(i.request.payload.result)
         && (i.task, GenerateOp) in s.outputs && s.outputs[(i.task, GenerateOp)] == ResultOut(i.request.payload.result)
  }

  /** A request carries what its operation works on: for a result the draft, for an export the result. */
  predicate RequestLinked(s: Store, r: Request) {
    match r.op
    case DraftOp => r.payload.ForDraft?
    case GenerateOp =>
      r.payload.ForGenerate? && (r.task, DraftOp) in s.outputs && s.outputs[(r.task, DraftOp)] == DraftOut(r.payload.draft)
    case _ =>
      r.payload.ForExport? && (r.task, GenerateOp) in s.outputs && s.outputs[(r.task, GenerateOp)] == ResultOut(r.payload.result)
  }

  ghost predicate OutputLinked(w: World, s: Store, task: Task, op: Operation)
    requires (task, op) in s.outputs
  {
    && Matching(s, task, op) != {}
    && match op
       case DraftOp => s.outputs[(task, op)].DraftOut? && w.upToDate(s.outputs[(task, op)].draft)
       case GenerateOp =>
         && s.outputs[(task, op)].ResultOut? && w.valid(s.outputs[(task, op)].result)
         && (task, DraftOp) in s.outputs && s.outputs[(task, DraftOp)] == DraftOut(s.outputs[(task, op)].result.parent)
       case _ => s.outputs[(task, op)].ExportOut? && (task, GenerateOp) in s.outputs
  }

  predicate ReceiptLinked(s: Store, r: Receipt) {
    && r.intent in s.intents && r.intent.task == r.task && r.intent.op == r.op
    && (r.task, r.op) in s.outputs && s.outputs[(r.task, r.op)] == r.output && r.schema == SchemaOf(r.op)
  }

  predicate BindingLinked(w: World, s: Store, task: Task, b: Binding) {
    && b.draftReceipt in s.receipts && b.draftReceipt.task == task && b.draftReceipt.op == DraftOp && b.draftReceipt.output.DraftOut?
    && b.generateReceipt in s.receipts && b.generateReceipt.task == task && b.generateReceipt.op == GenerateOp
    && b.generateReceipt.output.ResultOut?
    && b.draftReceipt.intent.parent == OfCatalog(b.catalog) && b.catalog in s.catalogs
    && b == BindingOf(w, b.catalog, b.draftReceipt, b.generateReceipt)
  }

  ghost predicate Linked(w: World, s: Store) {
    && (forall r :: r in s.requests ==> RequestLinked(s, r))
    && OneRequestEach(s)
    && (forall i :: i in s.intents ==> IntentLinked(w, s, i))
    && (forall task, op :: (task, op) in s.outputs ==> OutputLinked(w, s, task, op))
    && (forall r :: r in s.receipts ==> ReceiptLinked(s, r))
    && OneReceiptEach(s)
    && (forall task :: task in s.bindings ==> BindingLinked(w, s, task, s.bindings[task]))
  }

  /** What a publication must bring along. */
  ghost predicate Fits(w: World, s: Store, p: Publication) {
    Free(s, p) &&
    match p
    case PutCatalog(_) => true
    case PutRequest(r) => RequestLinked(s, r) && SameKey(s, r) == {}
    case PutIntent(i) => IntentLinked(w, s, i)
    case PutOutput(task, op, output) => OutputLinked(w, s.(outputs := s.outputs[(task, op) := output]), task, op)
    case PutReceipt(r) => ReceiptLinked(s, r) && ReceiptIn(s, r.task, r.op).None?
    case PutBinding(b) => BindingLinked(w, s, b.task, b)
  }

  lemma PutWithin(s: Store, p: Publication)
    requires Free(s, p)
    ensures Within(s, Put(s, p))
  {
  }

  lemma IntentStays(w: World, s: Store, t: Store, i: Intent)
    requires IntentLinked(w, s, i) && Within(s, t)
    ensures IntentLinked(w, t, i)
  {
  }

  lemma OutputStays(w: World, s: Store, t: Store, task: Task, op: Operation)
    requires (task, op) in s.outputs && OutputLinked(w, s, task, op) && Within(s, t)
    ensures OutputLinked(w, t, task, op)
  {
    var i :| i in Matching(s, task, op);
    assert i in Matching(t, task, op);
  }

  lemma ReceiptStays(s: Store, t: Store, r: Receipt)
    requires ReceiptLinked(s, r) && Within(s, t)
    ensures ReceiptLinked(t, r)
  {
  }

  lemma BindingStays(w: World, s: Store, t: Store, task: Task, b: Binding)
    requires BindingLinked(w, s, task, b) && Within(s, t)
    ensures BindingLinked(w, t, task, b)
  {
  }

  lemma RequestStays(s: Store, t: Store, r: Request)
    requires RequestLinked(s, r) && Within(s, t)
    ensures RequestLinked(t, r)
  {
  }

  lemma OneRequestStill(w: World, s: Store, p: Publication)
    requires OneRequestEach(s) && Fits(w, s, p)
    ensures OneRequestEach(Put(s, p))
  {
    if p.PutRequest? {
      var r := p.request;
      assert forall q :: q in s.requests && q.task == r.task && q.op == r.op && q.key == r.key ==> q in SameKey(s, r);
    }
  }

  lemma OneReceiptStill(w: World, s: Store, p: Publication)
    requires OneReceiptEach(s) && Fits(w, s, p)
    ensures OneReceiptEach(Put(s, p))
  {
  }

  lemma FitsKeepsRequests(w: World, s: Store, p: Publication)
    requires Linked(w, s) && Fits(w, s, p)
    ensures forall r :: r in Put(s, p).requests ==> RequestLinked(Put(s, p), r)
    ensures forall i :: i in Put(s, p).intents ==> IntentLinked(w, Put(s, p), i)
  {
    var t := Put(s, p);
    PutWithin(s, p);
    forall r | r in t.requests ensures RequestLinked(t, r) {
      if r in s.requests { RequestStays(s, t, r); }
    }
    forall i | i in t.intents ensures IntentLinked(w, t, i) { IntentStays(w, s, t, i); }
  }

  lemma FitsKeepsOutputs(w: World, s: Store, p: Publication)
    requires Linked(w, s) && Fits(w, s, p)
    ensures forall task, op :: (task, op) in Put(s, p).outputs ==> OutputLinked(w, Put(s, p), task, op)
    ensures forall r :: r in Put(s, p).receipts ==> ReceiptLinked(Put(s, p), r)
    ensures forall task :: task in Put(s, p).bindings ==> BindingLinked(w, Put(s, p), task, Put(s, p).bindings[task])
  {
    var t := Put(s, p);
    PutWithin(s, p);
    forall task, op | (task, op) in t.outputs ensures OutputLinked(w, t, task, op) {
      if (task, op) in s.outputs { OutputStays(w, s, t, task, op); }
    }
    forall r | r in t.receipts ensures ReceiptLinked(t, r) {
      if r in s.receipts { ReceiptStays(s, t, r); }
    }
    forall task | task in t.bindings ensures BindingLinked(w, t, task, t.bindings[task]) {
      if task in s.bindings { BindingStays(w, s, t, task, s.bindings[task]); }
    }
  }

  lemma FitsKeeps(w: World, s: Store, p: Publication)
    requires Linked(w, s) && Fits(w, s, p)
    ensures Linked(w, Put(s, p))
  {
    FitsKeepsRequests(w, s, p);
    FitsKeepsOutputs(w, s, p);
    OneRequestStill(w, s, p);
    OneReceiptStill(w, s, p);
  }

  /** Every publication of a list fits when its turn comes. */
  ghost predicate AllFit(w: World, s: Store, pubs: seq<Publication>) {
    forall k :: 0 <= k < |pubs| ==> Fits(w, PutAll(s, pubs[..k]), pubs[k])
  }

  lemma PutOne(s: Store, pubs: seq<Publication>, k: nat)
    requires k < |pubs|
    ensures PutAll(s, pubs[..k + 1]) == Put(PutAll(s, pubs[..k]), pubs[k])
  {
    assert pubs[..k + 1][..k] == pubs[..k];
  }

  lemma {:induction false} AllFitKeeps(w: World, s: Store, pubs: seq<Publication>, k: nat)
    requires Linked(w, s) && AllFit(w, s, pubs) && k <= |pubs|
    ensures Linked(w, PutAll(s, pubs[..k])) && Within(s, PutAll(s, pubs[..k]))
  {
    if k > 0 {
      var j := k - 1;
      AllFitKeeps(w, s, pubs, j);
      PutOne(s, pubs, j);
      FitsKeeps(w, PutAll(s, pubs[..j]), pubs[j]);
      WithinPut(s, PutAll(s, pubs[..j]), pubs[j]);
    }
  }

  lemma WithinPut(s: Store, t: Store, p: Publication)
    requires Within(s, t) && Free(t, p)
    ensures Within(s, Put(t, p))
  {
    PutWithin(t, p);
  }

  // ---------------------------------------------------------------- fresh operations

  /** The stores between the publications of a fresh operation. */
  lemma ProduceSteps(s: Store, r: Request, parent: Parent, output: Output)
    ensures var pubs := Produce(r, parent, output);
            var i := Intent(r.task, r.op, r, parent);
            var s1 := s.(requests := s.requests + {r});
            var s2 := s1.(intents := s1.intents + {i});
            var s3 := s2.(outputs := s2.outputs[(r.task, r.op) := output]);
            && PutAll(s, pubs[..0]) == s && PutAll(s, pubs[..1]) == s1 && PutAll(s, pubs[..2]) == s2 && PutAll(s, pubs[..3]) == s3
            && PutAll(s, pubs[..4]) == s3.(receipts := s3.receipts + {Receipt(r.task, r.op, i, output, SchemaOf(r.op))})
            && pubs[..4] == pubs
  {
    var pubs := Produce(r, parent, output);
    PutOne(s, pubs, 0);
    PutOne(s, pubs, 1);
    PutOne(s, pubs, 2);
    PutOne(s, pubs, 3);
  }

  /** A request whose intent and output would be in order. */
  ghost predicate Producible(w: World, s: Store, r: Request, parent: Parent, output: Output) {
    && SameKey(s, r) == {} && RequestLinked(s, r) && (r.task, r.op) !in s.outputs
    && IntentLinked(w, s.(requests := s.requests + {r}), Intent(r.task, r.op, r, parent))
    && match r.op
       case DraftOp => output.DraftOut? && w.upToDate(output.draft)
       case GenerateOp =>
         && output.ResultOut? && w.valid(output.result)
         && (r.task, DraftOp) in s.outputs && s.outputs[(r.task, DraftOp)] == DraftOut(output.result.parent)
       case _ => output.ExportOut? && (r.task, GenerateOp) in s.outputs
  }

  lemma ProduceFits(w: World, s: Store, r: Request, parent: Parent, output: Output)
    requires Linked(w, s) && Producible(w, s, r, parent, output)
    ensures AllFit(w, s, Produce(r, parent, output))
  {
    ProduceSteps(s, r, parent, output);
    var pubs := Produce(r, parent, output);
    var i := Intent(r.task, r.op, r, parent);
    assert r in s.requests ==> r in SameKey(s, r);
    IntentFree(w, s, r, i);
    var s2 := PutAll(s, pubs[..2]);
    assert i in Matching(PutAll(s, pubs[..3]), r.task, r.op);
    assert Fits(w, PutAll(s, pubs[..0]), pubs[0]);
    assert Fits(w, PutAll(s, pubs[..1]), pubs[1]);
    assert Fits(w, s2, pubs[2]);
    NoReceiptYet(w, s, r.task, r.op);
    assert Fits(w, PutAll(s, pubs[..3]), pubs[3]);
  }

  lemma NoReceiptYet(w: World, s: Store, task: Task, op: Operation)
    requires Linked(w, s) && (task, op) !in s.outputs
    ensures forall q :: q in s.receipts ==> q.task != task || q.op != op
  {
    forall q | q in s.receipts ensures q.task != task || q.op != op { assert ReceiptLinked(s, q); }
  }

  /** No intent or receipt can name a request that is not there yet. */
  lemma IntentFree(w: World, s: Store, r: Request, i: Intent)
    requires Linked(w, s) && r !in s.requests && i.request == r
    ensures forall j :: j in s.intents ==> j.request != r
    ensures forall q :: q in s.receipts ==> q.intent != i
  {
    forall j | j in s.intents ensures j.request != r { assert IntentLinked(w, s, j); }
    forall q | q in s.receipts ensures q.intent != i { assert ReceiptLinked(s, q); }
  }

  /** A refused attempt leaves its request and its intent. */
  lemma StopFits(w: World, s: Store, r: Request, parent: Parent, code: string)
    requires Linked(w, s) && SameKey(s, r) == {} && RequestLinked(s, r)
    requires IntentLinked(w, s.(requests := s.requests + {r}), Intent(r.task, r.op, r, parent))
    ensures AllFit(w, s, StopAfter(r, parent, code).pubs)
  {
    var pubs := StopAfter(r, parent, code).pubs;
    PutOne(s, pubs, 0);
    assert r in s.requests ==> r in SameKey(s, r);
    IntentFree(w, s, r, Intent(r.task, r.op, r, parent));
    assert pubs[..0] == [];
    assert Fits(w, PutAll(s, pubs[..0]), pubs[0]);
    assert Fits(w, PutAll(s, pubs[..1]), pubs[1]);
  }

  // ---------------------------------------------------------------- every script fits

  /** What a draft call can publish. */
  lemma DraftShape(w: World, s: Store, task: Task, p: Payload, key: Key)
    requires p.ForDraft?
    ensures var r := Request(task, DraftOp, key, p);
            var parent := OfCatalog(p.catalog);
            var pubs := DraftScript(w, s, task, p, key).pubs;
            pubs == [] || (SameKey(s, r) == {} && CatalogOk(w, p) &&
                           (|| pubs == [PutRequest(r)]
                            || pubs == StopAfter(r, parent, "").pubs
                            || (w.draftOf(p).Some? && (task, DraftOp) !in s.outputs && pubs == Produce(r, parent, DraftOut(w.draftOf(p).value)))))
  {
  }

  lemma RequestFits(w: World, s: Store, r: Request)
    requires SameKey(s, r) == {} && RequestLinked(s, r)
    ensures AllFit(w, s, [PutRequest(r)])
  {
    assert r in s.requests ==> r in SameKey(s, r);
    assert [PutRequest(r)][..0] == [];
  }

  lemma DraftFits(w: World, s: Store, task: Task, p: Payload, key: Key)
    requires Steady(w) && Linked(w, s) && p.ForDraft?
    ensures AllFit(w, s, DraftScript(w, s, task, p, key).pubs)
  {
    DraftShape(w, s, task, p, key);
    var pubs := DraftScript(w, s, task, p, key).pubs;
    var r, parent := Request(task, DraftOp, key, p), OfCatalog(p.catalog);
    if pubs == [PutRequest(r)] {
      RequestFits(w, s, r);
    } else if pubs == StopAfter(r, parent, "").pubs {
      StopFits(w, s, r, parent, "");
    } else if pubs != [] {
      ProduceFits(w, s, r, parent, DraftOut(w.draftOf(p).value));
    }
  }

  lemma ExportFits(w: World, s: Store, task: Task, op: Operation, key: Key)
    requires Steady(w) && Linked(w, s) && (op.MarkdownOp? || op.PdfOp?)
    ensures AllFit(w, s, ExportScript(w, s, task, op, key).pubs)
  {
    var script := ExportScript(w, s, task, op, key);
    if script.pubs != [] {
      var d := s.outputs[(task, GenerateOp)].result;
      var r := Request(task, op, key, ForExport(d));
      assert SameKey(s, r) == {};
      if w.exportOf(d, op).None? {
        StopFits(w, s, r, OfResult(d), "EXPORT_REJECTED");
      } else if (task, op) in s.outputs {
        StopFits(w, s, r, OfResult(d), "CREATE_ONLY_CONFLICT");
      } else {
        ProduceFits(w, s, r, OfResult(d), ExportOut(w.exportOf(d, op).value));
      }
    }
  }

  lemma FitMore(w: World, s: Store, pubs: seq<Publication>, p: Publication)
    requires AllFit(w, s, pubs) && Fits(w, PutAll(s, pubs), p)
    ensures AllFit(w, s, pubs + [p])
  {
    forall k | 0 <= k < |pubs + [p]| ensures Fits(w, PutAll(s, (pubs + [p])[..k]), (pubs + [p])[k]) {
      if k < |pubs| {
        assert (pubs + [p])[..k] == pubs[..k];
      } else {
        assert (pubs + [p])[..k] == pubs;
      }
    }
  }

  /** A binding made from a draft chain and a filed result receipt is in order. */
  lemma BindingFits(w: World, s: Store, task: Task, chain: Receipt, r: Receipt)
    requires Linked(w, s) && task !in s.bindings && DraftChain(s, task) == Some(chain)
    requires r in s.receipts && r.task == task && r.op == GenerateOp && r.output.ResultOut?
    ensures Fits(w, s, PutBinding(BindingOf(w, chain.intent.parent.catalog, chain, r)))
  {
    ChainFacts(s, task);
  }

  lemma ChainFacts(s: Store, task: Task)
    requires DraftChain(s, task).Some?
    ensures var c := DraftChain(s, task).value;
            c in s.receipts && c.task == task && c.op == DraftOp && c.intent.parent.OfCatalog? && c.intent.parent.catalog in s.catalogs
  {
    var i := TheIntent(s, task, DraftOp).value;
    assert TheReceipt(s, i).value in ReceiptsOf(s, i);
  }

  lemma GenerateFits(w: World, s: Store, task: Task, confirmed: Draft, key: Key)
    requires Steady(w) && Linked(w, s)
    ensures AllFit(w, s, GenerateScript(w, s, task, confirmed, key).pubs)
  {
    var script := GenerateScript(w, s, task, confirmed, key);
    if script.pubs != [] {
      var d := s.outputs[(task, DraftOp)].draft;
      var r := Request(task, GenerateOp, key, ForGenerate(d));
      assert SameKey(s, r) == {};
      if w.resultOf(d).None? {
        StopFits(w, s, r, OfDraft(d), "RESULT_REJECTED");
      } else if (task, GenerateOp) in s.outputs {
        StopFits(w, s, r, OfDraft(d), "CREATE_ONLY_CONFLICT");
      } else {
        GenerateProduces(w, s, r, d);
      }
    }
  }

  lemma GenerateProduces(w: World, s: Store, r: Request, d: Draft)
    requires Steady(w) && Linked(w, s) && w.resultOf(d).Some? && SameKey(s, r) == {}
    requires (r.task, DraftOp) in s.outputs && s.outputs[(r.task, DraftOp)] == DraftOut(d)
    requires r.op == GenerateOp && r.payload == ForGenerate(d) && (r.task, GenerateOp) !in s.outputs
    ensures var pubs := Produce(r, OfDraft(d), ResultOut(w.resultOf(d).value));
            var chain := DraftChain(PutAll(s, pubs), r.task);
            && AllFit(w, s, pubs)
            && (chain.Some? && r.task !in s.bindings ==>
                  AllFit(w, s, pubs + [PutBinding(BindingOf(w, chain.value.intent.parent.catalog, chain.value, pubs[3].receipt))]))
  {
    var output := ResultOut(w.resultOf(d).value);
    var pubs := Produce(r, OfDraft(d), output);
    ProduceFits(w, s, r, OfDraft(d), output);
    ProduceSteps(s, r, OfDraft(d), output);
    AllFitKeeps(w, s, pubs, 4);
    var t := PutAll(s, pubs);
    if DraftChain(t, r.task).Some? && r.task !in s.bindings {
      var chain := DraftChain(t, r.task).value;
      BindingFits(w, t, r.task, chain, pubs[3].receipt);
      FitMore(w, s, pubs, PutBinding(BindingOf(w, chain.intent.parent.catalog, chain, pubs[3].receipt)));
    }
  }

  // ---------------------------------------------------------------- recovery fits

  /** Recovery so far has published only what fits. */
  ghost predicate Fitting(w: World, s: Store, g: Progress) {
    AllFit(w, s, g.pubs) && g.store == PutAll(s, g.pubs) && Linked(w, g.store)
  }

  lemma PublishFits(w: World, s: Store, g: Progress, p: Publication)
    requires Fitting(w, s, g) && (Free(g.store, p) ==> Fits(w, g.store, p))
    ensures Fitting(w, s, Publish(g, p))
  {
    if Free(g.store, p) {
      FitMore(w, s, g.pubs, p);
      FitsKeeps(w, g.store, p);
      assert (g.pubs + [p])[..|g.pubs|] == g.pubs;
    }
  }

  lemma RestoreFits(w: World, s: Store, g: Progress, task: Task, op: Operation)
    requires Fitting(w, s, g) && (task, op) in g.store.outputs
    ensures Fitting(w, s, Restore(w, g, task, op))
  {
    var i := TheIntent(g.store, task, op);
    if i.Some? && ReceiptIn(g.store, task, op).None? {
      assert i.value in Matching(g.store, task, op);
      PublishFits(w, s, g, PutReceipt(Receipt(task, op, i.value, g.store.outputs[(task, op)], SchemaOf(op))));
    }
  }

  lemma TurnFits(w: World, s: Store, g: Progress, task: Task, op: Operation)
    requires Fitting(w, s, g)
    ensures Fitting(w, s, RecoverOutput(w, g, task, op))
  {
    TurnShape(w, g, task, op);
    if !g.stopped && (task, op) in g.store.outputs { RestoreFits(w, s, g, task, op); }
  }

  lemma RepairFits(w: World, s: Store, g: Progress, task: Task)
    requires Fitting(w, s, g) && task !in g.store.bindings
    ensures Fitting(w, s, RepairBinding(w, g, task))
  {
    var chain := DraftChain(g.store, task);
    var i := TheIntent(g.store, task, GenerateOp);
    if chain.Some? && i.Some? && TheReceipt(g.store, i.value).Some? {
      var r := TheReceipt(g.store, i.value).value;
      assert r in ReceiptsOf(g.store, i.value);
      if r.task == task && r.op == GenerateOp && r.output.ResultOut? {
        BindingFits(w, g.store, task, chain.value, r);
        PublishFits(w, s, g, PutBinding(BindingOf(w, chain.value.intent.parent.catalog, chain.value, r)));
      }
    }
  }

  /** In a linked store the repair step publishes a binding that satisfies the binding verifier, or nothing. */
  lemma RepairVerifies(w: World, g: Progress, task: Task)
    requires Linked(w, g.store) && task !in g.store.bindings
    ensures var h := RepairBinding(w, g, task);
            h == g.(stopped := true)
            || (Linked(w, h.store) && task in h.store.bindings && BindingOk(w, h.store, h.store.bindings[task])
                && h.store == g.store.(bindings := g.store.bindings[task := h.store.bindings[task]]))
  {
    RepairFits(w, g.store, g.(pubs := []), task);
    if RepairBinding(w, g, task) != g.(stopped := true) { RepairedBinding(w, g, task); }
  }

  lemma RepairedBinding(w: World, g: Progress, task: Task)
    requires Linked(w, g.store) && task !in g.store.bindings && RepairBinding(w, g, task) != g.(stopped := true)
    ensures var h := RepairBinding(w, g, task);
            && task in h.store.bindings && BindingOk(w, h.store, h.store.bindings[task])
            && h.store == g.store.(bindings := g.store.bindings[task := h.store.bindings[task]])
  {
    var s := g.store;
    ChainFacts(s, task);
    var chain := DraftChain(s, task).value;
    var i := TheIntent(s, task, GenerateOp).value;
    var r := TheReceipt(s, i).value;
    assert r in ReceiptsOf(s, i) && i in Matching(s, task, GenerateOp);
    assert IntentLinked(w, s, chain.intent);
  }

  lemma RecoverFits(w: World, s: Store, task: Task)
    requires Linked(w, s)
    ensures AllFit(w, s, RecoverScript(w, s, task).pubs)
  {
    if !Dangling(s, task) {
      var g0 := Started(s);
      TurnFits(w, s, g0, task, DraftOp);
      var g1 := RecoverOutput(w, g0, task, DraftOp);
      TurnFits(w, s, g1, task, GenerateOp);
      var g2 := RecoverOutput(w, g1, task, GenerateOp);
      TurnFits(w, s, g2, task, MarkdownOp);
      var g3 := RecoverOutput(w, g2, task, MarkdownOp);
      TurnFits(w, s, g3, task, PdfOp);
      var g4 := RecoverOutput(w, g3, task, PdfOp);
      if !g4.stopped && g4.result.Some? && task !in g4.store.bindings { RepairFits(w, s, g4, task); }
    }
  }

  lemma ScriptFits(w: World, s: Store, c: Call)
    requires Steady(w) && Linked(w, s)
    ensures AllFit(w, s, ScriptOf(w, s, c).pubs)
  {
    match c
    case CatalogCall(catalog) =>
      var pubs := ScriptOf(w, s, c).pubs;
      assert pubs != [] ==> pubs[..0] == [];
      assert pubs != [] ==> Fits(w, PutAll(s, pubs[..0]), pubs[0]);
    case DraftCall(task, p, key) => if p.ForDraft? { DraftFits(w, s, task, p, key); }
    case GenerateCall(task, confirmed, key) => GenerateFits(w, s, task, confirmed, key);
    case ExportCall(task, pdf, key) => ExportFits(w, s, task, if pdf then PdfOp else MarkdownOp, key);
    case RecoverCall(task, _) =>
      RecoverFits(w, s, task);
      RootlessExactly(w, s, task);
  }

  lemma AfterKeeps(w: World, s: Store, c: Call, k: nat)
    requires Steady(w) && Linked(w, s)
    ensures Linked(w, After(w, s, c, k)) && Within(s, After(w, s, c, k))
  {
    ScriptFits(w, s, c);
    var pubs := ScriptOf(w, s, c).pubs;
    AllFitKeeps(w, s, pubs, if k <= |pubs| then k else |pubs|);
    assert pubs[..|pubs|] == pubs;
  }

  lemma WithinChain(s: Store, t: Store, u: Store)
    requires Within(s, t) && Within(t, u)
    ensures Within(s, u)
  {
  }

  lemma EmptyLinked(w: World)
    ensures Linked(w, EMPTY)
  {
  }

  /** What the operations rely on holds in every linked store. */
  lemma LinkedIsTidy(w: World, s: Store)
    requires Linked(w, s)
    ensures forall i :: i in s.intents ==> i.request in s.requests
    ensures forall r :: r in s.receipts ==> r.intent in s.intents
    ensures OneReceiptEach(s) && OneRequestEach(s)
  {
    forall i | i in s.intents ensures i.request in s.requests { assert IntentLinked(w, s, i); }
    forall r | r in s.receipts ensures r.intent in s.intents { assert ReceiptLinked(s, r); }
  }

  /** The store is monotone over every run with crashes, and its records stay linked. */
  lemma {:induction false} Monotone(w: World, s: Store, calls: seq<(Call, nat)>)
    requires Steady(w) && Linked(w, s)
    ensures Linked(w, Play(w, s, calls)) && Within(s, Play(w, s, calls))
  {
    if calls != [] {
      var n := |calls| - 1;
      var t := Play(w, s, calls[..n]);
      Monotone(w, s, calls[..n]);
      AfterKeeps(w, t, calls[n].0, calls[n].1);
      WithinChain(s, t, After(w, t, calls[n].0, calls[n].1));
    }
  }

  /** Every store that a run reaches from the empty one is linked. */
  lemma EveryRunLinked(w: World, calls: seq<(Call, nat)>)
    requires Steady(w)
    ensures Linked(w, Play(w, EMPTY, calls))
  {
    EmptyLinked(w);
    Monotone(w, EMPTY, calls);
  }
}
