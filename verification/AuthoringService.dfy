/** The authoring operations over a work root that they change one publication at a time. */
module AuthoringService {
  import opened Wrappers
  import opened AuthoringStore
  import opened AuthoringRecovery
  import Runs = AuthoringRuns

  class WorkRoot {
    const w: World
    /** The record directories. */
    var store: Store

    constructor (world: World, found: Store)
      ensures w == world && store == found
    {
      w, store := world, found;
    }

    /** `_publish`: create-only. */
    method Publish(p: Publication) returns (ok: bool)
      modifies this
      ensures ok == Free(old(store), p)
      ensures store == if ok then Put(old(store), p) else old(store)
    {
      ok := Free(store, p);
      if ok { store := Put(store, p); }
    }

    /** `_matching_intent`, in whatever order the directory lists the intents; `several` is its error. */
    method MatchingIntent(task: Task, op: Operation) returns (matched: Option<Intent>, several: bool)
      ensures matched == TheIntent(store, task, op) && several == Several(store, task, op)
    {
      matched, several := None, false;
      var todo := store.intents;
      while todo != {}
        invariant todo <= store.intents
        invariant matched.Some? ==> matched.value in Matching(store, task, op)
        invariant forall i :: i in Matching(store, task, op) && i !in todo ==> matched == Some(i)
        decreases |todo|
      {
        var i :| i in todo;
        if i.task == task && i.op == op {
          if matched.Some? && matched.value != i {
            SeveralIntents(store, task, op, matched.value, i);
            return None, true;
          }
          matched := Some(i);
        }
        todo := todo - {i};
      }
      OneIntent(store, task, op, matched);
    }

    /** `_receipt_for_intent` */
    method ReceiptForIntent(intent: Intent) returns (found: Option<Receipt>)
      ensures found == TheReceipt(store, intent)
    {
      found := None;
      var todo := store.receipts;
      while todo != {}
        invariant todo <= store.receipts
        invariant found.Some? ==> found.value in ReceiptsOf(store, intent)
        invariant forall r :: r in ReceiptsOf(store, intent) && r !in todo ==> found == Some(r)
        decreases |todo|
      {
        var r :| r in todo;
        if r.intent == intent {
          if found.Some? && found.value != r {
            SeveralReceipts(store, intent, found.value, r);
            return None;
          }
          found := Some(r);
        }
        todo := todo - {r};
      }
      OneReceipt(store, intent, found);
    }

    /** `_idempotent_request`: the first request listed under the key decides; where no key
        carries two requests, that is a conflict exactly when the payload differs. */
    method IdempotentRequest(r: Request) returns (conflict: bool, replay: bool)
      ensures SameKey(store, r) == {} ==> !conflict && !replay
      ensures SameKey(store, r) != {} ==>
                replay == !conflict && exists q :: q in SameKey(store, r) && conflict == (q.payload != r.payload)
      ensures OneRequestEach(store) ==> conflict == exists q :: q in SameKey(store, r) && q.payload != r.payload
    {
      conflict, replay := false, false;
      var todo := store.requests;
      while todo != {}
        invariant todo <= store.requests && !conflict && !replay
        invariant forall q :: q in SameKey(store, r) ==> q in todo
        decreases |todo|
      {
        var q :| q in todo;
        if q.task == r.task && q.op == r.op && q.key == r.key {
          assert q in SameKey(store, r);
          conflict := q.payload != r.payload;
          replay := !conflict;
          return;
        }
        todo := todo - {q};
      }
    }

    /** The chain behind a replayed output. */
    method CheckReplay(task: Task, op: Operation, output: Output, parent: Parent) returns (ok: bool)
      ensures ok == ReplayOk(store, task, op, output, parent)
    {
      var i, several := MatchingIntent(task, op);
      if i.None? || i.value.parent != parent { return false; }
      var r := ReceiptForIntent(i.value);
      return r.Some? && ChainOk(store, r.value, task, op, output);
    }

    /** Request, intent, output and receipt of an operation whose request is new. */
    method PublishAll(r: Request, parent: Parent, output: Output) returns (ok: bool)
      requires r !in store.requests && (forall j :: j in store.intents ==> j.request != r)
      requires forall q :: q in store.receipts ==> q.intent.request != r
      modifies this
      ensures ok == ((r.task, r.op) !in old(store).outputs)
      ensures store == PutAll(old(store), if ok then Produce(r, parent, output) else StopAfter(r, parent, "").pubs)
    {
      PutFour(store, r, parent, output);
      ok := Publish(PutRequest(r));
      var intent := Intent(r.task, r.op, r, parent);
      ok := Publish(PutIntent(intent));
      ok := Publish(PutOutput(r.task, r.op, output));
      if ok {
        var filed := Publish(PutReceipt(Receipt(r.task, r.op, intent, output, SchemaOf(r.op))));
      }
    }

    /** Request and intent of an operation whose output could not be built. */
    method PublishAttempt(r: Request, parent: Parent)
      requires r !in store.requests && (forall j :: j in store.intents ==> j.request != r)
      modifies this
      ensures store == PutAll(old(store), StopAfter(r, parent, "").pubs)
    {
      PutTwo(store, r, parent);
      var ok := Publish(PutRequest(r));
      ok := Publish(PutIntent(Intent(r.task, r.op, r, parent)));
    }

    /** No record names a request that has not been published, and no key carries two requests. */
    ghost predicate Tidy()
      reads this
    {
      && OneRequestEach(store)
      && (forall j :: j in store.intents ==> j.request in store.requests)
      && (forall q :: q in store.receipts ==> q.intent in store.intents)
    }

    /** `create_authoring_draft` */
    method CreateDraft(task: Task, p: Payload, key: Key) returns (answer: Answer)
      requires p.ForDraft? && Tidy()
      modifies this
      ensures store == PutAll(old(store), DraftScript(w, old(store), task, p, key).pubs)
      ensures answer == DraftScript(w, old(store), task, p, key).answer
    {
      var r := Request(task, DraftOp, key, p);
      var conflict, replay := IdempotentRequest(r);
      if conflict { return Failed("IDEMPOTENCY_CONFLICT"); }
      if !CatalogOk(w, p) { return Failed("INVALID_SOURCE_ID"); }
      if replay {
        answer := ReplayDraft(task, p);
        return;
      }
      answer := FreshDraft(r);
    }

    /** A draft under a new key. */
    method FreshDraft(r: Request) returns (answer: Answer)
      requires r.op == DraftOp && r.payload.ForDraft? && SameKey(store, r) == {} && CatalogOk(w, r.payload) && Tidy()
      modifies this
      ensures store == PutAll(old(store), DraftScript(w, old(store), r.task, r.payload, r.key).pubs)
      ensures answer == DraftScript(w, old(store), r.task, r.payload, r.key).answer
    {
      if r.task !in KnownTasks(store) && |KnownTasks(store)| >= MAX_TASKS { return Failed("TASK_CAPACITY_EXCEEDED"); }
      assert r !in SameKey(store, r);
      if !w.readmeOk(r.payload) {
        PutFirst(store, r);
        var ok := Publish(PutRequest(r));
        return Failed("INVALID_README_TARGET");
      }
      var draft := w.draftOf(r.payload);
      if draft.None? {
        PublishAttempt(r, OfCatalog(r.payload.catalog));
        return Failed("DRAFT_REJECTED");
      }
      var ok := PublishAll(r, OfCatalog(r.payload.catalog), DraftOut(draft.value));
      return if ok then GaveDraft(draft.value) else Failed("CREATE_ONLY_CONFLICT");
    }

    method ReplayDraft(task: Task, p: Payload) returns (answer: Answer)
      requires p.ForDraft?
      ensures answer ==
              if (task, DraftOp) in store.outputs && store.outputs[(task, DraftOp)].DraftOut?
                 && ReplayOk(store, task, DraftOp, store.outputs[(task, DraftOp)], OfCatalog(p.catalog))
                 && w.upToDate(store.outputs[(task, DraftOp)].draft)
              then GaveDraft(store.outputs[(task, DraftOp)].draft)
              else Failed("ATTENTION")
    {
      if (task, DraftOp) !in store.outputs || !store.outputs[(task, DraftOp)].DraftOut? { return Failed("ATTENTION"); }
      var output := store.outputs[(task, DraftOp)];
      var ok := CheckReplay(task, DraftOp, output, OfCatalog(p.catalog));
      return if ok && w.upToDate(output.draft) then GaveDraft(output.draft) else Failed("ATTENTION");
    }

    /** `export_result` */
    method ExportResult(task: Task, op: Operation, key: Key) returns (answer: Answer)
      requires Tidy()
      modifies this
      ensures store == PutAll(old(store), ExportScript(w, old(store), task, op, key).pubs)
      ensures answer == ExportScript(w, old(store), task, op, key).answer
    {
      if (task, GenerateOp) !in store.outputs || !store.outputs[(task, GenerateOp)].ResultOut? { return Failed("RESULT_UNAVAILABLE"); }
      var result := store.outputs[(task, GenerateOp)].result;
      if !w.valid(result) { return Failed("MATERIAL_STALE_OR_MISMATCH"); }
      var r := Request(task, op, key, ForExport(result));
      var conflict, replay := IdempotentRequest(r);
      if conflict { return Failed("IDEMPOTENCY_CONFLICT"); }
      if replay {
        if (task, op) !in store.outputs || !store.outputs[(task, op)].ExportOut? { return Failed("ATTENTION"); }
        var ok := CheckReplay(task, op, store.outputs[(task, op)], OfResult(result));
        return if ok then GaveExport(store.outputs[(task, op)].bytes) else Failed("ATTENTION");
      }
      assert r !in SameKey(store, r);
      var bytes := w.exportOf(result, op);
      if bytes.None? {
        PublishAttempt(r, OfResult(result));
        return Failed("EXPORT_REJECTED");
      }
      var ok := PublishAll(r, OfResult(result), ExportOut(bytes.value));
      return if ok then GaveExport(bytes.value) else Failed("CREATE_ONLY_CONFLICT");
    }

    /** The draft part of a binding. */
    method FindDraftChain(task: Task) returns (chain: Option<Receipt>)
      ensures chain == DraftChain(store, task)
    {
      var i, several := MatchingIntent(task, DraftOp);
      if i.None? || (task, DraftOp) !in store.outputs || !store.outputs[(task, DraftOp)].DraftOut? { return None; }
      var r := ReceiptForIntent(i.value);
      if r.None? || !ChainOk(store, r.value, task, DraftOp, store.outputs[(task, DraftOp)]) { return None; }
      return if i.value.parent.OfCatalog? && i.value.parent.catalog in store.catalogs then r else None;
    }

    /** `confirm_and_generate` */
    method ConfirmAndGenerate(task: Task, confirmed: Draft, key: Key) returns (answer: Answer)
      requires Tidy()
      modifies this
      ensures store == PutAll(old(store), GenerateScript(w, old(store), task, confirmed, key).pubs)
      ensures answer == GenerateScript(w, old(store), task, confirmed, key).answer
    {
      if (task, DraftOp) !in store.outputs || !store.outputs[(task, DraftOp)].DraftOut? { return Failed("DRAFT_UNAVAILABLE"); }
      var draft := store.outputs[(task, DraftOp)].draft;
      if confirmed != draft { return Failed("INVALID_CONFIRMATION"); }
      var r := Request(task, GenerateOp, key, ForGenerate(draft));
      var conflict, replay := IdempotentRequest(r);
      if conflict { return Failed("IDEMPOTENCY_CONFLICT"); }
      if replay {
        answer := ReplayResult(task, draft);
        return;
      }
      assert r !in SameKey(store, r);
      var result := w.resultOf(draft);
      if result.None? {
        PublishAttempt(r, OfDraft(draft));
        return Failed("RESULT_REJECTED");
      }
      answer := Generate(r, draft, result.value);
    }

    method ReplayResult(task: Task, draft: Draft) returns (answer: Answer)
      ensures answer ==
              if (task, GenerateOp) in store.outputs && store.outputs[(task, GenerateOp)].ResultOut?
                 && ReplayOk(store, task, GenerateOp, store.outputs[(task, GenerateOp)], OfDraft(draft))
                 && w.valid(store.outputs[(task, GenerateOp)].result)
                 && task in store.bindings && BindingOk(w, store, store.bindings[task])
              then GaveResult(store.outputs[(task, GenerateOp)].result)
              else Failed("ATTENTION")
    {
      if (task, GenerateOp) !in store.outputs || !store.outputs[(task, GenerateOp)].ResultOut? { return Failed("ATTENTION"); }
      var output := store.outputs[(task, GenerateOp)];
      var ok := CheckReplay(task, GenerateOp, output, OfDraft(draft));
      if !ok || !w.valid(output.result) || task !in store.bindings || !BindingOk(w, store, store.bindings[task]) {
        return Failed("ATTENTION");
      }
      return GaveResult(output.result);
    }

    /** The publications of a new result, up to its binding. */
    method Generate(r: Request, draft: Draft, result: ResultDoc) returns (answer: Answer)
      requires r !in store.requests && Tidy() && r.op == GenerateOp
      modifies this
      ensures var s := old(store);
              var pubs := Produce(r, OfDraft(draft), ResultOut(result));
              var chain := DraftChain(PutAll(s, pubs), r.task);
              if (r.task, GenerateOp) in s.outputs then
                store == PutAll(s, StopAfter(r, OfDraft(draft), "").pubs) && answer == Failed("CREATE_ONLY_CONFLICT")
              else if chain.None? then store == PutAll(s, pubs) && answer == Failed("ATTENTION")
              else if r.task in s.bindings then store == PutAll(s, pubs) && answer == Failed("CREATE_ONLY_CONFLICT")
              else
                store == PutAll(s, pubs + [PutBinding(BindingOf(w, chain.value.intent.parent.catalog, chain.value, pubs[3].receipt))])
                && answer == GaveResult(result)
    {
      ghost var s, pubs := store, Produce(r, OfDraft(draft), ResultOut(result));
      PutFour(store, r, OfDraft(draft), ResultOut(result));
      var ok := PublishAll(r, OfDraft(draft), ResultOut(result));
      if !ok { return Failed("CREATE_ONLY_CONFLICT"); }
      var chain := FindDraftChain(r.task);
      if chain.None? { return Failed("ATTENTION"); }
      var receipt := Receipt(r.task, r.op, Intent(r.task, r.op, r, OfDraft(draft)), ResultOut(result), SchemaOf(r.op));
      var binding := BindingOf(w, chain.value.intent.parent.catalog, chain.value, receipt);
      BoundTask(store, r.task, chain.value);
      PutLast(s, pubs, PutBinding(binding));
      ok := Publish(PutBinding(binding));
      return if ok then GaveResult(result) else Failed("CREATE_ONLY_CONFLICT");
    }

    // ---------------------------------------------------------------- recovery

    /** The receipt filed under a task and operation. */
    method FiledReceipt(task: Task, op: Operation) returns (r: Option<Receipt>)
      requires OneReceiptEach(store)
      ensures r == ReceiptIn(store, task, op)
    {
      r := None;
      var todo := store.receipts;
      while todo != {}
        invariant todo <= store.receipts
        invariant forall q :: q in store.receipts && q !in todo ==> q.task != task || q.op != op
        decreases |todo|
      {
        var q :| q in todo;
        if q.task == task && q.op == op { return Some(q); }
        todo := todo - {q};
      }
    }

    /** The receipt of one output, restored when its sources are proved fresh. */
    method RestoreReceipt(g: Progress, task: Task, op: Operation, root: bool) returns (h: Progress)
      requires g.store == store && (task, op) in store.outputs && OneReceiptEach(store)
      modifies this
      ensures h == if root then Restore(w, g, task, op) else RootlessRestore(g, task, op)
      ensures h.store == store && OneReceiptEach(store)
    {
      h := g;
      var output := store.outputs[(task, op)];
      var receipt := FiledReceipt(task, op);
      if receipt.Some? { return; }
      var i, several := MatchingIntent(task, op);
      if i.None? || !root || !MayRestore(w, g, task, op, output) { h := h.(stopped := true, raised := several); return; }
      var restored := PutReceipt(Receipt(task, op, i.value, output, SchemaOf(op)));
      var ok := Publish(restored);
      h := if ok then g.(pubs := g.pubs + [restored], store := store) else g.(stopped := true);
    }

    /** One turn of the loop over the outputs. */
    method RecoverTurn(g: Progress, task: Task, op: Operation, root: bool) returns (h: Progress)
      requires g.store == store && OneReceiptEach(store)
      modifies this
      ensures h == if root then RecoverOutput(w, g, task, op) else RootlessOutput(g, task, op)
      ensures h.store == store && OneReceiptEach(store)
    {
      h := g;
      if g.stopped || (task, op) !in store.outputs { return; }
      h := RestoreReceipt(g, task, op, root);
      if h.stopped || (task, op) !in store.outputs { return; }
      var output := store.outputs[(task, op)];
      var r := FiledReceipt(task, op);
      if r.None? || r.value.output != output || r.value.schema != SchemaOf(op) || !ChainOk(store, r.value, task, op, output) {
        h := h.(stopped := true);
        return;
      }
      match op
      case DraftOp => h := if output.DraftOut? then h.(draft := Some(output.draft)) else h.(stopped := true);
      case GenerateOp =>
        if output.ResultOut? && h.draft == Some(output.result.parent) && r.value.intent.parent == OfDraft(output.result.parent) {
          h := h.(result := Some(output.result));
        } else {
          h := h.(stopped := true);
        }
      case _ => h := h.(exports := h.exports + {op});
    }

    /** `_repair_binding_if_complete` */
    method Repair(g: Progress, task: Task) returns (h: Progress)
      requires g.store == store
      modifies this
      ensures h == RepairBinding(w, g, task) && h.store == store
      ensures task !in old(store).bindings && task in store.bindings && Runs.Linked(w, old(store)) ==>
                Runs.Linked(w, store) && BindingOk(w, store, store.bindings[task])
    {
      h := g.(stopped := true);
      if task !in store.bindings && Runs.Linked(w, store) { Runs.RepairVerifies(w, g, task); }
      var chain := FindDraftChain(task);
      var i, several := MatchingIntent(task, GenerateOp);
      if chain.None? || i.None? { return; }
      var r := ReceiptForIntent(i.value);
      if r.None? || (task, GenerateOp) !in store.outputs { return; }
      var output := store.outputs[(task, GenerateOp)];
      if && ChainOk(store, r.value, task, GenerateOp, output) && output.ResultOut?
         && output.result.parent == chain.value.output.draft && w.upToDate(chain.value.output.draft) && w.valid(output.result)
         && chain.value.intent.parent.catalog.material == w.material
         && i.value.parent == OfDraft(chain.value.output.draft)
         && chain.value.intent.request.payload.ForDraft?
         && chain.value.intent.request.payload.catalog == chain.value.intent.parent.catalog
         && r.value.intent.request.payload == ForGenerate(chain.value.output.draft)
      {
        var binding := PutBinding(BindingOf(w, chain.value.intent.parent.catalog, chain.value, r.value));
        var ok := Publish(binding);
        if ok { h := g.(pubs := g.pubs + [binding], store := store); }
      }
    }

    /** The loop over the four outputs. */
    method RecoverTurns(task: Task, root: bool) returns (g: Progress)
      requires OneReceiptEach(store)
      modifies this
      ensures g == if root then RecoverOutputs(w, old(store), task) else RootlessOutputs(old(store), task)
      ensures g.store == store
    {
      g := RecoverTurn(Started(store), task, DraftOp, root);
      g := RecoverTurn(g, task, GenerateOp, root);
      g := RecoverTurn(g, task, MarkdownOp, root);
      g := RecoverTurn(g, task, PdfOp, root);
    }

    /** The binding of a result: verified, or rebuilt when it is missing. */
    method RecoverBound(g: Progress, task: Task) returns (h: Progress)
      requires g.store == store
      modifies this
      ensures h == RecoverBinding(w, g, task) && h.store == store
    {
      h := g;
      if g.stopped || g.result.None? { return; }
      if task !in store.bindings {
        h := Repair(g, task);
      } else if !BindingOk(w, store, store.bindings[task]) {
        h := g.(stopped := true);
      }
    }

    /** `recover_authoring_state`, with or without a material root */
    method Recover(task: Task, root: bool) returns (answer: Answer)
      requires OneReceiptEach(store)
      modifies this
      ensures var script := if root then RecoverScript(w, old(store), task) else RootlessScript(w, old(store), task);
              store == PutAll(old(store), script.pubs) && answer == script.answer
    {
      if exists i :: i in store.intents && i.task == task && (task, i.op) !in store.outputs {
        return Recovered(ATTENTION);
      }
      PublishedBy(w, store, task, root);
      var g := RecoverTurns(task, root);
      g := RecoverBound(g, task);
      answer := AnswerOf(g);
    }
  }

  /** What recovery has done to the store is what it has published. */
  lemma PublishedBy(w: World, s: Store, task: Task, root: bool)
    ensures var g := RecoverBinding(w, if root then RecoverOutputs(w, s, task) else RootlessOutputs(s, task), task);
            g.store == PutAll(s, g.pubs)
  {
    RecoverStore(w, s, task);
    RootlessTurns(w, s, task);
    if !root && !AllFiled(s, task) { RootlessSame(w, s, task); }
  }

  lemma RootlessSame(w: World, s: Store, task: Task)
    requires !AllFiled(s, task)
    ensures var g := RecoverBinding(w, RootlessOutputs(s, task), task); g.store == s && g.pubs == []
  {
    RootlessTurns(w, s, task);
  }

  lemma SeveralIntents(s: Store, task: Task, op: Operation, i: Intent, j: Intent)
    requires i in Matching(s, task, op) && j in Matching(s, task, op) && i != j
    ensures TheIntent(s, task, op).None?
  {
  }

  lemma OneIntent(s: Store, task: Task, op: Operation, matched: Option<Intent>)
    requires matched.Some? ==> matched.value in Matching(s, task, op)
    requires forall i :: i in Matching(s, task, op) ==> matched == Some(i)
    ensures matched == TheIntent(s, task, op)
  {
    if matched.Some? { assert Matching(s, task, op) == {matched.value}; }
  }

  lemma SeveralReceipts(s: Store, i: Intent, q: Receipt, r: Receipt)
    requires q in ReceiptsOf(s, i) && r in ReceiptsOf(s, i) && q != r
    ensures TheReceipt(s, i).None?
  {
  }

  lemma OneReceipt(s: Store, i: Intent, found: Option<Receipt>)
    requires found.Some? ==> found.value in ReceiptsOf(s, i)
    requires forall r :: r in ReceiptsOf(s, i) ==> found == Some(r)
    ensures found == TheReceipt(s, i)
  {
    if found.Some? { assert ReceiptsOf(s, i) == {found.value}; }
  }

  lemma PutLast(s: Store, pubs: seq<Publication>, p: Publication)
    ensures PutAll(s, pubs + [p]) == Put(PutAll(s, pubs), p)
  {
    assert (pubs + [p])[..|pubs|] == pubs;
  }

  lemma PutFirst(s: Store, r: Request)
    ensures PutAll(s, [PutRequest(r)]) == Put(s, PutRequest(r))
  {
    PutLast(s, [], PutRequest(r));
    assert [] + [PutRequest(r)] == [PutRequest(r)];
  }

  lemma PutTwo(s: Store, r: Request, parent: Parent)
    ensures PutAll(s, StopAfter(r, parent, "").pubs) == Put(Put(s, PutRequest(r)), PutIntent(Intent(r.task, r.op, r, parent)))
  {
    var i := PutIntent(Intent(r.task, r.op, r, parent));
    PutFirst(s, r);
    PutLast(s, [PutRequest(r)], i);
    assert [PutRequest(r)] + [i] == StopAfter(r, parent, "").pubs;
  }

  lemma PutFour(s: Store, r: Request, parent: Parent, output: Output)
    ensures PutAll(s, StopAfter(r, parent, "").pubs) == Put(Put(s, PutRequest(r)), PutIntent(Intent(r.task, r.op, r, parent)))
    ensures var pubs := Produce(r, parent, output);
            PutAll(s, pubs) == Put(Put(PutAll(s, StopAfter(r, parent, "").pubs), pubs[2]), pubs[3])
  {
    var pubs := Produce(r, parent, output);
    PutTwo(s, r, parent);
    var two := StopAfter(r, parent, "").pubs;
    PutLast(s, two, pubs[2]);
    PutLast(s, two + [pubs[2]], pubs[3]);
    assert two + [pubs[2]] + [pubs[3]] == pubs;
  }

  lemma BoundTask(s: Store, task: Task, chain: Receipt)
    requires DraftChain(s, task) == Some(chain)
    ensures chain.task == task
  {
  }
}
