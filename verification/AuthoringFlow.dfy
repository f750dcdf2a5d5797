/** When a call under a new key succeeds, what it then leaves, and that a new task can be
    carried through from its catalog to both exports. */
module AuthoringFlow {
  import opened Wrappers
  import opened AuthoringStore
  import opened AuthoringRecovery
  import opened AuthoringCompletion
  import opened AuthoringRuns
  import opened AuthoringResults

  // ---------------------------------------------------------------- when a call succeeds

  predicate NewKey(s: Store, task: Task, op: Operation, key: Key) {
    forall q :: q in s.requests ==> q.task != task || q.op != op || q.key != key
  }

  /** The four records of a fresh operation, and nothing else, have been added. */
  predicate Added(s: Store, t: Store, r: Request, parent: Parent, output: Output) {
    var i := Intent(r.task, r.op, r, parent);
    && t.catalogs == s.catalogs && t.requests == s.requests + {r} && t.intents == s.intents + {i}
    && t.outputs == s.outputs[(r.task, r.op) := output]
    && t.receipts == s.receipts + {Receipt(r.task, r.op, i, output, SchemaOf(r.op))}
  }

  lemma KeyIsNew(s: Store, r: Request)
    ensures NewKey(s, r.task, r.op, r.key) <==> SameKey(s, r) == {}
  {
    if SameKey(s, r) == {} {
      forall q | q in s.requests ensures q.task != r.task || q.op != r.op || q.key != r.key { assert q !in SameKey(s, r); }
    }
  }

  /** Under a new key a draft call gives a draft exactly when the catalog is of this material and
      current, the sources are some it knows, the task is known or there is room for it, the builder
      delivers, and the task has no draft. It leaves the four records of the draft. */
  lemma DraftExactly(w: World, s: Store, task: Task, p: Payload, key: Key, d: Draft)
    requires p.ForDraft? && NewKey(s, task, DraftOp, key)
    ensures var script := DraftScript(w, s, task, p, key);
            && (script.answer == GaveDraft(d) <==>
                  && p.catalog.material == w.material && w.current(p.catalog) && p.sources != {} && p.sources <= w.known
                  && (task in KnownTasks(s) || |KnownTasks(s)| < 64) && w.readmeOk(p)
                  && w.draftOf(p) == Some(d) && (task, DraftOp) !in s.outputs)
            && (script.answer == GaveDraft(d) ==>
                  && Added(s, PutAll(s, script.pubs), Request(task, DraftOp, key, p), OfCatalog(p.catalog), DraftOut(d))
                  && PutAll(s, script.pubs).bindings == s.bindings)
  {
    var r := Request(task, DraftOp, key, p);
    KeyIsNew(s, r);
    ProduceSteps(s, r, OfCatalog(p.catalog), DraftOut(d));
  }

  /** The draft has the only intent of its slot, a receipt, and a published catalog. */
  ghost predicate DraftFiled(s: Store, task: Task) {
    exists i :: i in s.intents && i.task == task && i.op == DraftOp
                && (forall j :: j in s.intents && j.task == task && j.op == DraftOp ==> j == i)
                && i.parent.OfCatalog? && i.parent.catalog in s.catalogs
                && exists q :: q in s.receipts && q.intent == i
  }

  lemma FiledIsChain(w: World, s: Store, task: Task)
    requires Linked(w, s) && (task, DraftOp) in s.outputs
    ensures DraftFiled(s, task) <==> DraftChain(s, task).Some?
    ensures DraftChain(s, task).Some? ==> s.outputs[(task, DraftOp)] == DraftChain(s, task).value.output
  {
    assert OutputLinked(w, s, task, DraftOp);
    if DraftFiled(s, task) {
      var i :| i in s.intents && i.task == task && i.op == DraftOp
               && (forall j :: j in s.intents && j.task == task && j.op == DraftOp ==> j == i)
               && i.parent.OfCatalog? && i.parent.catalog in s.catalogs && exists q :: q in s.receipts && q.intent == i;
      assert Matching(s, task, DraftOp) == {i};
      var q :| q in s.receipts && q.intent == i;
      assert ReceiptLinked(s, q) && IntentLinked(w, s, i);
      forall r | r in ReceiptsOf(s, i) ensures r == q { assert ReceiptLinked(s, r); }
      assert ReceiptsOf(s, i) == {q};
    }
    if DraftChain(s, task).Some? {
      ChainIsFiled(s, task);
    }
  }

  lemma ChainIsFiled(s: Store, task: Task)
    requires DraftChain(s, task).Some?
    ensures DraftFiled(s, task)
  {
    var i := TheIntent(s, task, DraftOp).value;
    ChainFacts(s, task);
    assert i in Matching(s, task, DraftOp);
    forall j | j in s.intents && j.task == task && j.op == DraftOp ensures j == i { assert j in Matching(s, task, DraftOp); }
    assert TheReceipt(s, i).value in ReceiptsOf(s, i);
  }

  /** Records of another slot do not touch the draft chain. */
  lemma FiledKept(s: Store, t: Store, r: Request, parent: Parent, output: Output)
    requires Added(s, t, r, parent, output) && r.op != DraftOp
    requires forall q :: q in s.receipts ==> q.intent in s.intents
    ensures DraftFiled(t, r.task) <==> DraftFiled(s, r.task)
  {
    var task := r.task;
    if DraftFiled(s, task) {
      var i :| i in s.intents && i.task == task && i.op == DraftOp
               && (forall j :: j in s.intents && j.task == task && j.op == DraftOp ==> j == i)
               && i.parent.OfCatalog? && i.parent.catalog in s.catalogs && exists q :: q in s.receipts && q.intent == i;
      var q :| q in s.receipts && q.intent == i;
      assert q in t.receipts && i in t.intents;
    }
    if DraftFiled(t, task) {
      var i :| i in t.intents && i.task == task && i.op == DraftOp
               && (forall j :: j in t.intents && j.task == task && j.op == DraftOp ==> j == i)
               && i.parent.OfCatalog? && i.parent.catalog in t.catalogs && exists q :: q in t.receipts && q.intent == i;
      var q :| q in t.receipts && q.intent == i;
      assert q in s.receipts && i in s.intents;
    }
  }

  lemma BoundHasResult(w: World, s: Store, task: Task)
    requires Linked(w, s) && task in s.bindings
    ensures (task, GenerateOp) in s.outputs
  {
    var b := s.bindings[task];
    assert BindingLinked(w, s, task, b);
    assert ReceiptLinked(s, b.generateReceipt);
  }

  /** Under a new key a confirmed result is given exactly when the confirmation names the task's
      draft, the builder delivers, the task has no result, and its draft is properly filed. It leaves
      the four records of the result and a binding of draft and result. */
  lemma GenerateExactly(w: World, s: Store, task: Task, confirmed: Draft, key: Key, x: ResultDoc)
    requires Steady(w) && Linked(w, s) && NewKey(s, task, GenerateOp, key)
    ensures var script := GenerateScript(w, s, task, confirmed, key);
            var t := PutAll(s, script.pubs);
            && (script.answer == GaveResult(x) <==>
                  && (task, DraftOp) in s.outputs && s.outputs[(task, DraftOp)] == DraftOut(confirmed)
                  && w.resultOf(confirmed) == Some(x) && (task, GenerateOp) !in s.outputs && DraftFiled(s, task))
            && (script.answer == GaveResult(x) ==>
                  && Added(s, t, Request(task, GenerateOp, key, ForGenerate(confirmed)), OfDraft(confirmed), ResultOut(x))
                  && task in t.bindings && t.bindings == s.bindings[task := t.bindings[task]]
                  && t.bindings[task].draft == confirmed && t.bindings[task].result == x)
  {
    var r := Request(task, GenerateOp, key, ForGenerate(confirmed));
    KeyIsNew(s, r);
    if (task, DraftOp) in s.outputs && s.outputs[(task, DraftOp)] == DraftOut(confirmed)
       && w.resultOf(confirmed) == Some(x) && (task, GenerateOp) !in s.outputs {
      GenerateMakes(w, s, r, confirmed, x);
    }
  }

  lemma GenerateShape(w: World, s: Store, r: Request, d: Draft, x: ResultDoc)
    requires SameKey(s, r) == {} && r.op == GenerateOp && r.payload == ForGenerate(d)
    requires (r.task, DraftOp) in s.outputs && s.outputs[(r.task, DraftOp)] == DraftOut(d)
    requires w.resultOf(d) == Some(x) && (r.task, GenerateOp) !in s.outputs
    ensures var pubs := Produce(r, OfDraft(d), ResultOut(x));
            var chain := DraftChain(PutAll(s, pubs), r.task);
            GenerateScript(w, s, r.task, d, r.key) ==
            if chain.None? then Script(pubs, Failed("ATTENTION"))
            else if r.task in s.bindings then Script(pubs, Failed("CREATE_ONLY_CONFLICT"))
            else Script(pubs + [PutBinding(BindingOf(w, chain.value.intent.parent.catalog, chain.value, pubs[3].receipt))], GaveResult(x))
  {
  }

  /** The store after the four records, and that the draft is as well filed there as before. */
  lemma FourRecords(w: World, s: Store, r: Request, d: Draft, x: ResultDoc)
    requires Steady(w) && Linked(w, s) && SameKey(s, r) == {} && r.op == GenerateOp && r.payload == ForGenerate(d)
    requires (r.task, DraftOp) in s.outputs && s.outputs[(r.task, DraftOp)] == DraftOut(d)
    requires w.resultOf(d) == Some(x) && (r.task, GenerateOp) !in s.outputs
    ensures var u := PutAll(s, Produce(r, OfDraft(d), ResultOut(x)));
            && Added(s, u, r, OfDraft(d), ResultOut(x)) && u.bindings == s.bindings
            && (DraftChain(u, r.task).Some? <==> DraftFiled(s, r.task))
            && (DraftChain(u, r.task).Some? ==> DraftChain(u, r.task).value.output == DraftOut(d) && DraftChain(u, r.task).value.task == r.task)
  {
    var pubs := Produce(r, OfDraft(d), ResultOut(x));
    ProduceSteps(s, r, OfDraft(d), ResultOut(x));
    GenerateProduces(w, s, r, d);
    AllFitKeeps(w, s, pubs, 4);
    var u := PutAll(s, pubs);
    LinkedIsTidy(w, s);
    FiledKept(s, u, r, OfDraft(d), ResultOut(x));
    FiledIsChain(w, u, r.task);
    if DraftChain(u, r.task).Some? { ChainFacts(u, r.task); }
  }

  lemma GenerateMakes(w: World, s: Store, r: Request, d: Draft, x: ResultDoc)
    requires Steady(w) && Linked(w, s) && SameKey(s, r) == {} && r.op == GenerateOp && r.payload == ForGenerate(d)
    requires (r.task, DraftOp) in s.outputs && s.outputs[(r.task, DraftOp)] == DraftOut(d)
    requires w.resultOf(d) == Some(x) && (r.task, GenerateOp) !in s.outputs
    ensures var script := GenerateScript(w, s, r.task, d, r.key);
            var t := PutAll(s, script.pubs);
            if DraftFiled(s, r.task) then
              && script.answer == GaveResult(x) && Added(s, t, r, OfDraft(d), ResultOut(x))
              && r.task in t.bindings && t.bindings == s.bindings[r.task := t.bindings[r.task]]
              && t.bindings[r.task].draft == d && t.bindings[r.task].result == x
            else script.answer.Failed?
  {
    GenerateShape(w, s, r, d, x);
    FourRecords(w, s, r, d, x);
    if r.task in s.bindings { BoundHasResult(w, s, r.task); }
    var chain := DraftChain(PutAll(s, Produce(r, OfDraft(d), ResultOut(x))), r.task);
    if chain.Some? {
      BindingLast(w, s, r, d, x, chain.value);
      BindingAdded(s, PutAll(s, Produce(r, OfDraft(d), ResultOut(x))), r, OfDraft(d), ResultOut(x),
                   BindingOf(w, chain.value.intent.parent.catalog, chain.value, Produce(r, OfDraft(d), ResultOut(x))[3].receipt));
    }
  }

  lemma BindingAdded(s: Store, u: Store, r: Request, parent: Parent, output: Output, b: Binding)
    requires Added(s, u, r, parent, output) && u.bindings == s.bindings && b.task == r.task
    ensures var t := Put(u, PutBinding(b));
            && Added(s, t, r, parent, output) && r.task in t.bindings && t.bindings[r.task] == b
            && t.bindings == s.bindings[r.task := t.bindings[r.task]]
  {
  }

  /** The fifth publication of a result. */
  lemma BindingLast(w: World, s: Store, r: Request, d: Draft, x: ResultDoc, chain: Receipt)
    requires chain.output == DraftOut(d) && chain.intent.parent.OfCatalog? && chain.task == r.task
    ensures var pubs := Produce(r, OfDraft(d), ResultOut(x));
            var b := BindingOf(w, chain.intent.parent.catalog, chain, pubs[3].receipt);
            PutAll(s, pubs + [PutBinding(b)]) == Put(PutAll(s, pubs), PutBinding(b)) && b.task == r.task && b.draft == d && b.result == x
  {
    var pubs := Produce(r, OfDraft(d), ResultOut(x));
    var all := pubs + [PutBinding(BindingOf(w, chain.intent.parent.catalog, chain, pubs[3].receipt))];
    assert all[..|all| - 1] == pubs;
  }

  /** Under a new key an export is given exactly when the task has a result, the builder delivers,
      and there is no export of this kind. It leaves the four records of the export. */
  lemma ExportExactly(w: World, s: Store, task: Task, op: Operation, key: Key, bytes: nat)
    requires Linked(w, s) && NewKey(s, task, op, key)
    ensures var script := ExportScript(w, s, task, op, key);
            && (script.answer == GaveExport(bytes) <==>
                  && (task, GenerateOp) in s.outputs && s.outputs[(task, GenerateOp)].ResultOut?
                  && w.exportOf(s.outputs[(task, GenerateOp)].result, op) == Some(bytes) && (task, op) !in s.outputs)
            && (script.answer == GaveExport(bytes) ==>
                  && (var x := s.outputs[(task, GenerateOp)].result;
                      Added(s, PutAll(s, script.pubs), Request(task, op, key, ForExport(x)), OfResult(x), ExportOut(bytes)))
                  && PutAll(s, script.pubs).bindings == s.bindings)
  {
    if (task, GenerateOp) in s.outputs && s.outputs[(task, GenerateOp)].ResultOut? {
      assert OutputLinked(w, s, task, GenerateOp);
      var x := s.outputs[(task, GenerateOp)].result;
      var r := Request(task, op, key, ForExport(x));
      KeyIsNew(s, r);
      ProduceSteps(s, r, OfResult(x), ExportOut(bytes));
    }
  }

  // ---------------------------------------------------------------- a task from beginning to end

  /** The task has come through exactly these operations and nothing of it is missing. */
  ghost predicate Through(s: Store, task: Task, ops: set<Operation>) {
    && (forall op :: (task, op) in s.outputs <==> op in ops)
    && (forall i :: i in s.intents && i.task == task ==> i.op in ops)
    && (forall q :: q in s.requests && q.task == task ==> q.op in ops)
    && OneIntentEach(s, task) && CatalogThere(s, task) && Finished(s, task)
  }

  ghost predicate Untouched(s: Store, task: Task) {
    && (forall q :: q in s.requests ==> q.task != task)
    && (forall i :: i in s.intents ==> i.task != task)
    && (forall op :: (task, op) !in s.outputs)
  }

  lemma ThroughNothing(s: Store, task: Task, none: set<Operation>)
    requires Untouched(s, task) && forall op :: op !in none
    ensures Through(s, task, none)
  {
  }

  lemma ThroughFinished(s: Store, t: Store, r: Request, parent: Parent, output: Output, ops: set<Operation>)
    requires Through(s, r.task, ops) && r.op !in ops && Added(s, t, r, parent, output)
    requires r.op.GenerateOp? || GenerateOp in ops ==> r.task in t.bindings
    ensures Finished(t, r.task)
  {
    var i := Intent(r.task, r.op, r, parent);
    forall op | (r.task, op) in t.outputs ensures ReceiptIn(t, r.task, op).Some? {
      if op == r.op {
        assert Receipt(r.task, r.op, i, output, SchemaOf(r.op)) in t.receipts;
      } else {
        assert ReceiptIn(s, r.task, op).value in t.receipts;
      }
    }
  }

  lemma ThroughMore(s: Store, t: Store, r: Request, parent: Parent, output: Output, ops: set<Operation>, more: set<Operation>)
    requires Through(s, r.task, ops) && r.op !in ops && Added(s, t, r, parent, output)
    requires r.op.GenerateOp? || GenerateOp in ops ==> r.task in t.bindings
    requires r.op.DraftOp? && parent.OfCatalog? ==> parent.catalog in s.catalogs
    requires more == ops + {r.op}
    ensures Through(t, r.task, more)
  {
    ThroughFinished(s, t, r, parent, output, ops);
    assert forall i :: i in s.intents && i.task == r.task ==> i.op != r.op;
  }

  lemma ThroughFiled(w: World, s: Store, task: Task, ops: set<Operation>)
    requires Linked(w, s) && Through(s, task, ops) && DraftOp in ops
    ensures DraftFiled(s, task)
  {
    OnlyIntent(w, s, task, DraftOp);
    var i := IntentOf(s, task, DraftOp);
    assert Matching(s, task, DraftOp) == {i} && i in Matching(s, task, DraftOp);
    var q := ReceiptIn(s, task, DraftOp).value;
    assert ReceiptLinked(s, q) && q.intent in Matching(s, task, DraftOp);
    forall j | j in s.intents && j.task == task && j.op == DraftOp ensures j == i { assert j in Matching(s, task, DraftOp); }
  }

  /** Recovery then finds everything in place, and reports it. */
  lemma ThroughRecovers(w: World, s: Store, task: Task, ops: set<Operation>)
    requires Linked(w, s) && Through(s, task, ops)
    ensures RecoverScript(w, s, task).pubs == [] && RecoverScript(w, s, task).answer.Recovered?
    ensures Reports(s, task, RecoverScript(w, s, task).answer.state)
  {
    assert !Dangling(s, task);
    ReachableHealthy(w, s, task);
    FinishedIsComplete(w, s, task);
    RecoverTwice(w, s, task);
    RecoverReports(w, s, task);
  }

  /** The call, carried to its end, answers this and leaves that store. */
  ghost predicate Gives(w: World, s: Store, c: Call, a: Answer, t: Store) {
    ScriptOf(w, s, c).answer == a && t == PutAll(s, ScriptOf(w, s, c).pubs)
  }

  lemma GivesLinked(w: World, s: Store, c: Call, a: Answer, t: Store)
    requires Steady(w) && Linked(w, s) && Gives(w, s, c, a, t)
    ensures Linked(w, t)
  {
    AfterIs(w, s, c, |ScriptOf(w, s, c).pubs|);
    AfterKeeps(w, s, c, |ScriptOf(w, s, c).pubs|);
  }

  lemma DraftGives(w: World, s: Store, task: Task, p: Payload, key: Key, d: Draft) returns (t: Store)
    requires Steady(w) && Linked(w, s) && p.ForDraft? && NewKey(s, task, DraftOp, key) && (task, DraftOp) !in s.outputs
    requires CatalogOk(w, p) && |KnownTasks(s)| < MAX_TASKS && w.readmeOk(p) && w.draftOf(p) == Some(d)
    ensures Gives(w, s, DraftCall(task, p, key), GaveDraft(d), t) && Linked(w, t)
    ensures Added(s, t, Request(task, DraftOp, key, p), OfCatalog(p.catalog), DraftOut(d)) && t.bindings == s.bindings
  {
    DraftExactly(w, s, task, p, key, d);
    t := PutAll(s, DraftScript(w, s, task, p, key).pubs);
    GivesLinked(w, s, DraftCall(task, p, key), GaveDraft(d), t);
  }

  lemma GenerateGives(w: World, s: Store, task: Task, d: Draft, key: Key, x: ResultDoc) returns (t: Store)
    requires Steady(w) && Linked(w, s) && NewKey(s, task, GenerateOp, key) && DraftFiled(s, task)
    requires (task, DraftOp) in s.outputs && s.outputs[(task, DraftOp)] == DraftOut(d)
    requires w.resultOf(d) == Some(x) && (task, GenerateOp) !in s.outputs
    ensures Gives(w, s, GenerateCall(task, d, key), GaveResult(x), t) && Linked(w, t)
    ensures Added(s, t, Request(task, GenerateOp, key, ForGenerate(d)), OfDraft(d), ResultOut(x)) && task in t.bindings
  {
    GenerateExactly(w, s, task, d, key, x);
    t := PutAll(s, GenerateScript(w, s, task, d, key).pubs);
    GivesLinked(w, s, GenerateCall(task, d, key), GaveResult(x), t);
  }

  lemma ExportGives(w: World, s: Store, task: Task, pdf: bool, op: Operation, key: Key, x: ResultDoc, bytes: nat) returns (t: Store)
    requires Steady(w) && Linked(w, s) && op == (if pdf then PdfOp else MarkdownOp) && NewKey(s, task, op, key)
    requires (task, GenerateOp) in s.outputs && s.outputs[(task, GenerateOp)] == ResultOut(x)
    requires w.exportOf(x, op) == Some(bytes) && (task, op) !in s.outputs
    ensures Gives(w, s, ExportCall(task, pdf, key), GaveExport(bytes), t) && Linked(w, t)
    ensures Added(s, t, Request(task, op, key, ForExport(x)), OfResult(x), ExportOut(bytes)) && t.bindings == s.bindings
  {
    ExportExactly(w, s, task, op, key, bytes);
    t := PutAll(s, ExportScript(w, s, task, op, key).pubs);
    GivesLinked(w, s, ExportCall(task, pdf, key), GaveExport(bytes), t);
  }

  lemma ThroughNew(s: Store, task: Task, ops: set<Operation>, op: Operation, key: Key)
    requires Through(s, task, ops) && op !in ops
    ensures NewKey(s, task, op, key) && (task, op) !in s.outputs
  {
  }

  lemma DraftThrough(w: World, s: Store, task: Task, p: Payload, key: Key, d: Draft, ops: set<Operation>, more: set<Operation>)
      returns (t: Store)
    requires Steady(w) && Linked(w, s) && p.ForDraft? && p.catalog in s.catalogs
    requires Through(s, task, ops) && DraftOp !in ops && GenerateOp !in ops && more == ops + {DraftOp}
    requires CatalogOk(w, p) && |KnownTasks(s)| < MAX_TASKS && w.readmeOk(p) && w.draftOf(p) == Some(d)
    ensures Gives(w, s, DraftCall(task, p, key), GaveDraft(d), t) && Linked(w, t) && Through(t, task, more)
    ensures t.outputs == s.outputs[(task, DraftOp) := DraftOut(d)]
  {
    ThroughNew(s, task, ops, DraftOp, key);
    t := DraftGives(w, s, task, p, key, d);
    ThroughMore(s, t, Request(task, DraftOp, key, p), OfCatalog(p.catalog), DraftOut(d), ops, more);
  }

  lemma GenerateThrough(w: World, s: Store, task: Task, d: Draft, key: Key, x: ResultDoc, ops: set<Operation>, more: set<Operation>)
      returns (t: Store)
    requires Steady(w) && Linked(w, s) && Through(s, task, ops) && DraftOp in ops && GenerateOp !in ops && more == ops + {GenerateOp}
    requires s.outputs[(task, DraftOp)] == DraftOut(d) && w.resultOf(d) == Some(x)
    ensures Gives(w, s, GenerateCall(task, d, key), GaveResult(x), t) && Linked(w, t) && Through(t, task, more)
    ensures t.outputs == s.outputs[(task, GenerateOp) := ResultOut(x)]
  {
    ThroughNew(s, task, ops, GenerateOp, key);
    ThroughFiled(w, s, task, ops);
    t := GenerateGives(w, s, task, d, key, x);
    ThroughMore(s, t, Request(task, GenerateOp, key, ForGenerate(d)), OfDraft(d), ResultOut(x), ops, more);
  }

  lemma ExportThrough(w: World, s: Store, task: Task, pdf: bool, op: Operation, key: Key, x: ResultDoc, bytes: nat, ops: set<Operation>,
                      more: set<Operation>) returns (t: Store)
    requires Steady(w) && Linked(w, s) && op == (if pdf then PdfOp else MarkdownOp)
    requires Through(s, task, ops) && GenerateOp in ops && op !in ops && more == ops + {op}
    requires s.outputs[(task, GenerateOp)] == ResultOut(x) && w.exportOf(x, op) == Some(bytes)
    ensures Gives(w, s, ExportCall(task, pdf, key), GaveExport(bytes), t) && Linked(w, t) && Through(t, task, more)
    ensures t.outputs == s.outputs[(task, op) := ExportOut(bytes)]
  {
    ThroughNew(s, task, ops, op, key);
    t := ExportGives(w, s, task, pdf, op, key, x, bytes);
    ThroughMore(s, t, Request(task, op, key, ForExport(x)), OfResult(x), ExportOut(bytes), ops, more);
  }

  lemma DraftAndResult(w: World, s: Store, task: Task, p: Payload, first: Key, second: Key, d: Draft, x: ResultDoc,
                       none: set<Operation>, one: set<Operation>, two: set<Operation>) returns (s1: Store, s2: Store)
    requires Steady(w) && Linked(w, s) && p.ForDraft? && p.catalog in s.catalogs && Through(s, task, none)
    requires DraftOp !in none && GenerateOp !in none && one == none + {DraftOp} && two == one + {GenerateOp}
    requires CatalogOk(w, p) && |KnownTasks(s)| < MAX_TASKS && w.readmeOk(p)
    requires w.draftOf(p) == Some(d) && w.resultOf(d) == Some(x)
    ensures Gives(w, s, DraftCall(task, p, first), GaveDraft(d), s1)
    ensures Gives(w, s1, GenerateCall(task, d, second), GaveResult(x), s2)
    ensures s2.outputs == s.outputs[(task, DraftOp) := DraftOut(d)][(task, GenerateOp) := ResultOut(x)]
    ensures Linked(w, s2) && Through(s2, task, two)
  {
    s1 := DraftThrough(w, s, task, p, first, d, none, one);
    s2 := GenerateThrough(w, s1, task, d, second, x, one, two);
  }

  lemma BothExports(w: World, s: Store, task: Task, first: Key, second: Key, x: ResultDoc, markdown: nat, pdf: nat,
                    two: set<Operation>, three: set<Operation>, four: set<Operation>) returns (s3: Store, t: Store)
    requires Steady(w) && Linked(w, s) && Through(s, task, two) && GenerateOp in two
    requires MarkdownOp !in two && PdfOp !in two && three == two + {MarkdownOp} && four == three + {PdfOp}
    requires s.outputs[(task, GenerateOp)] == ResultOut(x)
    requires w.exportOf(x, MarkdownOp) == Some(markdown) && w.exportOf(x, PdfOp) == Some(pdf)
    ensures Gives(w, s, ExportCall(task, false, first), GaveExport(markdown), s3)
    ensures Gives(w, s3, ExportCall(task, true, second), GaveExport(pdf), t)
    ensures t.outputs == s.outputs[(task, MarkdownOp) := ExportOut(markdown)][(task, PdfOp) := ExportOut(pdf)]
    ensures Linked(w, t) && Through(t, task, four)
  {
    s3 := ExportThrough(w, s, task, false, MarkdownOp, first, x, markdown, two, three);
    t := ExportThrough(w, s3, task, true, PdfOp, second, x, pdf, three, four);
  }

  lemma AllFour(w: World, s: Store, task: Task, p: Payload, k1: Key, k2: Key, k3: Key, k4: Key, d: Draft, x: ResultDoc, markdown: nat, pdf: nat,
                none: set<Operation>, one: set<Operation>, two: set<Operation>, three: set<Operation>, four: set<Operation>)
      returns (s1: Store, s2: Store, s3: Store, t: Store)
    requires Steady(w) && Linked(w, s) && Through(s, task, none)
    requires p.ForDraft? && p.catalog in s.catalogs && CatalogOk(w, p) && |KnownTasks(s)| < MAX_TASKS && w.readmeOk(p)
    requires w.draftOf(p) == Some(d) && w.resultOf(d) == Some(x)
    requires w.exportOf(x, MarkdownOp) == Some(markdown) && w.exportOf(x, PdfOp) == Some(pdf)
    requires DraftOp !in none && GenerateOp !in none && MarkdownOp !in none && PdfOp !in none && one == none + {DraftOp} && two == one + {GenerateOp}
    requires three == two + {MarkdownOp} && four == three + {PdfOp}
    ensures Gives(w, s, DraftCall(task, p, k1), GaveDraft(d), s1)
    ensures Gives(w, s1, GenerateCall(task, d, k2), GaveResult(x), s2)
    ensures Gives(w, s2, ExportCall(task, false, k3), GaveExport(markdown), s3)
    ensures Gives(w, s3, ExportCall(task, true, k4), GaveExport(pdf), t)
    ensures t.outputs == s.outputs[(task, DraftOp) := DraftOut(d)][(task, GenerateOp) := ResultOut(x)]
                                  [(task, MarkdownOp) := ExportOut(markdown)][(task, PdfOp) := ExportOut(pdf)]
    ensures Linked(w, t) && Through(t, task, four)
  {
    s1, s2 := DraftAndResult(w, s, task, p, k1, k2, d, x, none, one, two);
    s3, t := BothExports(w, s2, task, k3, k4, x, markdown, pdf, two, three, four);
  }

  /** From any linked store, a task that nothing is known of goes through all four operations when
      the builders deliver: every call answers with what was built, and recovery afterwards writes
      nothing and reports an exported task. */
  lemma CarriedThrough(w: World, s: Store, task: Task, p: Payload, keys: seq<Key>, d: Draft, x: ResultDoc, markdown: nat, pdf: nat)
      returns (s1: Store, s2: Store, s3: Store, t: Store)
    requires Steady(w) && Linked(w, s) && Untouched(s, task) && |keys| == 4
    requires p.ForDraft? && p.catalog in s.catalogs && CatalogOk(w, p) && |KnownTasks(s)| < MAX_TASKS && w.readmeOk(p)
    requires w.draftOf(p) == Some(d) && w.resultOf(d) == Some(x)
    requires w.exportOf(x, MarkdownOp) == Some(markdown) && w.exportOf(x, PdfOp) == Some(pdf)
    ensures Gives(w, s, DraftCall(task, p, keys[0]), GaveDraft(d), s1)
    ensures Gives(w, s1, GenerateCall(task, d, keys[1]), GaveResult(x), s2)
    ensures Gives(w, s2, ExportCall(task, false, keys[2]), GaveExport(markdown), s3)
    ensures Gives(w, s3, ExportCall(task, true, keys[3]), GaveExport(pdf), t)
    ensures t.outputs == s.outputs[(task, DraftOp) := DraftOut(d)][(task, GenerateOp) := ResultOut(x)]
                                  [(task, MarkdownOp) := ExportOut(markdown)][(task, PdfOp) := ExportOut(pdf)]
    ensures RecoverScript(w, t, task).pubs == [] && RecoverScript(w, t, task).answer.Recovered?
    ensures Reports(t, task, RecoverScript(w, t, task).answer.state)
  {
    ThroughNothing(s, task, {});
    var one := {} + {DraftOp};
    var two := one + {GenerateOp};
    var three := two + {MarkdownOp};
    s1, s2, s3, t := AllFour(w, s, task, p, keys[0], keys[1], keys[2], keys[3], d, x, markdown, pdf, {}, one, two, three, three + {PdfOp});
    ThroughRecovers(w, t, task, three + {PdfOp});
  }
}
