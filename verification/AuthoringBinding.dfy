/** A task can still get its binding exactly when its records are bindable. */
module AuthoringBinding {
  import opened Wrappers
  import opened AuthoringStore
  import opened AuthoringRecovery
  import opened AuthoringCompletion
  import opened AuthoringRuns
  import opened AuthoringResults
  import opened AuthoringReplay
  import opened AuthoringBlocking

  // ---------------------------------------------------------------- whole calls

  /** The store after a call that is not cut off. */
  ghost function Done(w: World, s: Store, c: Call): Store {
    PutAll(s, ScriptOf(w, s, c).pubs)
  }

  lemma {:induction false} PlayConcat(w: World, s: Store, a: seq<(Call, nat)>, b: seq<(Call, nat)>)
    ensures Play(w, s, a + b) == Play(w, Play(w, s, a), b)
  {
    if b == [] {
      assert a + b == a;
    } else {
      var n: nat := |b| - 1;
      PlayConcat(w, s, a, b[..n]);
      assert (a + b)[..|a + b| - 1] == a + b[..n];
    }
  }

  /** One whole call, and then the rest. */
  lemma CallThen(w: World, s: Store, c: Call, rest: seq<(Call, nat)>) returns (calls: seq<(Call, nat)>)
    ensures Play(w, s, calls) == Play(w, Done(w, s, c), rest)
  {
    var one := [(c, |ScriptOf(w, s, c).pubs|)];
    assert one[..0] == [] && Play(w, s, []) == s;
    AfterIs(w, s, c, |ScriptOf(w, s, c).pubs|);
    PlayConcat(w, s, one, rest);
    calls := one + rest;
  }

  lemma DoneLinked(w: World, s: Store, c: Call)
    requires Steady(w) && Linked(w, s)
    ensures Linked(w, Done(w, s, c)) && Within(s, Done(w, s, c))
  {
    AfterKeeps(w, s, c, |ScriptOf(w, s, c).pubs|);
    AfterIs(w, s, c, |ScriptOf(w, s, c).pubs|);
  }

  lemma {:induction false} LongerThanAll(requests: set<Request>) returns (n: nat)
    ensures forall r :: r in requests ==> |r.key| < n
    decreases |requests|
  {
    n := 0;
    if requests != {} {
      var r :| r in requests;
      n := LongerThanAll(requests - {r});
      n := if n <= |r.key| then |r.key| + 1 else n;
    }
  }

  /** Some key has never been used. */
  lemma UnusedKey(s: Store) returns (key: Key)
    ensures forall r: Request :: r.key == key ==> SameKey(s, r) == {}
  {
    var n := LongerThanAll(s.requests);
    key := seq(n, _ => 'k');
    forall r: Request | r.key == key ensures SameKey(s, r) == {} {
      forall q | q in s.requests ensures q !in SameKey(s, r) {}
    }
  }

  /** The catalog of the task's draft intent has been published. */
  ghost predicate Cataloged(s: Store, task: Task) {
    forall i :: i in Matching(s, task, DraftOp) && i.parent.OfCatalog? ==> i.parent.catalog in s.catalogs
  }

  /** The draft's part of a binding is in order. */
  lemma ChainThere(w: World, s: Store, task: Task)
    requires Linked(w, s) && DraftIn(s, task).Some? && One(s, task, DraftOp) && Filed(s, task, DraftOp) && Cataloged(s, task)
    ensures DraftChain(s, task).Some?
  {
    ReceiptThereFor(w, s, task, DraftOp);
    var i := TheIntent(s, task, DraftOp).value;
    assert i in Matching(s, task, DraftOp);
    assert IntentLinked(w, s, i);
  }

  /** A filed receipt of a slot with one intent is that intent's only receipt, and its chain is in order. */
  lemma ReceiptThereFor(w: World, s: Store, task: Task, op: Operation)
    requires Linked(w, s) && One(s, task, op) && Filed(s, task, op)
    ensures TheIntent(s, task, op).Some? && TheReceipt(s, TheIntent(s, task, op).value).Some?
    ensures (task, op) in s.outputs
    ensures ChainOk(s, TheReceipt(s, TheIntent(s, task, op).value).value, task, op, s.outputs[(task, op)])
  {
    OneIs(s, task, op);
    var i := TheIntent(s, task, op).value;
    assert i in Matching(s, task, op);
    var q :| q in s.receipts && q.task == task && q.op == op;
    assert ReceiptLinked(s, q) && IntentLinked(w, s, i);
    assert q.intent in Matching(s, task, op);
    forall r | r in ReceiptsOf(s, i) ensures r == q { assert ReceiptLinked(s, r); }
    assert q in ReceiptsOf(s, i);
    assert ReceiptsOf(s, i) == {q};
  }

  /** With both chains in order the repair step publishes the binding. */
  lemma RepairBinds(w: World, g: Progress, task: Task)
    requires Linked(w, g.store) && task !in g.store.bindings && ResultIn(g.store, task).Some?
    requires One(g.store, task, DraftOp) && Filed(g.store, task, DraftOp) && Cataloged(g.store, task)
    requires One(g.store, task, GenerateOp) && Filed(g.store, task, GenerateOp)
    ensures task in RepairBinding(w, g, task).store.bindings
  {
    var s := g.store;
    OutputFacts(w, s, task);
    ChainThere(w, s, task);
    ReceiptThereFor(w, s, task, DraftOp);
    ReceiptThereFor(w, s, task, GenerateOp);
    var i, j := TheIntent(s, task, DraftOp).value, TheIntent(s, task, GenerateOp).value;
    var q, r := TheReceipt(s, i).value, TheReceipt(s, j).value;
    assert i in Matching(s, task, DraftOp) && j in Matching(s, task, GenerateOp);
    assert q in ReceiptsOf(s, i) && r in ReceiptsOf(s, j);
    assert IntentLinked(w, s, i) && IntentLinked(w, s, j);
    assert OutputLinked(w, s, task, DraftOp) && OutputLinked(w, s, task, GenerateOp);
  }

  // ---------------------------------------------------------------- turns that do not stop

  lemma RestorePasses(w: World, g: Progress, task: Task, op: Operation)
    requires Linked(w, g.store) && !g.stopped && (task, op) in g.store.outputs
    requires Filed(g.store, task, op) || One(g.store, task, op)
    requires op.GenerateOp? ==> g.draft == DraftIn(g.store, task)
    ensures !Restore(w, g, task, op).stopped
  {
    if ReceiptIn(g.store, task, op).None? {
      OneIs(g.store, task, op);
      OutputFacts(w, g.store, task);
      assert OutputLinked(w, g.store, task, op);
      if op.MarkdownOp? || op.PdfOp? { assert OutputLinked(w, g.store, task, GenerateOp); }
      forall q | q in g.store.receipts ensures q.intent != TheIntent(g.store, task, op).value {
        assert ReceiptLinked(g.store, q);
        assert TheIntent(g.store, task, op).value in Matching(g.store, task, op);
      }
    }
  }

  lemma InspectPasses(w: World, g: Progress, task: Task, op: Operation)
    requires Linked(w, g.store) && !g.stopped && (task, op) in g.store.outputs && Filed(g.store, task, op)
    requires op.GenerateOp? ==> g.draft == DraftIn(g.store, task)
    ensures var h := Inspect(g, task, op);
            && !h.stopped && (op.DraftOp? ==> h.draft == DraftIn(g.store, task)) && (!op.DraftOp? ==> h.draft == g.draft)
            && (op.GenerateOp? ==> h.result == ResultIn(g.store, task)) && (!op.GenerateOp? ==> h.result == g.result)
  {
    var q := ReceiptIn(g.store, task, op).value;
    assert ReceiptLinked(g.store, q) && IntentLinked(w, g.store, q.intent) && OutputLinked(w, g.store, task, op);
  }

  /** Where recovery of a task stands when no turn has stopped it. */
  ghost predicate Going(w: World, s: Store, g: Progress, task: Task) {
    !g.stopped && Fitting(w, s, g) && Restoring(s, g, task)
  }

  lemma TurnGoes(w: World, s: Store, g: Progress, task: Task, op: Operation)
    requires Linked(w, s) && Going(w, s, g, task)
    requires (task, op) in s.outputs ==> Filed(s, task, op) || One(s, task, op)
    requires op.GenerateOp? && (task, op) in s.outputs ==> g.draft == DraftIn(s, task)
    ensures var h := RecoverOutput(w, g, task, op);
            && Going(w, s, h, task) && g.store.receipts <= h.store.receipts
            && ((task, op) in s.outputs ==> Filed(h.store, task, op))
            && h.draft == (if op.DraftOp? && (task, op) in s.outputs then DraftIn(s, task) else g.draft)
            && h.result == (if op.GenerateOp? && (task, op) in s.outputs then ResultIn(s, task) else g.result)
  {
    TurnFits(w, s, g, task, op);
    TurnRestoring(w, s, g, task, op);
    if (task, op) in s.outputs {
      StillPasses(s, g, task, op);
      RestorePasses(w, g, task, op);
      RestoreRestoring(w, s, g, task, op);
      RestoreLinked(w, s, g, task, op);
      InspectPasses(w, Restore(w, g, task, op), task, op);
    }
  }

  lemma StillPasses(s: Store, g: Progress, task: Task, op: Operation)
    requires Restoring(s, g, task) && (Filed(s, task, op) || One(s, task, op))
    ensures Filed(g.store, task, op) || One(g.store, task, op)
  {
    FilesAll(s, g.pubs, |g.pubs|, task);
    assert g.pubs[..|g.pubs|] == g.pubs;
    assert Matching(s, task, op) == Matching(g.store, task, op);
  }

  lemma RestoreLinked(w: World, s: Store, g: Progress, task: Task, op: Operation)
    requires Fitting(w, s, g) && (task, op) in g.store.outputs
    ensures Linked(w, Restore(w, g, task, op).store)
    ensures Restore(w, g, task, op).draft == g.draft && Restore(w, g, task, op).result == g.result
  {
    RestoreFits(w, s, g, task, op);
  }

  // ---------------------------------------------------------------- the runs that bind

  /** A result whose chain and exports let recovery bind it, apart from exports still to be repeated. */
  ghost predicate Ready(w: World, s: Store, task: Task) {
    && Linked(w, s) && task !in s.bindings && ResultIn(s, task).Some? && Cataloged(s, task)
    && One(s, task, DraftOp) && One(s, task, GenerateOp) && Passes(w, s, task, MarkdownOp) && Passes(w, s, task, PdfOp)
  }

  /** An export was asked for and is not there. */
  ghost predicate Pending(s: Store, task: Task, op: Operation) {
    Matching(s, task, op) != {} && (task, op) !in s.outputs
  }

  lemma ReadyNotDangling(w: World, s: Store, task: Task)
    requires Ready(w, s, task) && !Pending(s, task, MarkdownOp) && !Pending(s, task, PdfOp)
    ensures !Dangling(s, task)
  {
    OutputFacts(w, s, task);
    forall i | i in s.intents && i.task == task ensures (task, i.op) in s.outputs { assert i in Matching(s, task, i.op); }
  }

  /** Recovery of a ready task goes through its four turns. */
  lemma TurnsGo(w: World, s: Store, task: Task)
    requires Ready(w, s, task) && !Pending(s, task, MarkdownOp) && !Pending(s, task, PdfOp)
    ensures var d := RecoverOutputs(w, s, task);
            && Going(w, s, d, task) && d.result.Some? && Filed(d.store, task, DraftOp) && Filed(d.store, task, GenerateOp)
  {
    OutputFacts(w, s, task);
    var a := RecoverOutput(w, Started(s), task, DraftOp);
    var b := RecoverOutput(w, a, task, GenerateOp);
    var c := RecoverOutput(w, b, task, MarkdownOp);
    TurnGoes(w, s, Started(s), task, DraftOp);
    TurnGoes(w, s, a, task, GenerateOp);
    TurnGoes(w, s, b, task, MarkdownOp);
    TurnGoes(w, s, c, task, PdfOp);
  }

  lemma BindingStepBinds(w: World, s: Store, d: Progress, task: Task)
    requires Ready(w, s, task) && Going(w, s, d, task) && d.result.Some?
    requires Filed(d.store, task, DraftOp) && Filed(d.store, task, GenerateOp)
    ensures task in RecoverBinding(w, d, task).store.bindings
  {
    FilesAll(s, d.pubs, |d.pubs|, task);
    assert d.pubs[..|d.pubs|] == d.pubs;
    SameLookups(s, d.store, task);
    RepairBinds(w, d, task);
  }

  lemma RecoverDone(w: World, s: Store, task: Task)
    requires !Dangling(s, task)
    ensures Done(w, s, RecoverCall(task, true)) == RecoverBinding(w, RecoverOutputs(w, s, task), task).store
  {
    RecoverStore(w, s, task);
  }

  lemma RecoverBinds(w: World, s: Store, task: Task)
    requires Ready(w, s, task) && !Pending(s, task, MarkdownOp) && !Pending(s, task, PdfOp)
    ensures task in Done(w, s, RecoverCall(task, true)).bindings
  {
    ReadyNotDangling(w, s, task);
    TurnsGo(w, s, task);
    BindingStepBinds(w, s, RecoverOutputs(w, s, task), task);
    RecoverDone(w, s, task);
  }

  lemma SameLookups(s: Store, t: Store, task: Task)
    requires SameBase(s, t)
    ensures forall op :: Matching(t, task, op) == Matching(s, task, op)
    ensures ResultIn(t, task) == ResultIn(s, task) && DraftIn(t, task) == DraftIn(s, task)
    ensures Cataloged(s, task) ==> Cataloged(t, task)
  {
    forall op ensures Matching(t, task, op) == Matching(s, task, op) {}
  }

  lemma RecoverLast(w: World, s: Store, task: Task) returns (calls: seq<(Call, nat)>)
    requires Ready(w, s, task) && !Pending(s, task, MarkdownOp) && !Pending(s, task, PdfOp)
    ensures task in Play(w, s, calls).bindings
  {
    RecoverBinds(w, s, task);
    calls := CallThen(w, s, RecoverCall(task, true), []);
  }

  lemma ExportWhole(w: World, s: Store, task: Task, op: Operation, d: ResultDoc, key: Key)
    requires (op.MarkdownOp? || op.PdfOp?) && ResultIn(s, task) == Some(d) && w.valid(d) && w.exportOf(d, op).Some? && (task, op) !in s.outputs
    requires SameKey(s, Request(task, op, key, ForExport(d))) == {}
    ensures Done(w, s, ExportCall(task, op.PdfOp?, key))
         == PutAll(s, Produce(Request(task, op, key, ForExport(d)), OfResult(d), ExportOut(w.exportOf(d, op).value)))
  {
  }

  /** A pending export that can be built is repeated under a new key. */
  lemma ExportAnew(w: World, s: Store, task: Task, op: Operation) returns (c: Call)
    requires Steady(w) && Ready(w, s, task) && (op.MarkdownOp? || op.PdfOp?) && Pending(s, task, op)
    ensures var t := Done(w, s, c);
            Ready(w, t, task) && !Pending(t, task, op) && forall o :: !Pending(s, task, o) ==> !Pending(t, task, o)
  {
    var key := UnusedKey(s);
    c := ExportCall(task, op.PdfOp?, key);
    var d := ResultIn(s, task).value;
    assert OutputLinked(w, s, task, GenerateOp);
    assert Passes(w, s, task, op);
    ExportWhole(w, s, task, op, d, key);
    DoneLinked(w, s, c);
    ExportReady(w, s, Done(w, s, c), Request(task, op, key, ForExport(d)), OfResult(d), ExportOut(w.exportOf(d, op).value));
  }

  lemma ExportReady(w: World, s: Store, t: Store, r: Request, parent: Parent, output: Output)
    requires Ready(w, s, r.task) && Linked(w, t) && Within(s, t) && (r.op.MarkdownOp? || r.op.PdfOp?)
    requires SameKey(s, r) == {} && t == PutAll(s, Produce(r, parent, output))
    ensures Ready(w, t, r.task) && !Pending(t, r.task, r.op)
    ensures forall o :: !Pending(s, r.task, o) ==> !Pending(t, r.task, o)
  {
    GrownIs(w, s, r, parent, output, 4);
    assert Produce(r, parent, output)[..4] == Produce(r, parent, output);
    ReadyGrew(w, s, t, r, Intent(r.task, r.op, r, parent), output);
  }

  lemma ReadyGrew(w: World, s: Store, t: Store, r: Request, i: Intent, output: Output)
    requires Ready(w, s, r.task) && Linked(w, t) && Within(s, t) && (r.op.MarkdownOp? || r.op.PdfOp?) && GrewBy(s, t, r, i, output, 4)
    ensures Ready(w, t, r.task) && !Pending(t, r.task, r.op)
    ensures forall o :: !Pending(s, r.task, o) ==> !Pending(t, r.task, o)
  {
    assert forall op :: op != r.op ==> Matching(t, r.task, op) == Matching(s, r.task, op) + {} == Matching(s, r.task, op);
    assert forall op :: op != r.op ==> ((r.task, op) in t.outputs <==> (r.task, op) in s.outputs);
    assert ResultIn(t, r.task) == ResultIn(s, r.task);
    assert Filed(t, r.task, r.op);
  }

  lemma PdfThenRecover(w: World, s: Store, task: Task) returns (calls: seq<(Call, nat)>)
    requires Steady(w) && Ready(w, s, task) && !Pending(s, task, MarkdownOp)
    ensures task in Play(w, s, calls).bindings
  {
    if Pending(s, task, PdfOp) {
      var c := ExportAnew(w, s, task, PdfOp);
      var rest := RecoverLast(w, Done(w, s, c), task);
      calls := CallThen(w, s, c, rest);
    } else {
      calls := RecoverLast(w, s, task);
    }
  }

  lemma ResultBinds(w: World, s: Store, task: Task) returns (calls: seq<(Call, nat)>)
    requires Steady(w) && Ready(w, s, task)
    ensures task in Play(w, s, calls).bindings
  {
    if Pending(s, task, MarkdownOp) {
      var c := ExportAnew(w, s, task, MarkdownOp);
      var rest := PdfThenRecover(w, Done(w, s, c), task);
      calls := CallThen(w, s, c, rest);
    } else {
      calls := PdfThenRecover(w, s, task);
    }
  }

  /** A draft that can become a bound result. */
  ghost predicate Drafted(w: World, s: Store, task: Task) {
    && Linked(w, s) && task !in s.bindings && ResultIn(s, task).None? && DraftIn(s, task).Some? && Cataloged(s, task)
    && One(s, task, DraftOp) && (Filed(s, task, DraftOp) || Matching(s, task, GenerateOp) == {})
    && w.resultOf(DraftIn(s, task).value).Some?
  }

  /** After the result is published the draft's chain is still in order. */
  lemma ChainAfter(w: World, s: Store, r: Request, d: Draft)
    requires Steady(w) && Drafted(w, s, r.task) && Filed(s, r.task, DraftOp) && DraftIn(s, r.task) == Some(d)
    requires r.op == GenerateOp && r.payload == ForGenerate(d) && SameKey(s, r) == {}
    ensures DraftChain(PutAll(s, Produce(r, OfDraft(d), ResultOut(w.resultOf(d).value))), r.task).Some?
  {
    var output := ResultOut(w.resultOf(d).value);
    var made := Produce(r, OfDraft(d), output);
    OutputFacts(w, s, r.task);
    GenerateProduces(w, s, r, d);
    AllFitKeeps(w, s, made, 4);
    assert made[..4] == made;
    GrownIs(w, s, r, OfDraft(d), output, 4);
    ChainKept(w, s, PutAll(s, made), r, Intent(r.task, GenerateOp, r, OfDraft(d)), output);
  }

  lemma ChainKept(w: World, s: Store, t: Store, r: Request, i: Intent, output: Output)
    requires Drafted(w, s, r.task) && Filed(s, r.task, DraftOp) && Linked(w, t) && Within(s, t)
    requires r.op == GenerateOp && GrewBy(s, t, r, i, output, 4)
    ensures DraftChain(t, r.task).Some?
  {
    SameDraftSlot(s, t, r, i, output, 4);
    assert Matching(t, r.task, DraftOp) == Matching(s, r.task, DraftOp) + {};
    ChainThere(w, t, r.task);
  }

  /** With the draft's receipt filed, generating publishes the binding too. */
  lemma GenerateBinds(w: World, s: Store, task: Task) returns (calls: seq<(Call, nat)>)
    requires Steady(w) && Drafted(w, s, task) && Filed(s, task, DraftOp)
    ensures task in Play(w, s, calls).bindings
  {
    var d := DraftIn(s, task).value;
    var key := UnusedKey(s);
    ChainAfter(w, s, Request(task, GenerateOp, key, ForGenerate(d)), d);
    OutputFacts(w, s, task);
    GenerateWhole(w, s, task, d, key);
    calls := CallThen(w, s, GenerateCall(task, d, key), []);
  }

  lemma GenerateWhole(w: World, s: Store, task: Task, d: Draft, key: Key)
    requires (task, DraftOp) in s.outputs && s.outputs[(task, DraftOp)] == DraftOut(d) && (task, GenerateOp) !in s.outputs
    requires w.resultOf(d).Some? && task !in s.bindings && SameKey(s, Request(task, GenerateOp, key, ForGenerate(d))) == {}
    requires DraftChain(PutAll(s, Produce(Request(task, GenerateOp, key, ForGenerate(d)), OfDraft(d), ResultOut(w.resultOf(d).value))), task).Some?
    ensures task in PutAll(s, GenerateScript(w, s, task, d, key).pubs).bindings
  {
    var pubs := GenerateScript(w, s, task, d, key).pubs;
    var r := Request(task, GenerateOp, key, ForGenerate(d));
    assert |pubs| == 5 && pubs[4].PutBinding?;
    var chain := DraftChain(PutAll(s, Produce(r, OfDraft(d), ResultOut(w.resultOf(d).value))), task).value;
    assert pubs[4].binding.task == chain.task;
    ChainFacts(PutAll(s, Produce(r, OfDraft(d), ResultOut(w.resultOf(d).value))), task);
    PutOne(s, pubs, 4);
    assert pubs[..5] == pubs;
  }

  /** Before any request for a result, the draft is the task's only output and lacks no intent. */
  lemma DraftAlone(w: World, s: Store, task: Task)
    requires Drafted(w, s, task) && Matching(s, task, GenerateOp) == {}
    ensures !Dangling(s, task) && forall op :: op != DraftOp ==> (task, op) !in s.outputs
  {
    OutputFacts(w, s, task);
    forall i | i in s.intents && i.task == task ensures (task, i.op) in s.outputs {
      assert IntentLinked(w, s, i) && i in Matching(s, task, i.op);
    }
  }

  lemma DraftTurnOnly(w: World, s: Store, task: Task)
    requires forall op :: op != DraftOp ==> (task, op) !in s.outputs
    requires RecoverOutput(w, Started(s), task, DraftOp).store.outputs == s.outputs
    requires RecoverOutput(w, Started(s), task, DraftOp).result.None?
    ensures RecoverBinding(w, RecoverOutputs(w, s, task), task) == RecoverOutput(w, Started(s), task, DraftOp)
  {
    var a := RecoverOutput(w, Started(s), task, DraftOp);
    TurnShape(w, a, task, GenerateOp);
    TurnShape(w, a, task, MarkdownOp);
    TurnShape(w, a, task, PdfOp);
  }

  /** Before any result, recovery files the draft's receipt. */
  lemma RecoverFilesDraft(w: World, s: Store, task: Task)
    requires Drafted(w, s, task) && Matching(s, task, GenerateOp) == {}
    ensures var t := Done(w, s, RecoverCall(task, true)); Restored(s, t, task) && Filed(t, task, DraftOp)
  {
    DraftAlone(w, s, task);
    OutputFacts(w, s, task);
    TurnGoes(w, s, Started(s), task, DraftOp);
    DraftTurnOnly(w, s, task);
    var a := RecoverOutput(w, Started(s), task, DraftOp);
    FilesAll(s, a.pubs, |a.pubs|, task);
    assert a.pubs[..|a.pubs|] == a.pubs;
  }

  lemma DraftBinds(w: World, s: Store, task: Task) returns (calls: seq<(Call, nat)>)
    requires Steady(w) && Drafted(w, s, task)
    ensures task in Play(w, s, calls).bindings
  {
    if Filed(s, task, DraftOp) {
      calls := GenerateBinds(w, s, task);
    } else {
      var c := RecoverCall(task, true);
      RecoverFilesDraft(w, s, task);
      DoneLinked(w, s, c);
      SameLookups(s, Done(w, s, c), task);
      var rest := GenerateBinds(w, Done(w, s, c), task);
      calls := CallThen(w, s, c, rest);
    }
  }

  // ---------------------------------------------------------------- the catalog first

  lemma CatalogDone(w: World, s: Store, catalog: Catalog)
    ensures Done(w, s, CatalogCall(catalog)) == s.(catalogs := s.catalogs + {catalog})
  {
    if catalog in s.catalogs {
      assert s.catalogs + {catalog} == s.catalogs;
    } else {
      PutOne(s, [PutCatalog(catalog)], 0);
      assert [PutCatalog(catalog)][..0] == [] && [PutCatalog(catalog)][..1] == [PutCatalog(catalog)];
    }
  }

  lemma CatalogSame(w: World, s: Store, catalog: Catalog, task: Task)
    requires Bindable(w, s, task)
    ensures Bindable(w, s.(catalogs := s.catalogs + {catalog}), task)
  {
    var t := s.(catalogs := s.catalogs + {catalog});
    forall op ensures Matching(t, task, op) == Matching(s, task, op) {}
    assert KnownTasks(s) == KnownTasks(t);
    SameTaskBindable(w, t, s, task);
  }

  /** Publishing the catalog of the draft's intent leaves a bindable task bindable. */
  lemma CatalogFirst(w: World, s: Store, task: Task) returns (c: Call)
    requires Steady(w) && Linked(w, s) && task !in s.bindings && Bindable(w, s, task) && One(s, task, DraftOp)
    ensures var t := Done(w, s, c);
            Linked(w, t) && task !in t.bindings && Bindable(w, t, task) && One(t, task, DraftOp) && Cataloged(t, task)
  {
    var i :| Matching(s, task, DraftOp) == {i};
    assert i in Matching(s, task, DraftOp);
    assert IntentLinked(w, s, i);
    c := CatalogCall(i.parent.catalog);
    DoneLinked(w, s, c);
    CatalogDone(w, s, i.parent.catalog);
    CatalogSame(w, s, i.parent.catalog, task);
    assert Matching(Done(w, s, c), task, DraftOp) == {i};
  }

  /** A bindable task with one draft intent. */
  lemma CatalogedBinds(w: World, s: Store, task: Task) returns (calls: seq<(Call, nat)>)
    requires Steady(w) && Linked(w, s) && task !in s.bindings && Bindable(w, s, task) && One(s, task, DraftOp)
    ensures task in Play(w, s, calls).bindings
  {
    var c := CatalogFirst(w, s, task);
    var t := Done(w, s, c);
    OutputFacts(w, t, task);
    var rest: seq<(Call, nat)>;
    if ResultIn(t, task).Some? {
      rest := ResultBinds(w, t, task);
    } else {
      rest := DraftBinds(w, t, task);
    }
    calls := CallThen(w, s, c, rest);
  }

  /** A task without a draft is begun. */
  lemma StartBinds(w: World, s: Store, task: Task) returns (calls: seq<(Call, nat)>)
    requires Steady(w) && Linked(w, s) && task !in s.bindings && Bindable(w, s, task) && !One(s, task, DraftOp)
    ensures task in Play(w, s, calls).bindings
  {
    var p :| Buildable(w, p);
    var key := UnusedKey(s);
    var c := DraftCall(task, p, key);
    DraftBegun(w, s, task, p, key);
    DoneLinked(w, s, c);
    var rest := CatalogedBinds(w, Done(w, s, c), task);
    calls := CallThen(w, s, c, rest);
  }

  lemma DraftWhole(w: World, s: Store, task: Task, p: Payload, key: Key)
    requires Buildable(w, p) && SameKey(s, Request(task, DraftOp, key, p)) == {} && (task, DraftOp) !in s.outputs
    requires task in KnownTasks(s) || |KnownTasks(s)| < MAX_TASKS
    ensures DraftScript(w, s, task, p, key).pubs
         == Produce(Request(task, DraftOp, key, p), OfCatalog(p.catalog), DraftOut(w.draftOf(p).value))
  {
  }

  lemma DraftGrewBindable(w: World, s: Store, t: Store, r: Request, i: Intent, output: Output)
    requires Linked(w, s) && r.op == DraftOp && GrewBy(s, t, r, i, output, 4) && Matching(s, r.task, DraftOp) == {}
    requires output.DraftOut? && w.resultOf(output.draft).Some?
    ensures Bindable(w, t, r.task) && One(t, r.task, DraftOp)
  {
    OutputFacts(w, s, r.task);
    assert Matching(t, r.task, DraftOp) == {i};
    assert ResultIn(t, r.task) == ResultIn(s, r.task) == None && DraftIn(t, r.task) == Some(output.draft);
    assert Filed(t, r.task, DraftOp);
  }

  lemma DraftPut(w: World, s: Store, r: Request, parent: Parent, output: Output)
    requires Linked(w, s) && r.op == DraftOp && SameKey(s, r) == {} && Matching(s, r.task, DraftOp) == {}
    requires output.DraftOut? && w.resultOf(output.draft).Some?
    ensures var t := PutAll(s, Produce(r, parent, output));
            t.bindings == s.bindings && Bindable(w, t, r.task) && One(t, r.task, DraftOp)
  {
    GrownIs(w, s, r, parent, output, 4);
    assert Produce(r, parent, output)[..4] == Produce(r, parent, output);
    DraftGrewBindable(w, s, PutAll(s, Produce(r, parent, output)), r, Intent(r.task, DraftOp, r, parent), output);
  }

  lemma DraftBegun(w: World, s: Store, task: Task, p: Payload, key: Key)
    requires Linked(w, s) && task !in s.bindings && Matching(s, task, DraftOp) == {} && Buildable(w, p)
    requires SameKey(s, Request(task, DraftOp, key, p)) == {} && (task in KnownTasks(s) || |KnownTasks(s)| < MAX_TASKS)
    ensures var t := Done(w, s, DraftCall(task, p, key)); task !in t.bindings && Bindable(w, t, task) && One(t, task, DraftOp)
  {
    OutputFacts(w, s, task);
    DraftWhole(w, s, task, p, key);
    DraftPut(w, s, Request(task, DraftOp, key, p), OfCatalog(p.catalog), DraftOut(w.draftOf(p).value));
  }

  /** From every bindable store some run binds the task. */
  lemma BindableBinds(w: World, s: Store, task: Task) returns (calls: seq<(Call, nat)>)
    requires Steady(w) && Linked(w, s) && task !in s.bindings && Bindable(w, s, task)
    ensures task in Play(w, s, calls).bindings
  {
    if One(s, task, DraftOp) {
      calls := CatalogedBinds(w, s, task);
    } else {
      calls := StartBinds(w, s, task);
    }
  }

  /** Main result: an unbound task gets a binding in some later run if and only if its records are
      bindable now. Otherwise no call, no key and no recovery will ever bind it. */
  lemma BoundExactly(w: World, s: Store, task: Task)
    requires Steady(w) && Linked(w, s) && task !in s.bindings
    ensures (exists calls: seq<(Call, nat)> :: task in Play(w, s, calls).bindings) <==> Bindable(w, s, task)
  {
    if Bindable(w, s, task) {
      var calls := BindableBinds(w, s, task);
    } else {
      forall calls: seq<(Call, nat)> ensures task !in Play(w, s, calls).bindings { BlockedForever(w, s, task, calls); }
    }
  }

  // ---------------------------------------------------------------- families of blocked tasks

  /** A draft call that got as far as its intent and no further, because it was cut off there or
      because its builder rejected the draft, blocks the task for ever. */
  lemma DraftIntentBlocks(w: World, s: Store, task: Task, p: Payload, key: Key, calls: seq<(Call, nat)>)
    requires Steady(w) && Linked(w, s) && task !in s.bindings && p.ForDraft? && |DraftScript(w, s, task, p, key).pubs| > 1
    ensures task !in Play(w, After(w, s, DraftCall(task, p, key), 2), calls).bindings
  {
    var c := DraftCall(task, p, key);
    var r, parent := Request(task, DraftOp, key, p), OfCatalog(p.catalog);
    var output := DraftOrder(w, s, task, p, key);
    AfterIs(w, s, c, 2);
    AfterKeeps(w, s, c, 2);
    PrefixIs(s, DraftScript(w, s, task, p, key).pubs, r, parent, output, 2);
    GrownIs(w, s, r, parent, output, 2);
    DraftIntentGrew(w, s, After(w, s, c, 2), r, Intent(task, DraftOp, r, parent), output, 2);
    BlockedForever(w, After(w, s, c, 2), task, calls);
  }

  lemma RejectedAfterTwo(w: World, s: Store, task: Task, p: Payload, key: Key)
    requires p.ForDraft? && DraftScript(w, s, task, p, key).answer == Failed("DRAFT_REJECTED")
    ensures |DraftScript(w, s, task, p, key).pubs| == 2
  {
  }

  /** When the builder rejects the draft, the call that was not cut off ends there. */
  lemma RejectedDraftBlocks(w: World, s: Store, task: Task, p: Payload, key: Key, calls: seq<(Call, nat)>)
    requires Steady(w) && Linked(w, s) && task !in s.bindings && p.ForDraft?
    requires DraftScript(w, s, task, p, key).answer == Failed("DRAFT_REJECTED")
    ensures task !in Play(w, Done(w, s, DraftCall(task, p, key)), calls).bindings
  {
    RejectedAfterTwo(w, s, task, p, key);
    DraftIntentBlocks(w, s, task, p, key, calls);
    AfterIs(w, s, DraftCall(task, p, key), 2);
  }

  /** A result that was published beside an earlier result intent, but not bound, is never bound. */
  lemma SecondResultBlocks(w: World, s: Store, task: Task, d: Draft, key: Key, k: nat, calls: seq<(Call, nat)>)
    requires Steady(w) && Linked(w, s) && task !in s.bindings && Matching(s, task, GenerateOp) != {}
    requires 3 <= k <= 4 && k <= |GenerateScript(w, s, task, d, key).pubs|
    ensures task !in Play(w, After(w, s, GenerateCall(task, d, key), k), calls).bindings
  {
    var c := GenerateCall(task, d, key);
    var r := Request(task, GenerateOp, key, ForGenerate(d));
    var output := GenerateOrder(w, s, task, d, key);
    AfterIs(w, s, c, k);
    AfterKeeps(w, s, c, k);
    PrefixIs(s, GenerateScript(w, s, task, d, key).pubs, r, OfDraft(d), output, k);
    GrownIs(w, s, r, OfDraft(d), output, k);
    var t := After(w, s, c, k);
    SecondIntent(s, t, task, GenerateOp, Intent(task, GenerateOp, r, OfDraft(d)));
    BlockedForever(w, t, task, calls);
  }

  /** A draft without its receipt is lost once a result was asked for and not delivered. */
  lemma UnfiledDraftBlocks(w: World, s: Store, task: Task, calls: seq<(Call, nat)>)
    requires Steady(w) && Linked(w, s) && task !in s.bindings && ResultIn(s, task).None?
    requires !Filed(s, task, DraftOp) && Matching(s, task, GenerateOp) != {}
    ensures task !in Play(w, s, calls).bindings
  {
    var i :| i in Matching(s, task, GenerateOp);
    assert IntentLinked(w, s, i);
    BlockedForever(w, s, task, calls);
  }
}
