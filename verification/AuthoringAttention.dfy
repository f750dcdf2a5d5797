/** Exactly when recovery ends in attention, over every linked store. */
module AuthoringAttention {
  import opened Wrappers
  import opened AuthoringStore
  import opened AuthoringRecovery
  import opened AuthoringCompletion
  import opened AuthoringRuns
  import opened AuthoringResults

  predicate Sole(s: Store, task: Task, op: Operation, i: Intent) {
    i in s.intents && i.task == task && i.op == op && forall j :: j in s.intents && j.task == task && j.op == op ==> j == i
  }

  /** The slot has exactly one intent. */
  ghost predicate OneIntent(s: Store, task: Task, op: Operation) {
    exists i :: Sole(s, task, op, i)
  }

  ghost predicate HasReceipt(s: Store, task: Task, op: Operation) {
    exists q :: q in s.receipts && q.task == task && q.op == op
  }

  /** The catalogs that the task's drafts were to be made from are published. */
  ghost predicate CatalogFiled(s: Store, task: Task) {
    forall i :: i in s.intents && i.task == task && i.op == DraftOp && i.parent.OfCatalog? ==> i.parent.catalog in s.catalogs
  }

  /** Nothing stands in the way: every intent has its output, every output its receipt or a single
      intent to restore it from, and a result its binding or all that a binding is made of. */
  ghost predicate Clear(s: Store, task: Task) {
    && (forall i :: i in s.intents && i.task == task ==> (task, i.op) in s.outputs)
    && (forall op :: (task, op) in s.outputs ==> HasReceipt(s, task, op) || OneIntent(s, task, op))
    && ((task, GenerateOp) in s.outputs && task !in s.bindings ==>
          OneIntent(s, task, DraftOp) && OneIntent(s, task, GenerateOp) && CatalogFiled(s, task))
  }

  lemma SoleIs(s: Store, task: Task, op: Operation, i: Intent)
    ensures Sole(s, task, op, i) <==> Matching(s, task, op) == {i}
  {
    if Matching(s, task, op) == {i} {
      assert i in Matching(s, task, op);
      forall j | j in s.intents && j.task == task && j.op == op ensures j == i { assert j in Matching(s, task, op); }
    }
  }

  lemma OneIs(s: Store, task: Task, op: Operation)
    ensures OneIntent(s, task, op) <==> TheIntent(s, task, op).Some?
  {
    forall i ensures Sole(s, task, op, i) <==> Matching(s, task, op) == {i} { SoleIs(s, task, op, i); }
  }

  lemma HasIs(s: Store, task: Task, op: Operation)
    ensures HasReceipt(s, task, op) <==> ReceiptIn(s, task, op).Some?
  {
  }

  // ---------------------------------------------------------------- one turn

  /** Only receipts of this slot have been added. */
  predicate Extra(s: Store, t: Store, task: Task, op: Operation) {
    t == s.(receipts := t.receipts) && s.receipts <= t.receipts && forall q :: q in t.receipts && q !in s.receipts ==> q.task == task && q.op == op
  }

  ghost predicate Restorable(s: Store, task: Task, op: Operation) {
    HasReceipt(s, task, op) || OneIntent(s, task, op)
  }

  /** In a linked store a receipt on file is in order. */
  lemma FiledInOrder(w: World, g: Progress, task: Task, op: Operation)
    requires Linked(w, g.store) && (task, op) in g.store.outputs && ReceiptIn(g.store, task, op).Some?
    requires op.GenerateOp? ==> g.draft == DraftIn(g.store, task)
    ensures var h := Inspect(g, task, op);
            && h.store == g.store && h.pubs == g.pubs && h.stopped == g.stopped && h.raised == g.raised
            && h.draft == (if op.DraftOp? then DraftIn(g.store, task) else g.draft)
            && h.result == (if op.GenerateOp? then ResultIn(g.store, task) else g.result)
            && h.exports == (if op.MarkdownOp? || op.PdfOp? then g.exports + {op} else g.exports)
  {
    var r := ReceiptIn(g.store, task, op).value;
    assert ReceiptLinked(g.store, r) && IntentLinked(w, g.store, r.intent);
    assert OutputLinked(w, g.store, task, op);
  }

  lemma RestoreIs(w: World, g: Progress, task: Task, op: Operation)
    requires Linked(w, g.store) && (task, op) in g.store.outputs && !g.stopped && !g.raised
    requires op.GenerateOp? ==> g.draft == DraftIn(g.store, task)
    ensures var h := Restore(w, g, task, op);
            if Restorable(g.store, task, op) then
              && h == g.(store := h.store, pubs := h.pubs) && Extra(g.store, h.store, task, op) && ReceiptIn(h.store, task, op).Some?
            else h.stopped
  {
    OneIs(g.store, task, op);
    HasIs(g.store, task, op);
    if ReceiptIn(g.store, task, op).None? && OneIntent(g.store, task, op) { RestoreMakes(w, g, task, op); }
  }

  lemma RestoreMakes(w: World, g: Progress, task: Task, op: Operation)
    requires Linked(w, g.store) && (task, op) in g.store.outputs && !g.stopped && !g.raised
    requires op.GenerateOp? ==> g.draft == DraftIn(g.store, task)
    requires ReceiptIn(g.store, task, op).None? && TheIntent(g.store, task, op).Some?
    ensures var h := Restore(w, g, task, op);
            && h == g.(store := h.store, pubs := h.pubs) && Extra(g.store, h.store, task, op) && ReceiptIn(h.store, task, op).Some?
  {
    assert OutputLinked(w, g.store, task, op);
    MayRestoreLinked(w, g, task, op);
    var i := TheIntent(g.store, task, op).value;
    var r := Receipt(task, op, i, g.store.outputs[(task, op)], SchemaOf(op));
    forall q | q in g.store.receipts ensures q.intent != i {
      assert ReceiptLinked(g.store, q) && i in Matching(g.store, task, op);
    }
    assert Free(g.store, PutReceipt(r));
    assert r in Put(g.store, PutReceipt(r)).receipts;
  }

  lemma MayRestoreLinked(w: World, g: Progress, task: Task, op: Operation)
    requires Linked(w, g.store) && (task, op) in g.store.outputs
    requires op.GenerateOp? ==> g.draft == DraftIn(g.store, task)
    ensures MayRestore(w, g, task, op, g.store.outputs[(task, op)])
  {
    assert OutputLinked(w, g.store, task, op);
    if op.MarkdownOp? || op.PdfOp? { assert OutputLinked(w, g.store, task, GenerateOp); }
  }

  lemma TurnIs(w: World, g: Progress, task: Task, op: Operation)
    requires Linked(w, g.store) && !g.stopped && !g.raised && (task, op) in g.store.outputs
    requires op.GenerateOp? ==> g.draft == DraftIn(g.store, task)
    ensures var h := RecoverOutput(w, g, task, op);
            if Restorable(g.store, task, op) then
              && !h.stopped && !h.raised && Linked(w, h.store) && Extra(g.store, h.store, task, op) && HasReceipt(h.store, task, op)
              && h.draft == (if op.DraftOp? then DraftIn(g.store, task) else g.draft)
              && h.result == (if op.GenerateOp? then ResultIn(g.store, task) else g.result)
              && h.exports == (if op.MarkdownOp? || op.PdfOp? then g.exports + {op} else g.exports)
            else h.stopped
  {
    RestoreIs(w, g, task, op);
    if Restorable(g.store, task, op) {
      var f := Restore(w, g, task, op);
      RestoreFits(w, g.store, g.(pubs := []), task, op);
      RestoreOnly(w, g, task, op);
      FiledInOrder(w, f, task, op);
    }
  }

  /** What is restored does not depend on what was published before. */
  lemma RestoreOnly(w: World, g: Progress, task: Task, op: Operation)
    requires (task, op) in g.store.outputs
    ensures Restore(w, g, task, op).store == Restore(w, g.(pubs := []), task, op).store
  {
  }

  // ---------------------------------------------------------------- the four turns

  function OpAt(k: nat): Operation { if k == 0 then DraftOp else if k == 1 then GenerateOp else if k == 2 then MarkdownOp else PdfOp }

  function Turn(op: Operation): nat {
    match op
    case DraftOp => 0
    case GenerateOp => 1
    case MarkdownOp => 2
    case PdfOp => 3
  }

  /** An output among the first `n` that can have no receipt. */
  ghost predicate Blocked(s: Store, task: Task, n: nat) {
    exists op :: Turn(op) < n && (task, op) in s.outputs && !Restorable(s, task, op)
  }

  /** Where recovery stands before turn `n`. */
  ghost predicate Sofar(w: World, s: Store, g: Progress, task: Task, n: nat) {
    && (g.stopped <==> Blocked(s, task, n))
    && (!g.stopped ==>
          && !g.raised && Linked(w, g.store) && g.store == s.(receipts := g.store.receipts) && s.receipts <= g.store.receipts
          && (forall q :: q in g.store.receipts && q !in s.receipts ==> q.task == task && Turn(q.op) < n)
          && (forall op :: Turn(op) < n && (task, op) in s.outputs ==> HasReceipt(g.store, task, op))
          && g.draft == (if n > 0 then DraftIn(s, task) else None) && g.result == (if n > 1 then ResultIn(s, task) else None)
          && (forall op :: op in g.exports <==> (op.MarkdownOp? || op.PdfOp?) && Turn(op) < n && (task, op) in s.outputs))
  }

  /** The slot's receipts and intents are as they were. */
  lemma SlotKept(s: Store, t: Store, task: Task, op: Operation)
    requires t == s.(receipts := t.receipts) && s.receipts <= t.receipts
    requires forall q :: q in t.receipts && q !in s.receipts ==> q.task != task || q.op != op
    ensures Restorable(t, task, op) <==> Restorable(s, task, op)
  {
    forall i ensures Sole(s, task, op, i) <==> Sole(t, task, op, i) {}
    if HasReceipt(s, task, op) {
      var q :| q in s.receipts && q.task == task && q.op == op;
      assert q in t.receipts;
    }
  }

  lemma BlockedNext(s: Store, task: Task, n: nat)
    requires n < 4
    ensures Blocked(s, task, n + 1) <==> Blocked(s, task, n) || ((task, OpAt(n)) in s.outputs && !Restorable(s, task, OpAt(n)))
  {
    if Blocked(s, task, n + 1) {
      var op :| Turn(op) < n + 1 && (task, op) in s.outputs && !Restorable(s, task, op);
      assert Turn(op) == n ==> op == OpAt(n);
    }
    assert Turn(OpAt(n)) == n;
  }

  lemma SofarNext(w: World, s: Store, g: Progress, task: Task, n: nat)
    requires n < 4 && Sofar(w, s, g, task, n)
    ensures Sofar(w, s, RecoverOutput(w, g, task, OpAt(n)), task, n + 1)
  {
    var op := OpAt(n);
    BlockedNext(s, task, n);
    if !g.stopped {
      SlotKept(s, g.store, task, op);
      assert DraftIn(g.store, task) == DraftIn(s, task) && ResultIn(g.store, task) == ResultIn(s, task);
      if (task, op) in s.outputs {
        TurnIs(w, g, task, op);
        SofarTaken(w, s, g, RecoverOutput(w, g, task, op), task, n);
      } else {
        SofarNone(w, s, g, task, n);
      }
    }
  }

  lemma SofarNone(w: World, s: Store, g: Progress, task: Task, n: nat)
    requires n < 4 && Sofar(w, s, g, task, n) && !g.stopped && (task, OpAt(n)) !in s.outputs && !Blocked(s, task, n + 1)
    ensures Sofar(w, s, g, task, n + 1)
  {
    forall op | Turn(op) < n + 1 && (task, op) in s.outputs ensures Turn(op) < n { assert Turn(op) == n ==> op == OpAt(n); }
  }

  lemma SofarTaken(w: World, s: Store, g: Progress, h: Progress, task: Task, n: nat)
    requires n < 4 && Sofar(w, s, g, task, n) && !g.stopped && (task, OpAt(n)) in s.outputs
    requires Blocked(s, task, n + 1) <==> !Restorable(s, task, OpAt(n))
    requires var op := OpAt(n);
             if Restorable(s, task, op) then
               && !h.stopped && !h.raised && Linked(w, h.store) && Extra(g.store, h.store, task, op) && HasReceipt(h.store, task, op)
               && h.draft == (if op.DraftOp? then DraftIn(s, task) else g.draft)
               && h.result == (if op.GenerateOp? then ResultIn(s, task) else g.result)
               && h.exports == (if op.MarkdownOp? || op.PdfOp? then g.exports + {op} else g.exports)
             else h.stopped
    ensures Sofar(w, s, h, task, n + 1)
  {
    TurnsApart(n);
    if !h.stopped { ReceiptsTaken(s, g.store, h.store, task, n); }
  }

  lemma TurnsApart(n: nat)
    requires n < 4
    ensures Turn(OpAt(n)) == n && forall op :: Turn(op) == n ==> op == OpAt(n)
  {
  }

  lemma ReceiptsTaken(s: Store, t: Store, u: Store, task: Task, n: nat)
    requires n < 4 && t.receipts <= u.receipts && HasReceipt(u, task, OpAt(n))
    requires forall op :: Turn(op) < n && (task, op) in s.outputs ==> HasReceipt(t, task, op)
    ensures forall op :: Turn(op) < n + 1 && (task, op) in s.outputs ==> HasReceipt(u, task, op)
  {
    forall op | Turn(op) < n + 1 && (task, op) in s.outputs ensures HasReceipt(u, task, op) {
      if Turn(op) == n {
        assert op == OpAt(n);
      } else {
        var q :| q in t.receipts && q.task == task && q.op == op;
        assert q in u.receipts;
      }
    }
  }

  // ---------------------------------------------------------------- the binding

  lemma BoundVerifies(w: World, s: Store, task: Task)
    requires Linked(w, s) && task in s.bindings
    ensures BindingOk(w, s, s.bindings[task]) && (task, GenerateOp) in s.outputs
  {
    var b := s.bindings[task];
    assert BindingLinked(w, s, task, b);
    assert ReceiptLinked(s, b.draftReceipt) && ReceiptLinked(s, b.generateReceipt);
    assert IntentLinked(w, s, b.draftIntent) && IntentLinked(w, s, b.generateIntent);
    assert OutputLinked(w, s, task, DraftOp) && OutputLinked(w, s, task, GenerateOp);
  }

  /** What a binding is made of, but for the receipts. */
  ghost predicate Bindable(s: Store, task: Task) {
    OneIntent(s, task, DraftOp) && OneIntent(s, task, GenerateOp) && CatalogFiled(s, task)
  }

  lemma TheirReceipt(w: World, s: Store, task: Task, op: Operation)
    requires Linked(w, s) && HasReceipt(s, task, op) && OneIntent(s, task, op)
    ensures TheIntent(s, task, op).Some? && TheReceipt(s, TheIntent(s, task, op).value) == ReceiptIn(s, task, op)
    ensures ReceiptIn(s, task, op).Some? && ReceiptLinked(s, ReceiptIn(s, task, op).value)
    ensures IntentLinked(w, s, TheIntent(s, task, op).value) && TheIntent(s, task, op).value.task == task && TheIntent(s, task, op).value.op == op
  {
    OneIs(s, task, op);
    var i, q := TheIntent(s, task, op).value, ReceiptIn(s, task, op).value;
    assert i in Matching(s, task, op);
    assert ReceiptLinked(s, q) && q.intent in Matching(s, task, op);
    forall r | r in ReceiptsOf(s, i) ensures r == q { assert ReceiptLinked(s, r); }
    assert ReceiptsOf(s, i) == {q};
  }

  lemma DraftChainIs(w: World, s: Store, task: Task)
    requires Linked(w, s) && HasReceipt(s, task, DraftOp) && (task, DraftOp) in s.outputs
    ensures DraftChain(s, task).Some? <==> OneIntent(s, task, DraftOp) && CatalogFiled(s, task)
  {
    OneIs(s, task, DraftOp);
    assert OutputLinked(w, s, task, DraftOp);
    if OneIntent(s, task, DraftOp) {
      TheirReceipt(w, s, task, DraftOp);
      forall i | i in s.intents && i.task == task && i.op == DraftOp ensures i == TheIntent(s, task, DraftOp).value {
        assert i in Matching(s, task, DraftOp);
      }
    }
  }

  lemma RepairStops(w: World, g: Progress, task: Task)
    requires Linked(w, g.store) && !g.stopped && task !in g.store.bindings && (task, GenerateOp) in g.store.outputs
    requires HasReceipt(g.store, task, DraftOp) && HasReceipt(g.store, task, GenerateOp)
    ensures RepairBinding(w, g, task).stopped <==> !Bindable(g.store, task)
  {
    var s := g.store;
    assert OutputLinked(w, s, task, GenerateOp) && OutputLinked(w, s, task, DraftOp);
    DraftChainIs(w, s, task);
    OneIs(s, task, GenerateOp);
    if Bindable(s, task) {
      TheirReceipt(w, s, task, GenerateOp);
      RepairMakes(w, g, task);
    }
  }

  lemma RepairMakes(w: World, g: Progress, task: Task)
    requires Linked(w, g.store) && !g.stopped && task !in g.store.bindings && (task, GenerateOp) in g.store.outputs
    requires DraftChain(g.store, task).Some? && HasReceipt(g.store, task, GenerateOp) && OneIntent(g.store, task, GenerateOp)
    ensures !RepairBinding(w, g, task).stopped
  {
    var s := g.store;
    TheirReceipt(w, s, task, GenerateOp);
    ChainFacts(s, task);
    var c := DraftChain(s, task).value;
    assert ReceiptLinked(s, c) && IntentLinked(w, s, c.intent);
    assert OutputLinked(w, s, task, GenerateOp) && OutputLinked(w, s, task, DraftOp);
  }

  lemma BindableKept(s: Store, t: Store, task: Task)
    requires t == s.(receipts := t.receipts)
    ensures Bindable(s, task) <==> Bindable(t, task)
  {
    forall i, op ensures Sole(s, task, op, i) <==> Sole(t, task, op, i) {}
  }

  lemma UnboundIs(w: World, g: Progress, task: Task)
    requires Linked(w, g.store) && !g.stopped && task !in g.store.bindings && (task, GenerateOp) in g.store.outputs
    requires HasReceipt(g.store, task, DraftOp) && HasReceipt(g.store, task, GenerateOp)
    ensures var h := RepairBinding(w, g, task);
            && h.stopped == !Bindable(g.store, task) && (!h.stopped ==> task in h.store.bindings)
            && (h.raised, h.draft, h.result, h.exports) == (g.raised, g.draft, g.result, g.exports)
            && h.store == g.store.(bindings := h.store.bindings)
  {
    RepairStops(w, g, task);
    RepairVerifies(w, g, task);
    RepairKeeps(w, g, task);
  }

  /** The binding step, after four turns that were not stopped. */
  lemma BindingIs(w: World, s: Store, g: Progress, task: Task)
    requires Sofar(w, s, g, task, 4) && !g.stopped
    requires (task, GenerateOp) in s.outputs ==> (task, DraftOp) in s.outputs && s.outputs[(task, GenerateOp)].ResultOut?
    ensures var h := RecoverBinding(w, g, task);
            && h.stopped == ((task, GenerateOp) in s.outputs && task !in s.bindings && !Bindable(s, task))
            && (h.raised, h.draft, h.result, h.exports) == (false, g.draft, g.result, g.exports)
            && (!h.stopped && (task, GenerateOp) in s.outputs ==> task in h.store.bindings)
            && h.store == g.store.(bindings := h.store.bindings)
  {
    if (task, GenerateOp) in s.outputs {
      if task in g.store.bindings {
        BoundVerifies(w, g.store, task);
      } else {
        BindingMade(w, s, g, task);
      }
    }
  }

  lemma BindingMade(w: World, s: Store, g: Progress, task: Task)
    requires Sofar(w, s, g, task, 4) && !g.stopped && task !in s.bindings
    requires (task, GenerateOp) in s.outputs && (task, DraftOp) in s.outputs && s.outputs[(task, GenerateOp)].ResultOut?
    ensures var h := RecoverBinding(w, g, task);
            && h.stopped == !Bindable(s, task) && (!h.stopped ==> task in h.store.bindings)
            && (h.raised, h.draft, h.result, h.exports) == (false, g.draft, g.result, g.exports)
            && h.store == g.store.(bindings := h.store.bindings)
  {
    SofarFiled(w, s, g, task);
    UnboundIs(w, g, task);
    BindableKept(s, g.store, task);
    UnboundRepairs(w, g, task);
  }

  lemma SofarFiled(w: World, s: Store, g: Progress, task: Task)
    requires Sofar(w, s, g, task, 4) && !g.stopped && (task, GenerateOp) in s.outputs && (task, DraftOp) in s.outputs
    ensures HasReceipt(g.store, task, DraftOp) && HasReceipt(g.store, task, GenerateOp)
  {
    assert Turn(DraftOp) < 4 && Turn(GenerateOp) < 4;
  }

  lemma RepairKeeps(w: World, g: Progress, task: Task)
    requires !g.stopped
    ensures var h := RepairBinding(w, g, task);
            && (h.raised, h.draft, h.result, h.exports) == (g.raised, g.draft, g.result, g.exports)
            && h.store == g.store.(bindings := h.store.bindings)
  {
  }

  // ---------------------------------------------------------------- main result

  lemma ClearIs(s: Store, task: Task)
    ensures Clear(s, task) <==> && !Dangling(s, task) && !Blocked(s, task, 4)
                                && ((task, GenerateOp) in s.outputs && task !in s.bindings ==> Bindable(s, task))
  {
    assert forall op :: Turn(op) < 4;
  }

  lemma AnswerIs(w: World, s: Store, g: Progress, h: Progress, task: Task)
    requires Sofar(w, s, g, task, 4) && !g.stopped && Shaped(s, task)
    requires (task, GenerateOp) in s.outputs ==> (task, DraftOp) in s.outputs
    requires (h.stopped, h.raised, h.draft, h.result, h.exports) == (false, false, g.draft, g.result, g.exports)
    ensures AnswerOf(h) == Recovered(StateOf(s, task)) && Reports(s, task, StateOf(s, task))
  {
    assert forall op :: Turn(op) < 4;
    assert g.exports == ExportsIn(s, task);
    StateReports(s, task);
  }

  lemma FourTurnsSofar(w: World, s: Store, task: Task)
    requires Linked(w, s)
    ensures Sofar(w, s, RecoverOutputs(w, s, task), task, 4)
  {
    var g0 := Started(s);
    SofarNext(w, s, g0, task, 0);
    var g1 := RecoverOutput(w, g0, task, DraftOp);
    SofarNext(w, s, g1, task, 1);
    var g2 := RecoverOutput(w, g1, task, GenerateOp);
    SofarNext(w, s, g2, task, 2);
    SofarNext(w, s, RecoverOutput(w, g2, task, MarkdownOp), task, 3);
  }

  lemma LinkedShaped(w: World, s: Store, task: Task)
    requires Linked(w, s)
    ensures Shaped(s, task) && ((task, GenerateOp) in s.outputs ==> (task, DraftOp) in s.outputs)
  {
    if (task, DraftOp) in s.outputs { assert OutputLinked(w, s, task, DraftOp); }
    if (task, GenerateOp) in s.outputs { assert OutputLinked(w, s, task, GenerateOp); }
  }

  /** Over every linked store recovery reports the state of the task's outputs exactly when nothing
      stands in the way, and otherwise ends in attention. */
  lemma RecoversExactly(w: World, s: Store, task: Task)
    requires Linked(w, s)
    ensures var answer := RecoverScript(w, s, task).answer;
            if Clear(s, task) then answer.Recovered? && Reports(s, task, answer.state)
            else answer == Recovered(ATTENTION) || answer == Failed("ATTENTION")
  {
    ClearIs(s, task);
    LinkedShaped(w, s, task);
    if !Dangling(s, task) {
      FourTurnsSofar(w, s, task);
      var g := RecoverOutputs(w, s, task);
      if !g.stopped {
        BindingIs(w, s, g, task);
        if !RecoverBinding(w, g, task).stopped { AnswerIs(w, s, g, RecoverBinding(w, g, task), task); }
      }
    }
  }

  lemma StoreFinished(w: World, s: Store, g: Progress, t: Store, task: Task)
    requires Sofar(w, s, g, task, 4) && !g.stopped && t == g.store.(bindings := t.bindings)
    requires (task, GenerateOp) in s.outputs ==> task in t.bindings
    ensures Finished(t, task)
  {
    forall op | (task, op) in t.outputs ensures ReceiptIn(t, task, op).Some? {
      assert Turn(op) < 4;
      var q :| q in g.store.receipts && q.task == task && q.op == op;
      assert q in t.receipts;
    }
  }

  /** When nothing stands in the way, recovery leaves every output with its receipt and a result bound. */
  lemma RecoveryFinishes(w: World, s: Store, task: Task)
    requires Linked(w, s) && Clear(s, task)
    ensures Finished(PutAll(s, RecoverScript(w, s, task).pubs), task)
  {
    ClearIs(s, task);
    LinkedShaped(w, s, task);
    FourTurnsSofar(w, s, task);
    var g := RecoverOutputs(w, s, task);
    BindingIs(w, s, g, task);
    RecoverStore(w, s, task);
    StoreFinished(w, s, g, RecoverBinding(w, g, task).store, task);
  }

  /** The two ways of ending differ: no report says attention. */
  lemma AttentionApart(s: Store, task: Task, state: State)
    requires Reports(s, task, state)
    ensures state.name != "attention"
  {
    assert |"attention"| == 9 && "attention"[0] == 'a';
    assert |"exported"| == 8 && "generated"[0] == 'g' && |"waiting_confirmation"| == 20 && "cataloged"[0] == 'c';
  }
}
