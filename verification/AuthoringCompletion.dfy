/** Recovery of a healthy store as a whole: all four outputs, then the binding. */
module AuthoringCompletion {
  import opened Wrappers
  import opened AuthoringStore
  import opened AuthoringRecovery

  /** A chain whose two receipts are there, up to the binding. */
  ghost predicate BothReceipts(w: World, s: Store, task: Task) {
    && Healthy(w, s, task) && (task, GenerateOp) in s.outputs
    && ReceiptFor(s, task, DraftOp) in s.receipts && ReceiptFor(s, task, GenerateOp) in s.receipts
  }

  lemma OneReceipt(s: Store, task: Task, op: Operation)
    requires Traced(s, task, op) && (task, op) in s.outputs && ReceiptFor(s, task, op) in s.receipts
    ensures TheReceipt(s, IntentOf(s, task, op)) == Some(ReceiptFor(s, task, op))
    ensures ChainOk(s, ReceiptFor(s, task, op), task, op, s.outputs[(task, op)])
  {
    assert ReceiptsOf(s, IntentOf(s, task, op)) == {ReceiptFor(s, task, op)};
    assert IntentOf(s, task, op) in Matching(s, task, op);
  }

  lemma ChainIs(w: World, s: Store, task: Task)
    requires BothReceipts(w, s, task)
    ensures DraftChain(s, task) == Some(ReceiptFor(s, task, DraftOp))
    ensures TheReceipt(s, IntentOf(s, task, GenerateOp)) == Some(ReceiptFor(s, task, GenerateOp))
    ensures ChainOk(s, ReceiptFor(s, task, GenerateOp), task, GenerateOp, s.outputs[(task, GenerateOp)])
  {
    OneReceipt(s, task, DraftOp);
    OneReceipt(s, task, GenerateOp);
  }

  /** The binding that the chain determines satisfies the binding verifier. */
  lemma BindingGood(w: World, s: Store, task: Task)
    requires BothReceipts(w, s, task)
    ensures BindingOk(w, s, TheBinding(w, s, task))
  {
    ChainIs(w, s, task);
    assert IntentOf(s, task, DraftOp) in Matching(s, task, DraftOp);
    assert IntentOf(s, task, GenerateOp) in Matching(s, task, GenerateOp);
  }

  lemma RepairIs(w: World, g: Progress, task: Task)
    requires BothReceipts(w, g.store, task) && task !in g.store.bindings
    ensures RepairBinding(w, g, task) == Publish(g, PutBinding(TheBinding(w, g.store, task)))
  {
    ChainIs(w, g.store, task);
  }

  lemma BindingHealthy(w: World, s: Store, task: Task)
    requires BothReceipts(w, s, task)
    ensures var t := s.(bindings := s.bindings[task := TheBinding(w, s, task)]);
            Healthy(w, t, task) && Completed(w, t, task) == Completed(w, s, task)
  {
    var t := s.(bindings := s.bindings[task := TheBinding(w, s, task)]);
    SameIntents(s, t, task);
    SameReceipts(s, t, task);
    SameCompletion(w, s, t, task);
  }

  lemma BindingOnTheWay(w: World, s: Store, t: Store, task: Task)
    requires Healthy(w, s, task) && OnTheWay(w, s, t, task) && BothReceipts(w, t, task)
    ensures OnTheWay(w, s, t.(bindings := t.bindings[task := TheBinding(w, t, task)]), task)
  {
    BindingHealthy(w, t, task);
  }

  lemma PublishedBinding(g: Progress, b: Binding)
    requires b.task !in g.store.bindings
    ensures var h := Publish(g, PutBinding(b));
            && h == g.(store := h.store, pubs := g.pubs + [PutBinding(b)]) && h.store == Put(g.store, PutBinding(b))
            && h.store == g.store.(bindings := g.store.bindings[b.task := b])
  {
  }

  lemma RepairAdvances(w: World, s: Store, g: Progress, task: Task)
    requires Healthy(w, s, task) && Advancing(w, s, g, task) && BothReceipts(w, g.store, task) && task !in g.store.bindings
    ensures var h := RepairBinding(w, g, task);
            && Advancing(w, s, h, task) && h == g.(store := h.store, pubs := h.pubs)
            && h.store == g.store.(bindings := g.store.bindings[task := TheBinding(w, g.store, task)])
  {
    var b := TheBinding(w, g.store, task);
    RepairIs(w, g, task);
    BindingOnTheWay(w, s, g.store, task);
    PublishedBinding(g, b);
    AdvanceMore(w, s, g, Publish(g, PutBinding(b)), task, PutBinding(b));
  }

  lemma BoundAlready(w: World, s: Store, task: Task)
    requires BothReceipts(w, s, task) && task in s.bindings
    ensures BindingOk(w, s, s.bindings[task])
    ensures s == s.(bindings := s.bindings[task := TheBinding(w, s, task)])
  {
    BindingGood(w, s, task);
    assert s.bindings[task := TheBinding(w, s, task)] == s.bindings;
  }

  /** A binding that is there verifies, and nothing is published. */
  lemma BoundStands(w: World, g: Progress, task: Task)
    requires BothReceipts(w, g.store, task) && task in g.store.bindings
    ensures RecoverBinding(w, g, task) == g
    ensures g.store == g.store.(bindings := g.store.bindings[task := TheBinding(w, g.store, task)])
  {
    BoundAlready(w, g.store, task);
  }

  lemma UnboundRepairs(w: World, g: Progress, task: Task)
    requires !g.stopped && g.result.Some? && task !in g.store.bindings
    ensures RecoverBinding(w, g, task) == RepairBinding(w, g, task)
  {
  }

  /** The binding step after the four outputs. */
  lemma BindingAdvances(w: World, s: Store, g: Progress, task: Task)
    requires Healthy(w, s, task) && Advancing(w, s, g, task)
    requires g.result.Some? ==> BothReceipts(w, g.store, task)
    ensures var h := RecoverBinding(w, g, task);
            && Advancing(w, s, h, task) && h == g.(store := h.store, pubs := h.pubs)
            && h.store == (if g.result.Some? then g.store.(bindings := g.store.bindings[task := TheBinding(w, g.store, task)]) else g.store)
            && (g.result.None? || task in g.store.bindings ==> h == g)
  {
    if g.result.None? {
      assert RecoverBinding(w, g, task) == g;
    } else if task in g.store.bindings {
      BoundStands(w, g, task);
    } else {
      UnboundRepairs(w, g, task);
      RepairAdvances(w, s, g, task);
    }
  }

  lemma StartAdvances(w: World, s: Store, task: Task)
    requires Healthy(w, s, task)
    ensures Advancing(w, s, Started(s), task)
  {
  }

  /** What recovery has after the turns so far: receipts, and what the outputs say. */
  ghost predicate Reached(s: Store, g: Progress, task: Task, receipts: set<Receipt>, turns: set<Operation>) {
    && g.store == s.(receipts := s.receipts + receipts)
    && (receipts <= s.receipts ==> g.pubs == [])
    && g.draft == (if DraftOp in turns then DraftIn(s, task) else None)
    && g.result == (if GenerateOp in turns then ResultIn(s, task) else None)
    && g.exports == turns * ExportsIn(s, task)
  }

  lemma WithReceiptIs(s: Store, task: Task, op: Operation)
    requires Traced(s, task, op)
    ensures WithReceipt(s, task, op) == s.(receipts := s.receipts + OneOf(s, task, op))
  {
  }

  ghost predicate Shaped(s: Store, task: Task) {
    && ((task, DraftOp) in s.outputs ==> s.outputs[(task, DraftOp)].DraftOut?)
    && ((task, GenerateOp) in s.outputs ==> s.outputs[(task, GenerateOp)].ResultOut?)
  }

  lemma TurnReaches(s: Store, g: Progress, h: Progress, task: Task, receipts: set<Receipt>, turns: set<Operation>, op: Operation)
    requires Reached(s, g, task, receipts, turns) && op !in turns && Shaped(s, task) && h.store.outputs == s.outputs
    requires h.store == g.store.(receipts := g.store.receipts + OneOf(s, task, op))
    requires (h.store == g.store ==> h.pubs == g.pubs) && Turned(g, h, task, op)
    ensures Reached(s, h, task, receipts + OneOf(s, task, op), turns + {op})
  {
    assert s.receipts + receipts + OneOf(s, task, op) == s.receipts + (receipts + OneOf(s, task, op));
    if receipts + OneOf(s, task, op) <= s.receipts { assert h.store.receipts == g.store.receipts; }
  }

  lemma HealthyShaped(w: World, s: Store, task: Task)
    requires Healthy(w, s, task)
    ensures Shaped(s, task)
  {
  }

  lemma AdvancingTraced(w: World, s: Store, g: Progress, task: Task, op: Operation)
    requires Healthy(w, s, task) && Advancing(w, s, g, task)
    ensures Traced(g.store, task, op) && OneOf(s, task, op) == OneOf(g.store, task, op) && g.store.outputs == s.outputs
  {
    SameReceipts(s, g.store, task);
  }

  lemma DraftInHealthy(w: World, s: Store, task: Task)
    requires Healthy(w, s, task) && (task, GenerateOp) in s.outputs
    ensures DraftIn(s, task) == Some(s.outputs[(task, DraftOp)].draft)
  {
  }

  lemma NextTurn(w: World, s: Store, g: Progress, task: Task, receipts: set<Receipt>, turns: set<Operation>, op: Operation)
      returns (h: Progress)
    requires Healthy(w, s, task) && Advancing(w, s, g, task) && Reached(s, g, task, receipts, turns) && op !in turns
    requires op.GenerateOp? ==> DraftOp in turns
    ensures h == RecoverOutput(w, g, task, op)
    ensures Advancing(w, s, h, task) && Reached(s, h, task, receipts + OneOf(s, task, op), turns + {op})
  {
    AdvancingTraced(w, s, g, task, op);
    HealthyShaped(w, s, task);
    if op.GenerateOp? && (task, op) in s.outputs { DraftInHealthy(w, s, task); }
    TurnAdvances(w, s, g, task, op);
    WithReceiptIs(g.store, task, op);
    h := RecoverOutput(w, g, task, op);
    TurnReaches(s, g, h, task, receipts, turns, op);
  }

  lemma TwoTurns(w: World, s: Store, g: Progress, task: Task, receipts: set<Receipt>, turns: set<Operation>, a: Operation, b: Operation)
      returns (h: Progress)
    requires Healthy(w, s, task) && Advancing(w, s, g, task) && Reached(s, g, task, receipts, turns)
    requires a !in turns && b !in turns && a != b
    requires (a.GenerateOp? ==> DraftOp in turns) && (b.GenerateOp? ==> DraftOp in turns + {a})
    ensures h == RecoverOutput(w, RecoverOutput(w, g, task, a), task, b)
    ensures Advancing(w, s, h, task)
    ensures Reached(s, h, task, receipts + OneOf(s, task, a) + OneOf(s, task, b), turns + {a} + {b})
  {
    var first := NextTurn(w, s, g, task, receipts, turns, a);
    h := NextTurn(w, s, first, task, receipts + OneOf(s, task, a), turns + {a}, b);
  }

  lemma AllOfThem(s: Store, task: Task)
    ensures {} + OneOf(s, task, DraftOp) + OneOf(s, task, GenerateOp) + OneOf(s, task, MarkdownOp) + OneOf(s, task, PdfOp)
         == AllReceipts(s, task)
    ensures {} + {DraftOp} + {GenerateOp} + {MarkdownOp} + {PdfOp} == {DraftOp, GenerateOp, MarkdownOp, PdfOp}
  {
    EachReceipt(s, task);
  }

  /** The four turns of recovery on a healthy store. */
  lemma FourTurns(w: World, s: Store, task: Task)
    requires Healthy(w, s, task)
    ensures Advancing(w, s, RecoverOutputs(w, s, task), task)
    ensures Reached(s, RecoverOutputs(w, s, task), task, AllReceipts(s, task), {DraftOp, GenerateOp, MarkdownOp, PdfOp})
  {
    StartAdvances(w, s, task);
    var half := TwoTurns(w, s, Started(s), task, {}, {}, DraftOp, GenerateOp);
    AllOfThem(s, task);
    var whole := TwoTurns(w, s, half, task, {} + OneOf(s, task, DraftOp) + OneOf(s, task, GenerateOp), {} + {DraftOp} + {GenerateOp},
                          MarkdownOp, PdfOp);
  }

  lemma TurnsAnswer(w: World, s: Store, g: Progress, task: Task)
    requires Healthy(w, s, task) && !g.stopped && !g.raised
    requires Reached(s, g, task, AllReceipts(s, task), {DraftOp, GenerateOp, MarkdownOp, PdfOp})
    ensures AnswerOf(g) == Recovered(StateOf(s, task))
    ensures g.result.Some? <==> (task, GenerateOp) in s.outputs
  {
    assert {DraftOp, GenerateOp, MarkdownOp, PdfOp} * ExportsIn(s, task) == ExportsIn(s, task);
    HealthyShaped(w, s, task);
  }

  /** The receipts of all outputs, one operation at a time. */
  lemma EachReceipt(s: Store, task: Task)
    ensures AllReceipts(s, task) == OneOf(s, task, DraftOp) + OneOf(s, task, GenerateOp) + OneOf(s, task, MarkdownOp) + OneOf(s, task, PdfOp)
  {
  }

  ghost function OneOf(s: Store, task: Task, op: Operation): set<Receipt> {
    if (task, op) in s.outputs && TheIntent(s, task, op).Some? then {ReceiptFor(s, task, op)} else {}
  }

  // ---------------------------------------------------------------- main results on recovery

  /** On a healthy store recovery ends with every receipt and the binding in place, whatever
      was missing, and reports the state that the outputs say. */
  lemma RecoverCompletes(w: World, s: Store, task: Task)
    requires Healthy(w, s, task)
    ensures var script := RecoverScript(w, s, task);
            PutAll(s, script.pubs) == Completed(w, s, task) && script.answer == Recovered(StateOf(s, task))
  {
    var g := RecoverOutputs(w, s, task);
    FourTurns(w, s, task);
    TurnsAnswer(w, s, RecoverOutputs(w, s, task), task);
    if g.result.Some? { ReceiptsThere(w, s, g.store, task); }
    BindingAdvances(w, s, g, task);
    SameReceipts(s, g.store, task);
  }

  /** The state reads as the task's outputs say. */
  ghost predicate Reports(s: Store, task: Task, state: State) {
    var drafted, generated := (task, DraftOp) in s.outputs, (task, GenerateOp) in s.outputs;
    var exported := (task, MarkdownOp) in s.outputs || (task, PdfOp) in s.outputs;
    && (state.name == "exported" <==> generated && exported)
    && (state.name == "generated" <==> generated && !exported)
    && (state.name == "waiting_confirmation" <==> drafted && !generated)
    && (state.name == "cataloged" <==> !drafted && !generated)
    && (state.draft.Some? <==> drafted) && (state.result.Some? <==> generated)
    && (drafted ==> s.outputs[(task, DraftOp)] == DraftOut(state.draft.value))
    && (generated ==> s.outputs[(task, GenerateOp)] == ResultOut(state.result.value))
    && (forall op :: op in state.exports <==> (op.MarkdownOp? || op.PdfOp?) && (task, op) in s.outputs)
  }

  /** The names of the states are different words. */
  lemma NamesApart()
    ensures |"exported"| == 8 && |"generated"| == 9 && |"waiting_confirmation"| == 20 && |"cataloged"| == 9
    ensures "generated"[0] != "cataloged"[0]
  {
  }

  lemma NameReads(draft: Option<Draft>, result: Option<ResultDoc>, exports: set<Operation>)
    ensures var name := StateName(draft, result, exports);
            && (name == "exported" <==> result.Some? && exports != {})
            && (name == "generated" <==> result.Some? && exports == {})
            && (name == "waiting_confirmation" <==> result.None? && draft.Some?)
            && (name == "cataloged" <==> result.None? && draft.None?)
  {
    NamesApart();
  }

  lemma StateReports(s: Store, task: Task)
    requires Shaped(s, task) && ((task, GenerateOp) in s.outputs ==> (task, DraftOp) in s.outputs)
    ensures Reports(s, task, StateOf(s, task))
  {
    NameReads(DraftIn(s, task), ResultIn(s, task), ExportsIn(s, task));
    assert MarkdownOp in ExportsIn(s, task) <==> (task, MarkdownOp) in s.outputs;
    assert PdfOp in ExportsIn(s, task) <==> (task, PdfOp) in s.outputs;
    if ExportsIn(s, task) != {} { var op :| op in ExportsIn(s, task); }
  }

  /** What recovery of a healthy task reports, on its outputs alone. */
  lemma RecoverReports(w: World, s: Store, task: Task)
    requires Healthy(w, s, task)
    ensures RecoverScript(w, s, task).answer.Recovered? && Reports(s, task, RecoverScript(w, s, task).answer.state)
  {
    RecoverCompletes(w, s, task);
    HealthyShaped(w, s, task);
    StateReports(s, task);
  }

  lemma ReceiptsThere(w: World, s: Store, t: Store, task: Task)
    requires Healthy(w, s, task) && Healthy(w, t, task) && t == s.(receipts := s.receipts + AllReceipts(s, task))
    requires (task, GenerateOp) in s.outputs
    ensures BothReceipts(w, t, task) && TheBinding(w, t, task) == TheBinding(w, s, task)
  {
    SameReceipts(s, t, task);
    EachReceipt(s, task);
  }

  /** A second recovery writes nothing and answers the same. */
  lemma RecoverTwice(w: World, s: Store, task: Task)
    requires Healthy(w, s, task)
    ensures var t := Completed(w, s, task);
            && Healthy(w, t, task)
            && RecoverScript(w, t, task) == Script([], RecoverScript(w, s, task).answer)
  {
    RecoverCompletes(w, s, task);
    CrashInRecovery(w, s, task, |RecoverScript(w, s, task).pubs|);
    var pubs := RecoverScript(w, s, task).pubs;
    assert pubs[..|pubs|] == pubs;
    var t := Completed(w, s, task);
    RecoverCompletes(w, t, task);
    SameReceipts(s, t, task);
    FourTurns(w, t, task);
    TurnsAnswer(w, t, RecoverOutputs(w, t, task), task);
    var g := RecoverOutputs(w, t, task);
    EachReceipt(s, task);
    EachReceipt(t, task);
    if g.result.Some? { ReceiptsThere(w, t, g.store, task); }
    BindingAdvances(w, t, g, task);
  }

  /** Recovery may itself die after any publication: the next one finishes the same job. */
  lemma CrashInRecovery(w: World, s: Store, task: Task, k: nat)
    requires Healthy(w, s, task) && k <= |RecoverScript(w, s, task).pubs|
    ensures var t := PutAll(s, RecoverScript(w, s, task).pubs[..k]);
            && Healthy(w, t, task)
            && Completed(w, t, task) == Completed(w, s, task)
            && PutAll(t, RecoverScript(w, t, task).pubs) == Completed(w, s, task)
            && RecoverScript(w, t, task).answer == RecoverScript(w, s, task).answer
  {
    var g := RecoverOutputs(w, s, task);
    FourTurns(w, s, task);
    TurnsAnswer(w, s, RecoverOutputs(w, s, task), task);
    if g.result.Some? { ReceiptsThere(w, s, g.store, task); }
    BindingAdvances(w, s, g, task);
    var t := PutAll(s, RecoverScript(w, s, task).pubs[..k]);
    RecoverCompletes(w, s, task);
    RecoverCompletes(w, t, task);
  }
}
