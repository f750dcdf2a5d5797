/** The same key again: replays publish nothing, whatever became of the first call. */
module AuthoringReplay {
  import opened Wrappers
  import opened AuthoringStore
  import opened AuthoringRecovery
  import opened AuthoringCompletion
  import opened AuthoringRuns
  import opened AuthoringResults

  function OpOf(c: Call): Operation
    requires c.DraftCall? || c.GenerateCall? || c.ExportCall?
  {
    match c
    case DraftCall(_, _, _) => DraftOp
    case GenerateCall(_, _, _) => GenerateOp
    case ExportCall(_, pdf, _) => if pdf then PdfOp else MarkdownOp
  }

  // ---------------------------------------------------------------- the shape of a script

  /** A script that publishes anything follows the order request, intent, output, receipt, binding. */
  ghost predicate InOrder(pubs: seq<Publication>, r: Request, parent: Parent, output: Output) {
    && 0 < |pubs| <= 5 && |pubs| != 3
    && (|pubs| <= 4 ==> pubs == Produce(r, parent, output)[..|pubs|])
    && (|pubs| == 5 ==> pubs[..4] == Produce(r, parent, output) && pubs[4].PutBinding? && pubs[4].binding.task == r.task)
  }

  lemma DraftOrder(w: World, s: Store, task: Task, p: Payload, key: Key) returns (output: Output)
    requires p.ForDraft? && DraftScript(w, s, task, p, key).pubs != []
    ensures var r := Request(task, DraftOp, key, p);
            var pubs := DraftScript(w, s, task, p, key).pubs;
            && InOrder(pubs, r, OfCatalog(p.catalog), output) && |pubs| <= 4 && SameKey(s, r) == {} && CatalogOk(w, p)
            && (task in KnownTasks(s) || |KnownTasks(s)| < MAX_TASKS)
            && (|pubs| > 1 ==> w.readmeOk(p))
            && (|pubs| > 2 ==> w.draftOf(p).Some? && output == DraftOut(w.draftOf(p).value) && (task, DraftOp) !in s.outputs)
  {
    output := if w.draftOf(p).Some? then DraftOut(w.draftOf(p).value) else ExportOut(0);
  }

  lemma GenerateOrder(w: World, s: Store, task: Task, confirmed: Draft, key: Key) returns (output: Output)
    requires GenerateScript(w, s, task, confirmed, key).pubs != []
    ensures var r := Request(task, GenerateOp, key, ForGenerate(confirmed));
            var pubs := GenerateScript(w, s, task, confirmed, key).pubs;
            && InOrder(pubs, r, OfDraft(confirmed), output) && SameKey(s, r) == {}
            && (task, DraftOp) in s.outputs && s.outputs[(task, DraftOp)] == DraftOut(confirmed)
            && (|pubs| > 2 ==> w.resultOf(confirmed).Some? && output == ResultOut(w.resultOf(confirmed).value) && (task, GenerateOp) !in s.outputs)
            && (|pubs| == 5 ==> DraftChain(PutAll(s, Produce(r, OfDraft(confirmed), output)), task).Some?)
  {
    output := if w.resultOf(confirmed).Some? then ResultOut(w.resultOf(confirmed).value) else ExportOut(0);
    var pubs := GenerateScript(w, s, task, confirmed, key).pubs;
    if |pubs| == 5 {
      var b := GenerateBuild(w, s, task, confirmed, key);
    }
  }

  lemma ExportOrder(w: World, s: Store, task: Task, op: Operation, key: Key) returns (output: Output)
    requires ExportScript(w, s, task, op, key).pubs != []
    ensures (task, GenerateOp) in s.outputs && s.outputs[(task, GenerateOp)].ResultOut?
    ensures var d := s.outputs[(task, GenerateOp)].result;
            var r := Request(task, op, key, ForExport(d));
            var pubs := ExportScript(w, s, task, op, key).pubs;
            && InOrder(pubs, r, OfResult(d), output) && |pubs| <= 4 && SameKey(s, r) == {}
            && (|pubs| > 2 ==> w.exportOf(d, op).Some? && output == ExportOut(w.exportOf(d, op).value) && (task, op) !in s.outputs)
  {
    var d := s.outputs[(task, GenerateOp)].result;
    output := ExportOut(if w.exportOf(d, op).Some? then w.exportOf(d, op).value else 0);
  }

  /** The store after `k` publications, up to the receipt. */
  ghost function Grown(s: Store, r: Request, parent: Parent, output: Output, k: nat): Store {
    PutAll(s, Produce(r, parent, output)[..if k <= 4 then k else 4])
  }

  lemma PrefixIs(s: Store, pubs: seq<Publication>, r: Request, parent: Parent, output: Output, k: nat)
    requires InOrder(pubs, r, parent, output) && k <= |pubs|
    ensures k <= 4 ==> PutAll(s, pubs[..k]) == Grown(s, r, parent, output, k)
    ensures k == 5 ==> PutAll(s, pubs[..k]) == Put(Grown(s, r, parent, output, 4), pubs[4])
  {
    var all := Produce(r, parent, output);
    if k <= 4 {
      assert pubs[..k] == all[..k];
    } else {
      PutOne(s, pubs, 4);
      assert pubs[..4] == all[..4];
    }
  }

  // ---------------------------------------------------------------- what stays of a first attempt

  /** The first attempt's request stays for ever, and so does its output once published. */
  lemma AttemptStays(w: World, s: Store, c: Call, k: nat, calls: seq<(Call, nat)>, r: Request, parent: Parent, output: Output)
      returns (v: Store)
    requires Steady(w) && Linked(w, s) && 0 < k <= |ScriptOf(w, s, c).pubs| && InOrder(ScriptOf(w, s, c).pubs, r, parent, output)
    ensures v == Play(w, After(w, s, c, k), calls) && Within(s, v) && Linked(w, v) && r in SameKey(v, r)
    ensures k > 1 ==> Intent(r.task, r.op, r, parent) in v.intents
    ensures k > 2 ==> (r.task, r.op) in v.outputs && v.outputs[(r.task, r.op)] == output
  {
    var t := After(w, s, c, k);
    AfterIs(w, s, c, k);
    AfterKeeps(w, s, c, k);
    Monotone(w, t, calls);
    v := Play(w, t, calls);
    WithinChain(s, t, v);
    AttemptLeft(s, ScriptOf(w, s, c).pubs, r, parent, output, k);
  }

  lemma AttemptLeft(s: Store, pubs: seq<Publication>, r: Request, parent: Parent, output: Output, k: nat)
    requires InOrder(pubs, r, parent, output) && 0 < k <= |pubs|
    ensures var t := PutAll(s, pubs[..k]);
            && r in t.requests
            && (k > 1 ==> Intent(r.task, r.op, r, parent) in t.intents)
            && (k > 2 ==> (r.task, r.op) in t.outputs && t.outputs[(r.task, r.op)] == output)
  {
    PrefixIs(s, pubs, r, parent, output, k);
    ProduceSteps(s, r, parent, output);
  }

  // ---------------------------------------------------------------- replays

  predicate Delivers(a: Answer, output: Output) {
    match a
    case GaveDraft(d) => output == DraftOut(d)
    case GaveResult(d) => output == ResultOut(d)
    case GaveExport(bytes) => output == ExportOut(bytes)
    case _ => false
  }

  /** The answer is the content of the slot, behind a verified request, intent and receipt. */
  ghost predicate FromSlot(s: Store, task: Task, op: Operation, a: Answer) {
    && (task, op) in s.outputs && Delivers(a, s.outputs[(task, op)])
    && exists parent :: ReplayOk(s, task, op, s.outputs[(task, op)], parent)
  }

  /** What a call under a key that has been used for it does. */
  ghost predicate Replays(w: World, v: Store, c: Call, task: Task)
    requires OperationOf(c, task)
  {
    var script := ScriptOf(w, v, c);
    script.pubs == [] && (script.answer.Failed? || FromSlot(v, task, OpOf(c), script.answer))
  }

  lemma DraftReplay(w: World, v: Store, task: Task, p: Payload, key: Key)
    requires p.ForDraft? && Request(task, DraftOp, key, p) in v.requests
    ensures Replays(w, v, DraftCall(task, p, key), task)
  {
    assert Request(task, DraftOp, key, p) in SameKey(v, Request(task, DraftOp, key, p));
  }

  lemma GenerateReplay(w: World, v: Store, task: Task, d: Draft, key: Key)
    requires Request(task, GenerateOp, key, ForGenerate(d)) in v.requests
    requires (task, DraftOp) in v.outputs && v.outputs[(task, DraftOp)] == DraftOut(d)
    ensures Replays(w, v, GenerateCall(task, d, key), task)
  {
    assert Request(task, GenerateOp, key, ForGenerate(d)) in SameKey(v, Request(task, GenerateOp, key, ForGenerate(d)));
  }

  lemma ExportReplay(w: World, v: Store, task: Task, pdf: bool, d: ResultDoc, key: Key)
    requires var op := if pdf then PdfOp else MarkdownOp; Request(task, op, key, ForExport(d)) in v.requests
    requires (task, GenerateOp) in v.outputs && v.outputs[(task, GenerateOp)] == ResultOut(d)
    ensures Replays(w, v, ExportCall(task, pdf, key), task)
  {
    var op := if pdf then PdfOp else MarkdownOp;
    assert Request(task, op, key, ForExport(d)) in SameKey(v, Request(task, op, key, ForExport(d)));
  }

  /** What a first call that published `k` of these records has left in its slot. */
  ghost predicate LeftBy(pubs: seq<Publication>, v: Store, task: Task, op: Operation, k: nat) {
    k > 2 && |pubs| > 2 ==> pubs[2].PutOutput? && (task, op) in v.outputs && v.outputs[(task, op)] == pubs[2].output
  }

  lemma OutputLeft(pubs: seq<Publication>, r: Request, parent: Parent, output: Output, v: Store, k: nat)
    requires InOrder(pubs, r, parent, output)
    requires k > 2 ==> (r.task, r.op) in v.outputs && v.outputs[(r.task, r.op)] == output
    ensures LeftBy(pubs, v, r.task, r.op, k)
  {
    assert |pubs| > 2 ==> pubs[2] == Produce(r, parent, output)[2];
  }

  lemma DraftCallReplays(w: World, s: Store, task: Task, p: Payload, key: Key, k: nat, calls: seq<(Call, nat)>)
    requires Steady(w) && Linked(w, s) && p.ForDraft? && 0 < k <= |DraftScript(w, s, task, p, key).pubs|
    ensures var v := Play(w, After(w, s, DraftCall(task, p, key), k), calls);
            Replays(w, v, DraftCall(task, p, key), task) && LeftBy(DraftScript(w, s, task, p, key).pubs, v, task, DraftOp, k)
  {
    var output := DraftOrder(w, s, task, p, key);
    var r, parent := Request(task, DraftOp, key, p), OfCatalog(p.catalog);
    var v := AttemptStays(w, s, DraftCall(task, p, key), k, calls, r, parent, output);
    OutputLeft(DraftScript(w, s, task, p, key).pubs, r, parent, output, v, k);
    DraftReplay(w, v, task, p, key);
  }

  lemma GenerateCallReplays(w: World, s: Store, task: Task, d: Draft, key: Key, k: nat, calls: seq<(Call, nat)>)
    requires Steady(w) && Linked(w, s) && 0 < k <= |GenerateScript(w, s, task, d, key).pubs|
    ensures var v := Play(w, After(w, s, GenerateCall(task, d, key), k), calls);
            Replays(w, v, GenerateCall(task, d, key), task) && LeftBy(GenerateScript(w, s, task, d, key).pubs, v, task, GenerateOp, k)
  {
    var output := GenerateOrder(w, s, task, d, key);
    var r := Request(task, GenerateOp, key, ForGenerate(d));
    var v := AttemptStays(w, s, GenerateCall(task, d, key), k, calls, r, OfDraft(d), output);
    OutputLeft(GenerateScript(w, s, task, d, key).pubs, r, OfDraft(d), output, v, k);
    GenerateReplay(w, v, task, d, key);
  }

  lemma ExportCallReplays(w: World, s: Store, task: Task, pdf: bool, key: Key, k: nat, calls: seq<(Call, nat)>)
    requires Steady(w) && Linked(w, s) && 0 < k <= |ExportScript(w, s, task, if pdf then PdfOp else MarkdownOp, key).pubs|
    ensures var v := Play(w, After(w, s, ExportCall(task, pdf, key), k), calls);
            var op := if pdf then PdfOp else MarkdownOp;
            Replays(w, v, ExportCall(task, pdf, key), task) && LeftBy(ExportScript(w, s, task, op, key).pubs, v, task, op, k)
  {
    var op := if pdf then PdfOp else MarkdownOp;
    var output := ExportOrder(w, s, task, op, key);
    var d := s.outputs[(task, GenerateOp)].result;
    var r := Request(task, op, key, ForExport(d));
    var v := AttemptStays(w, s, ExportCall(task, pdf, key), k, calls, r, OfResult(d), output);
    OutputLeft(ExportScript(w, s, task, op, key).pubs, r, OfResult(d), output, v, k);
    ExportReplay(w, v, task, pdf, d, key);
  }

  /** The same call again, at any later time and whatever became of the first one — finished,
      refused by a builder, or cut off after any publication: nothing is published, and the
      answer is a failure or the content of the slot with its verified chain; once the first
      call's output was published, that content is the first call's. */
  lemma ReplayPublishesNothing(w: World, s: Store, c: Call, task: Task, k: nat, calls: seq<(Call, nat)>)
    requires Steady(w) && Linked(w, s) && OperationOf(c, task) && 0 < k <= |ScriptOf(w, s, c).pubs|
    ensures var v := Play(w, After(w, s, c, k), calls);
            Replays(w, v, c, task) && LeftBy(ScriptOf(w, s, c).pubs, v, task, OpOf(c), k)
  {
    match c
    case DraftCall(_, p, key) => DraftCallReplays(w, s, task, p, key, k, calls);
    case GenerateCall(_, confirmed, key) => GenerateCallReplays(w, s, task, confirmed, key, k, calls);
    case ExportCall(_, pdf, key) => ExportCallReplays(w, s, task, pdf, key, k, calls);
  }

  /** Nothing of the task is missing at `v`, and nothing is ambiguous. */
  ghost predicate Settled(v: Store, task: Task) { Recoverable(v, task) && Finished(v, task) }

  lemma DraftCallAnswers(w: World, s: Store, task: Task, p: Payload, key: Key, calls: seq<(Call, nat)>)
    requires Steady(w) && Linked(w, s) && p.ForDraft? && |DraftScript(w, s, task, p, key).pubs| > 3
    requires Settled(Play(w, PutAll(s, DraftScript(w, s, task, p, key).pubs), calls), task)
    ensures DraftScript(w, Play(w, PutAll(s, DraftScript(w, s, task, p, key).pubs), calls), task, p, key)
         == Script([], DraftScript(w, s, task, p, key).answer)
  {
    var c := DraftCall(task, p, key);
    var k := |DraftScript(w, s, task, p, key).pubs|;
    AfterIs(w, s, c, k);
    var output := DraftOrder(w, s, task, p, key);
    var r := Request(task, DraftOp, key, p);
    var v := AttemptStays(w, s, c, k, calls, r, OfCatalog(p.catalog), output);
    ChainAgain(w, v, r, OfCatalog(p.catalog));
    DraftAgain(w, v, task, p, key);
    var b := DraftBuild(w, s, task, p, key);
  }

  lemma GenerateCallAnswers(w: World, s: Store, task: Task, d: Draft, key: Key, calls: seq<(Call, nat)>)
    requires Steady(w) && Linked(w, s) && |GenerateScript(w, s, task, d, key).pubs| > 3 && !GenerateScript(w, s, task, d, key).answer.Failed?
    requires Settled(Play(w, PutAll(s, GenerateScript(w, s, task, d, key).pubs), calls), task)
    ensures GenerateScript(w, Play(w, PutAll(s, GenerateScript(w, s, task, d, key).pubs), calls), task, d, key)
         == Script([], GenerateScript(w, s, task, d, key).answer)
  {
    var c := GenerateCall(task, d, key);
    var k := |GenerateScript(w, s, task, d, key).pubs|;
    AfterIs(w, s, c, k);
    var output := GenerateOrder(w, s, task, d, key);
    var r := Request(task, GenerateOp, key, ForGenerate(d));
    var v := AttemptStays(w, s, c, k, calls, r, OfDraft(d), output);
    ChainAgain(w, v, r, OfDraft(d));
    BindingAgain(w, v, task);
    GenerateAgain(w, v, task, d, key);
    var b := GenerateBuild(w, s, task, d, key);
  }

  lemma ExportCallAnswers(w: World, s: Store, task: Task, pdf: bool, key: Key, calls: seq<(Call, nat)>)
    requires var op := if pdf then PdfOp else MarkdownOp;
             && Steady(w) && Linked(w, s) && |ExportScript(w, s, task, op, key).pubs| > 3
             && Settled(Play(w, PutAll(s, ExportScript(w, s, task, op, key).pubs), calls), task)
    ensures var op := if pdf then PdfOp else MarkdownOp;
            ExportScript(w, Play(w, PutAll(s, ExportScript(w, s, task, op, key).pubs), calls), task, op, key)
            == Script([], ExportScript(w, s, task, op, key).answer)
  {
    var op := if pdf then PdfOp else MarkdownOp;
    var c := ExportCall(task, pdf, key);
    var k := |ExportScript(w, s, task, op, key).pubs|;
    AfterIs(w, s, c, k);
    var output := ExportOrder(w, s, task, op, key);
    var d := s.outputs[(task, GenerateOp)].result;
    var r := Request(task, op, key, ForExport(d));
    var v := AttemptStays(w, s, c, k, calls, r, OfResult(d), output);
    ChainAgain(w, v, r, OfResult(d));
    ExportAgain(w, v, task, op, d, key);
    var b := ExportBuild(w, s, task, op, key);
  }

  /** When nothing of the task is missing or ambiguous, replaying a call that ended well gives
      its answer again. */
  lemma ReplayAnswers(w: World, s: Store, c: Call, task: Task, calls: seq<(Call, nat)>)
    requires Steady(w) && Linked(w, s) && Builds(w, s, c, task) && !ScriptOf(w, s, c).answer.Failed?
    requires Settled(Play(w, PutAll(s, ScriptOf(w, s, c).pubs), calls), task)
    ensures ScriptOf(w, Play(w, PutAll(s, ScriptOf(w, s, c).pubs), calls), c) == Script([], ScriptOf(w, s, c).answer)
  {
    match c
    case DraftCall(_, p, key) => DraftCallAnswers(w, s, task, p, key, calls);
    case GenerateCall(_, confirmed, key) => GenerateCallAnswers(w, s, task, confirmed, key, calls);
    case ExportCall(_, pdf, key) => ExportCallAnswers(w, s, task, pdf, key, calls);
  }

  lemma ChainAgain(w: World, v: Store, r: Request, parent: Parent)
    requires Linked(w, v) && Recoverable(v, r.task) && Finished(v, r.task) && (r.task, r.op) in v.outputs
    requires Intent(r.task, r.op, r, parent) in v.intents
    ensures ReplayOk(v, r.task, r.op, v.outputs[(r.task, r.op)], parent)
  {
    TracedLinked(w, v, r.task, r.op);
    OneReceipt(v, r.task, r.op);
    assert Intent(r.task, r.op, r, parent) in Matching(v, r.task, r.op);
  }

  lemma BindingAgain(w: World, v: Store, task: Task)
    requires Linked(w, v) && Recoverable(v, task) && Finished(v, task) && (task, GenerateOp) in v.outputs
    ensures task in v.bindings && BindingOk(w, v, v.bindings[task])
  {
    ReachableHealthy(w, v, task);
    BindingGood(w, v, task);
  }

  lemma NoConflict(w: World, v: Store, r: Request)
    requires Linked(w, v) && r in v.requests
    ensures SameKey(v, r) == {r}
  {
  }

  lemma DraftAgain(w: World, v: Store, task: Task, p: Payload, key: Key)
    requires Linked(w, v) && p.ForDraft? && CatalogOk(w, p) && Request(task, DraftOp, key, p) in v.requests
    requires (task, DraftOp) in v.outputs && ReplayOk(v, task, DraftOp, v.outputs[(task, DraftOp)], OfCatalog(p.catalog))
    ensures v.outputs[(task, DraftOp)].DraftOut?
    ensures DraftScript(w, v, task, p, key) == Script([], GaveDraft(v.outputs[(task, DraftOp)].draft))
  {
    NoConflict(w, v, Request(task, DraftOp, key, p));
    assert OutputLinked(w, v, task, DraftOp);
  }

  lemma GenerateAgain(w: World, v: Store, task: Task, d: Draft, key: Key)
    requires Linked(w, v) && Request(task, GenerateOp, key, ForGenerate(d)) in v.requests
    requires (task, DraftOp) in v.outputs && v.outputs[(task, DraftOp)] == DraftOut(d)
    requires (task, GenerateOp) in v.outputs && ReplayOk(v, task, GenerateOp, v.outputs[(task, GenerateOp)], OfDraft(d))
    requires task in v.bindings && BindingOk(w, v, v.bindings[task])
    ensures v.outputs[(task, GenerateOp)].ResultOut?
    ensures GenerateScript(w, v, task, d, key) == Script([], GaveResult(v.outputs[(task, GenerateOp)].result))
  {
    NoConflict(w, v, Request(task, GenerateOp, key, ForGenerate(d)));
    assert OutputLinked(w, v, task, GenerateOp);
  }

  lemma ExportAgain(w: World, v: Store, task: Task, op: Operation, d: ResultDoc, key: Key)
    requires Linked(w, v) && (op.MarkdownOp? || op.PdfOp?) && Request(task, op, key, ForExport(d)) in v.requests
    requires (task, GenerateOp) in v.outputs && v.outputs[(task, GenerateOp)] == ResultOut(d)
    requires (task, op) in v.outputs && ReplayOk(v, task, op, v.outputs[(task, op)], OfResult(d))
    ensures v.outputs[(task, op)].ExportOut?
    ensures ExportScript(w, v, task, op, key) == Script([], GaveExport(v.outputs[(task, op)].bytes))
  {
    NoConflict(w, v, Request(task, op, key, ForExport(d)));
    assert OutputLinked(w, v, task, op) && OutputLinked(w, v, task, GenerateOp);
  }

  // ---------------------------------------------------------------- another payload under a used key

  lemma DraftConflict(w: World, v: Store, task: Task, p: Payload, q: Payload, key: Key)
    requires p.ForDraft? && q.ForDraft? && p != q && Request(task, DraftOp, key, p) in v.requests
    ensures DraftScript(w, v, task, q, key) == Refuse("IDEMPOTENCY_CONFLICT")
  {
    assert Request(task, DraftOp, key, p) in SameKey(v, Request(task, DraftOp, key, q));
  }

  /** Once a draft call has published its request, its key is refused for any other payload,
      before anything is published. */
  lemma ReusedKeyRefused(w: World, s: Store, task: Task, p: Payload, q: Payload, key: Key, k: nat, calls: seq<(Call, nat)>)
    requires Steady(w) && Linked(w, s) && p.ForDraft? && q.ForDraft? && p != q
    requires 0 < k <= |DraftScript(w, s, task, p, key).pubs|
    ensures DraftScript(w, Play(w, After(w, s, DraftCall(task, p, key), k), calls), task, q, key) == Refuse("IDEMPOTENCY_CONFLICT")
  {
    var output := DraftOrder(w, s, task, p, key);
    var v := AttemptStays(w, s, DraftCall(task, p, key), k, calls, Request(task, DraftOp, key, p), OfCatalog(p.catalog), output);
    DraftConflict(w, v, task, p, q, key);
  }

  /** For results and exports no key can ever carry a second payload: the draft or the result
      that the payload names never changes. */
  lemma OnePayload(w: World, s: Store, q: Request, r: Request)
    requires Linked(w, s) && q in s.requests && r in s.requests && q.task == r.task && q.op == r.op && q.op != DraftOp
    ensures q.payload == r.payload
  {
    assert RequestLinked(s, q) && RequestLinked(s, r);
  }

  lemma GenerateNeverConflicts(w: World, s: Store, task: Task, confirmed: Draft, key: Key)
    requires Linked(w, s)
    ensures GenerateScript(w, s, task, confirmed, key).answer != Failed("IDEMPOTENCY_CONFLICT")
  {
    if (task, DraftOp) in s.outputs && s.outputs[(task, DraftOp)].DraftOut? {
      var r := Request(task, GenerateOp, key, ForGenerate(s.outputs[(task, DraftOp)].draft));
      forall q | q in SameKey(s, r) ensures q.payload == r.payload { assert RequestLinked(s, q); }
    }
  }

  lemma ExportNeverConflicts(w: World, s: Store, task: Task, op: Operation, key: Key)
    requires Linked(w, s) && (op.MarkdownOp? || op.PdfOp?)
    ensures ExportScript(w, s, task, op, key).answer != Failed("IDEMPOTENCY_CONFLICT")
  {
    if (task, GenerateOp) in s.outputs && s.outputs[(task, GenerateOp)].ResultOut? {
      var r := Request(task, op, key, ForExport(s.outputs[(task, GenerateOp)].result));
      forall q | q in SameKey(s, r) ensures q.payload == r.payload { assert RequestLinked(s, q); }
    }
  }
}
