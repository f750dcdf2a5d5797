/** Calls of different tasks whose publications interleave, as the per-task lock of one process
    allows, each possibly cut off anywhere. */
module AuthoringInterleaved {
  import opened Wrappers
  import opened AuthoringStore
  import opened AuthoringRecovery
  import opened AuthoringCompletion
  import opened AuthoringRuns
  import opened AuthoringResults
  import opened AuthoringReplay
  import opened AuthoringBlocking

  type Thread = nat

  /** A call that has begun, and what it has still to publish before its binding. */
  datatype Active = Active(call: Call, left: seq<Publication>)

  datatype Running = Running(store: Store, active: map<Thread, Active>)

  datatype Act =
    | Begin(p: Thread, call: Call)
    | Publish(p: Thread)
    | Bind(p: Thread, receipt: Receipt)
    | Quit(p: Thread)

  const INITIAL: Running := Running(EMPTY, map[])

  /** A script without the binding that may end it: which catalog is there is only seen then. */
  function BeforeBinding(pubs: seq<Publication>): seq<Publication> {
    if pubs != [] && pubs[|pubs| - 1].PutBinding? then pubs[..|pubs| - 1] else pubs
  }

  /** No active call is about the task. */
  predicate TaskFree(s: Running, task: Option<Task>) {
    task.Some? ==> forall q :: q in s.active ==> TaskOf(s.active[q].call) != task
  }

  ghost predicate MayBind(s: Running, p: Thread, r: Receipt) {
    && p in s.active && s.active[p].left == [] && TaskOf(s.active[p].call) == Some(r.task)
    && r in s.store.receipts && r.op == GenerateOp && r.output.ResultOut? && r.task !in s.store.bindings
    && DraftChain(s.store, r.task).Some?
  }

  ghost function Next(w: World, s: Running, act: Act): Running {
    match act
    case Begin(p, call) =>
      if p in s.active || !TaskFree(s, TaskOf(call)) then s
      else s.(active := s.active[p := Active(call, BeforeBinding(ScriptOf(w, s.store, call).pubs))])
    case Publish(p) =>
      if p !in s.active || s.active[p].left == [] then s
      else if !Free(s.store, s.active[p].left[0]) then s.(active := s.active - {p})
      else Running(Put(s.store, s.active[p].left[0]), s.active[p := s.active[p].(left := s.active[p].left[1..])])
    case Bind(p, r) =>
      if !MayBind(s, p, r) then s
      else
        var chain := DraftChain(s.store, r.task).value;
        s.(store := Put(s.store, PutBinding(BindingOf(w, chain.intent.parent.catalog, chain, r))), active := s.active - {p})
    case Quit(p) => s.(active := s.active - {p})
  }

  ghost function Interleave(w: World, s: Running, acts: seq<Act>): Running {
    if acts == [] then s else Next(w, Interleave(w, s, acts[..|acts| - 1]), acts[|acts| - 1])
  }

  // ---------------------------------------------------------------- records of one task

  /** A publication of the task's own records. */
  predicate Own(p: Publication, task: Task) { !p.PutCatalog? && About(p, task) }

  ghost predicate AllOwn(pubs: seq<Publication>, task: Task) {
    forall p :: p in pubs ==> Own(p, task)
  }

  /** The task's own records are the same, and no catalog is lost. */
  ghost predicate SameOwn(s: Store, t: Store, task: Task) {
    && s.catalogs <= t.catalogs
    && (forall r :: r in s.requests + t.requests && r.task == task ==> r in s.requests && r in t.requests)
    && (forall i :: i in s.intents + t.intents && i.task == task ==> i in s.intents && i in t.intents)
    && (forall r :: r in s.receipts + t.receipts && r.task == task ==> r in s.receipts && r in t.receipts)
    && (forall op :: (task, op) in s.outputs <==> (task, op) in t.outputs)
    && (forall op :: (task, op) in s.outputs && (task, op) in t.outputs ==> s.outputs[(task, op)] == t.outputs[(task, op)])
    && (task in s.bindings <==> task in t.bindings)
  }

  lemma OtherPut(s: Store, p: Publication, other: Task, task: Task)
    requires About(p, other) && other != task
    ensures SameOwn(s, Put(s, p), task)
  {
  }

  lemma OwnPut(s: Store, t: Store, p: Publication, task: Task)
    requires SameOwn(s, t, task) && Own(p, task)
    ensures SameOwn(Put(s, p), Put(t, p), task)
  {
  }

  lemma OwnFree(w: World, s: Store, t: Store, p: Publication, task: Task)
    requires SameOwn(s, t, task) && Linked(w, t) && Own(p, task) && Fits(w, s, p)
    ensures Free(t, p)
  {
    match p {
      case PutIntent(i) =>
        forall j | j in t.intents ensures j.request != i.request || j.op != i.op { assert IntentLinked(w, t, j); }
      case PutReceipt(r) =>
        forall q | q in t.receipts ensures q.intent != r.intent || q.output != r.output { assert ReceiptLinked(t, q); }
      case _ =>
    }
  }

  lemma OwnOutput(w: World, s: Store, t: Store, task: Task, op: Operation)
    requires SameOwn(s, t, task) && (task, op) in s.outputs && OutputLinked(w, s, task, op)
    ensures OutputLinked(w, t, task, op)
  {
    var i :| i in Matching(s, task, op);
    assert i in Matching(t, task, op);
  }

  /** What fits beside a task's own records fits whatever other tasks have published. */
  lemma OwnFits(w: World, s: Store, t: Store, p: Publication, task: Task)
    requires SameOwn(s, t, task) && Linked(w, t) && Own(p, task) && Fits(w, s, p)
    ensures Fits(w, t, p)
  {
    OwnFree(w, s, t, p, task);
    match p {
      case PutRequest(r) => assert forall q :: q in SameKey(t, r) ==> q in SameKey(s, r);
      case PutOutput(_, op, output) =>
        OwnPut(s, t, p, task);
        OwnOutput(w, Put(s, p), Put(t, p), task, op);
      case _ =>
    }
  }

  lemma PrefixFits(w: World, s: Store, pubs: seq<Publication>, n: nat)
    requires AllFit(w, s, pubs) && n <= |pubs|
    ensures AllFit(w, s, pubs[..n])
  {
    forall k | 0 <= k < n ensures Fits(w, PutAll(s, pubs[..n][..k]), pubs[..n][k]) { assert pubs[..n][..k] == pubs[..k]; }
  }

  lemma AllFitLinked(w: World, s: Store, pubs: seq<Publication>)
    requires Linked(w, s) && AllFit(w, s, pubs)
    ensures Linked(w, PutAll(s, pubs))
  {
    AllFitKeeps(w, s, pubs, |pubs|);
    assert pubs[..|pubs|] == pubs;
  }

  /** So does a whole list of publications. */
  lemma {:induction false} AllOwnFit(w: World, s: Store, t: Store, pubs: seq<Publication>, task: Task)
    requires SameOwn(s, t, task) && Linked(w, t) && AllOwn(pubs, task) && AllFit(w, s, pubs)
    ensures AllFit(w, t, pubs) && SameOwn(PutAll(s, pubs), PutAll(t, pubs), task)
  {
    if pubs != [] {
      var n: nat := |pubs| - 1;
      var most, last := pubs[..n], pubs[n];
      PrefixFits(w, s, pubs, n);
      AllOwnFit(w, s, t, most, task);
      AllFitLinked(w, t, most);
      assert Fits(w, PutAll(s, most), last) && Own(last, task) by { assert last in pubs; }
      OwnFits(w, PutAll(s, most), PutAll(t, most), last, task);
      OwnPut(PutAll(s, most), PutAll(t, most), last, task);
      FitMore(w, t, most, last);
      assert most + [last] == pubs;
    }
  }

  // ---------------------------------------------------------------- what is left of a call

  lemma {:induction false} PutHead(s: Store, pubs: seq<Publication>)
    requires pubs != []
    ensures PutAll(s, pubs) == PutAll(Put(s, pubs[0]), pubs[1..])
  {
    if |pubs| > 1 {
      var n: nat := |pubs| - 1;
      PutHead(s, pubs[..n]);
      assert pubs[..n][1..] == pubs[1..][..n - 1];
    } else {
      assert pubs[..0] == [];
    }
  }

  lemma RestFits(w: World, s: Store, pubs: seq<Publication>)
    requires AllFit(w, s, pubs) && pubs != []
    ensures Fits(w, s, pubs[0]) && AllFit(w, Put(s, pubs[0]), pubs[1..])
  {
    assert pubs[..0] == [];
    forall k | 0 <= k < |pubs[1..]| ensures Fits(w, PutAll(Put(s, pubs[0]), pubs[1..][..k]), pubs[1..][k]) {
      PutHead(s, pubs[..k + 1]);
      assert pubs[..k + 1][1..] == pubs[1..][..k];
    }
  }

  lemma InOrderOwn(pubs: seq<Publication>, r: Request, parent: Parent, output: Output)
    requires InOrder(pubs, r, parent, output)
    ensures AllOwn(pubs, r.task)
  {
    var all := Produce(r, parent, output);
    if |pubs| == 5 {
      assert pubs == pubs[..4] + [pubs[4]];
    } else {
      assert forall p :: p in pubs ==> p in all;
    }
  }

  lemma ScriptOwn(w: World, s: Store, c: Call, task: Task)
    requires TaskOf(c) == Some(task)
    ensures AllOwn(ScriptOf(w, s, c).pubs, task)
  {
    if ScriptOf(w, s, c).pubs != [] {
      match c
      case DraftCall(_, p, key) =>
        var output := DraftOrder(w, s, task, p, key);
        InOrderOwn(ScriptOf(w, s, c).pubs, Request(task, DraftOp, key, p), OfCatalog(p.catalog), output);
      case GenerateCall(_, d, key) =>
        var output := GenerateOrder(w, s, task, d, key);
        InOrderOwn(ScriptOf(w, s, c).pubs, Request(task, GenerateOp, key, ForGenerate(d)), OfDraft(d), output);
      case ExportCall(_, pdf, key) =>
        var op := if pdf then PdfOp else MarkdownOp;
        var output := ExportOrder(w, s, task, op, key);
        InOrderOwn(ScriptOf(w, s, c).pubs, Request(task, op, key, ForExport(s.outputs[(task, GenerateOp)].result)),
                   OfResult(s.outputs[(task, GenerateOp)].result), output);
      case RecoverCall(_, _) =>
        RecoverAbout(w, s, task);
        RootlessExactly(w, s, task);
        NeverFabricates(w, s, task);
    }
  }

  /** What an active call still has to publish fits the store as it is now. */
  ghost predicate ActiveOk(w: World, s: Store, a: Active) {
    if TaskOf(a.call).Some? then AllOwn(a.left, TaskOf(a.call).value) && AllFit(w, s, a.left)
    else a.left == [] || exists c :: a.left == [PutCatalog(c)]
  }

  ghost predicate Inv(w: World, s: Running) {
    && Linked(w, s.store)
    && (forall p :: p in s.active ==> ActiveOk(w, s.store, s.active[p]))
    && (forall p, q :: p in s.active && q in s.active && p != q && TaskOf(s.active[p].call).Some? ==>
          TaskOf(s.active[p].call) != TaskOf(s.active[q].call))
  }

  lemma BeginOk(w: World, s: Store, c: Call)
    requires Steady(w) && Linked(w, s)
    ensures ActiveOk(w, s, Active(c, BeforeBinding(ScriptOf(w, s, c).pubs)))
  {
    var pubs := ScriptOf(w, s, c).pubs;
    var left := BeforeBinding(pubs);
    if TaskOf(c).Some? {
      ScriptOwn(w, s, c, TaskOf(c).value);
      ScriptFits(w, s, c);
      assert left == pubs[..|left|];
      PrefixFits(w, s, pubs, |left|);
    }
  }

  /** A publication of another call leaves an active call's rest in order. */
  lemma OtherOk(w: World, s: Store, pub: Publication, a: Active)
    requires Linked(w, Put(s, pub)) && ActiveOk(w, s, a)
    requires TaskOf(a.call).Some? ==> exists other :: About(pub, other) && other != TaskOf(a.call).value
    ensures ActiveOk(w, Put(s, pub), a)
  {
    if TaskOf(a.call).Some? {
      var task := TaskOf(a.call).value;
      var other :| About(pub, other) && other != task;
      OtherPut(s, pub, other, task);
      AllOwnFit(w, s, Put(s, pub), a.left, task);
    }
  }

  /** Whom a publication of an active call is about. */
  lemma AboutWhom(s: Running, p: Thread, pub: Publication, task: Task) returns (other: Task)
    requires p in s.active && TaskOf(s.active[p].call) != Some(task)
    requires if TaskOf(s.active[p].call).Some? then Own(pub, TaskOf(s.active[p].call).value) else pub.PutCatalog?
    ensures About(pub, other) && other != task
  {
    other := if TaskOf(s.active[p].call).Some? then TaskOf(s.active[p].call).value else task + "-";
    assert |task + "-"| != |task|;
  }

  /** Any fitting publication of an active call keeps all the others in order. */
  lemma PutKeeps(w: World, s: Running, p: Thread, pub: Publication)
    requires Inv(w, s) && p in s.active && Fits(w, s.store, pub)
    requires if TaskOf(s.active[p].call).Some? then Own(pub, TaskOf(s.active[p].call).value) else pub.PutCatalog?
    ensures Linked(w, Put(s.store, pub))
    ensures forall q :: q in s.active && q != p ==> ActiveOk(w, Put(s.store, pub), s.active[q])
  {
    FitsKeeps(w, s.store, pub);
    forall q | q in s.active && q != p ensures ActiveOk(w, Put(s.store, pub), s.active[q]) {
      if TaskOf(s.active[q].call).Some? { var other := AboutWhom(s, p, pub, TaskOf(s.active[q].call).value); }
      OtherOk(w, s.store, pub, s.active[q]);
    }
  }

  lemma PublishKeeps(w: World, s: Running, p: Thread)
    requires Inv(w, s)
    ensures Inv(w, Next(w, s, Publish(p)))
  {
    if p in s.active && s.active[p].left != [] && Free(s.store, s.active[p].left[0]) {
      var a := s.active[p];
      assert a.left[0] in a.left;
      if TaskOf(a.call).Some? { RestFits(w, s.store, a.left); }
      PutKeeps(w, s, p, a.left[0]);
      if TaskOf(a.call).Some? { assert AllOwn(a.left[1..], TaskOf(a.call).value); }
    }
  }

  lemma BindKeeps(w: World, s: Running, p: Thread, r: Receipt)
    requires Inv(w, s) && MayBind(s, p, r)
    ensures Inv(w, Next(w, s, Bind(p, r)))
  {
    var chain := DraftChain(s.store, r.task).value;
    BindingFits(w, s.store, r.task, chain, r);
    ChainFacts(s.store, r.task);
    PutKeeps(w, s, p, PutBinding(BindingOf(w, chain.intent.parent.catalog, chain, r)));
  }

  lemma NextKeeps(w: World, s: Running, act: Act)
    requires Steady(w) && Inv(w, s)
    ensures Inv(w, Next(w, s, act))
  {
    match act {
      case Begin(p, call) => BeginOk(w, s.store, call);
      case Publish(p) => PublishKeeps(w, s, p);
      case Bind(p, r) => if MayBind(s, p, r) { BindKeeps(w, s, p, r); }
      case Quit(p) =>
    }
  }

  /** However the publications of calls of different tasks interleave, and wherever calls are cut
      off, the store stays linked. */
  lemma {:induction false} InterleavedLinked(w: World, acts: seq<Act>)
    requires Steady(w)
    ensures Inv(w, Interleave(w, INITIAL, acts))
  {
    EmptyLinked(w);
    if acts != [] {
      var n: nat := |acts| - 1;
      InterleavedLinked(w, acts[..n]);
      NextKeeps(w, Interleave(w, INITIAL, acts[..n]), acts[n]);
    }
  }

  /** Nothing that was published is ever lost or altered. */
  lemma {:induction false} InterleavedGrows(w: World, acts: seq<Act>, more: seq<Act>)
    requires Steady(w)
    ensures Within(Interleave(w, INITIAL, acts).store, Interleave(w, INITIAL, acts + more).store)
  {
    if more == [] {
      assert acts + more == acts;
    } else {
      var n: nat := |more| - 1;
      InterleavedGrows(w, acts, more[..n]);
      assert (acts + more)[..|acts + more| - 1] == acts + more[..n];
      var s := Interleave(w, INITIAL, acts + more[..n]);
      InterleavedLinked(w, acts + more[..n]);
      StepGrows(w, s, more[n]);
      WithinChain(Interleave(w, INITIAL, acts).store, s.store, Next(w, s, more[n]).store);
    }
  }

  lemma StepGrows(w: World, s: Running, act: Act)
    ensures Within(s.store, Next(w, s, act).store)
  {
    match act {
      case Publish(p) => if p in s.active && s.active[p].left != [] && Free(s.store, s.active[p].left[0]) { PutWithin(s.store, s.active[p].left[0]); }
      case Bind(p, r) => if MayBind(s, p, r) { ChainFacts(s.store, r.task); }
      case _ =>
    }
  }

  /** The state in which `p` has made `k` more of its publications, and nobody else any. */
  ghost predicate PublishedAlone(s: Running, n: Running, p: Thread, k: nat)
    requires p in s.active && k <= |s.active[p].left|
  {
    && n.store == PutAll(s.store, s.active[p].left[..k])
    && n.active == s.active[p := s.active[p].(left := s.active[p].left[k..])]
  }

  lemma PublishOne(w: World, s: Running, n: Running, p: Thread, k: nat)
    requires Inv(w, n) && p in s.active && TaskOf(s.active[p].call).Some? && k < |s.active[p].left|
    requires PublishedAlone(s, n, p, k)
    ensures PublishedAlone(s, Next(w, n, Publish(p)), p, k + 1)
  {
    var left := s.active[p].left;
    assert left[k..][1..] == left[k + 1..] && left[k..][0] == left[k];
    assert p in n.active && n.active[p] == Active(s.active[p].call, left[k..]);
    assert ActiveOk(w, n.store, n.active[p]);
    RestFits(w, n.store, left[k..]);
    PutOne(s.store, left, k);
  }

  lemma {:induction false} PublishesAlone(w: World, s: Running, p: Thread, k: nat) returns (acts: seq<Act>)
    requires Inv(w, s) && p in s.active && TaskOf(s.active[p].call).Some? && k <= |s.active[p].left|
    ensures Inv(w, Interleave(w, s, acts)) && PublishedAlone(s, Interleave(w, s, acts), p, k)
  {
    if k == 0 {
      acts := [];
      assert s.active[p].left[0..] == s.active[p].left && s.active[p := s.active[p]] == s.active;
    } else {
      var most := PublishesAlone(w, s, p, k - 1);
      var n := Interleave(w, s, most);
      PublishOne(w, s, n, p, k - 1);
      PublishKeeps(w, n, p);
      acts := most + [Publish(p)];
      assert acts[..|acts| - 1] == most;
    }
  }

  /** A call that meets nobody, cut off before its binding, leaves what it leaves in a sequential run. */
  lemma AloneIsSequential(w: World, s: Running, p: Thread, call: Call, k: nat) returns (acts: seq<Act>)
    requires Steady(w) && Inv(w, s) && s.active == map[] && TaskOf(call).Some?
    requires k <= |BeforeBinding(ScriptOf(w, s.store, call).pubs)|
    ensures Interleave(w, Next(w, s, Begin(p, call)), acts).store == After(w, s.store, call, k)
  {
    var n := Next(w, s, Begin(p, call));
    BeginOk(w, s.store, call);
    assert Inv(w, n);
    acts := PublishesAlone(w, n, p, k);
    assert BeforeBinding(ScriptOf(w, s.store, call).pubs)[..k] == ScriptOf(w, s.store, call).pubs[..k];
  }
}
