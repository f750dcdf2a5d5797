/** At most 64 tasks ever have a record, over every run of calls and crashes. */
module AuthoringCapacity {
  import opened Wrappers
  import opened AuthoringStore
  import opened AuthoringRecovery
  import opened AuthoringRuns

  /** The task has a request, an intent or a binding. */
  ghost predicate HasRecord(s: Store, task: Task) {
    || (exists r :: r in s.requests && r.task == task)
    || (exists i :: i in s.intents && i.task == task)
    || task in s.bindings
  }

  lemma KnownIs(s: Store, task: Task)
    ensures task in KnownTasks(s) <==> HasRecord(s, task)
  {
  }

  lemma OutputKnown(w: World, s: Store, task: Task, op: Operation)
    requires Linked(w, s) && (task, op) in s.outputs
    ensures task in KnownTasks(s)
  {
    assert OutputLinked(w, s, task, op);
    var i :| i in Matching(s, task, op);
  }

  lemma RequestKnown(s: Store, r: Request)
    ensures KnownTasks(Put(s, PutRequest(r))) == KnownTasks(s) + {r.task}
  {
    var t := Put(s, PutRequest(r));
    assert r in t.requests && t == s.(requests := t.requests);
  }

  lemma IntentKnown(s: Store, i: Intent)
    ensures KnownTasks(Put(s, PutIntent(i))) == KnownTasks(s) + {i.task}
  {
    var t := Put(s, PutIntent(i));
    assert i in t.intents && t == s.(intents := t.intents);
  }

  lemma OthersKnown(s: Store, p: Publication)
    requires !p.PutRequest? && !p.PutIntent?
    ensures KnownTasks(Put(s, p)) == KnownTasks(s) + if p.PutBinding? then {p.binding.task} else {}
  {
  }

  /** Only the request of a draft can make a task known. */
  lemma PutKnown(w: World, s: Store, p: Publication)
    requires Linked(w, s) && Fits(w, s, p) && !(p.PutRequest? && p.request.op == DraftOp)
    ensures KnownTasks(Put(s, p)) == KnownTasks(s)
  {
    match p
    case PutRequest(r) =>
      OutputKnown(w, s, r.task, if r.op == GenerateOp then DraftOp else GenerateOp);
      RequestKnown(s, r);
    case PutIntent(i) =>
      KnownIs(s, i.task);
      IntentKnown(s, i);
    case PutBinding(b) =>
      assert ReceiptLinked(s, b.draftReceipt);
      KnownIs(s, b.task);
      OthersKnown(s, p);
    case _ => OthersKnown(s, p);
  }

  lemma {:induction false} PutsKnown(w: World, s: Store, pubs: seq<Publication>, k: nat)
    requires Linked(w, s) && AllFit(w, s, pubs) && k <= |pubs|
    requires NoDraftIn(pubs)
    ensures KnownTasks(PutAll(s, pubs[..k])) == KnownTasks(s)
  {
    if k == 0 {
      assert pubs[..0] == [];
    } else {
      var j: nat := k - 1;
      PutsKnown(w, s, pubs, j);
      AllFitKeeps(w, s, pubs, j);
      PutOne(s, pubs, j);
      assert pubs[j] in pubs && Fits(w, PutAll(s, pubs[..j]), pubs[j]);
      PutKnown(w, PutAll(s, pubs[..j]), pubs[j]);
    }
  }

  /** The first publication of a draft, if it has any, is its request, and the task is known or there is room. */
  lemma DraftFirst(w: World, s: Store, task: Task, p: Payload, key: Key)
    requires p.ForDraft? && DraftScript(w, s, task, p, key).pubs != []
    ensures var pubs := DraftScript(w, s, task, p, key).pubs;
            && pubs[0] == PutRequest(Request(task, DraftOp, key, p)) && (forall k :: 1 <= k < |pubs| ==> !pubs[k].PutRequest?)
            && (task in KnownTasks(s) || |KnownTasks(s)| < 64)
  {
  }

  lemma OneMore(s: Store, r: Request)
    requires r.task in KnownTasks(s) || |KnownTasks(s)| < 64
    requires |KnownTasks(s)| <= 64
    ensures |KnownTasks(Put(s, PutRequest(r)))| <= 64
  {
    RequestKnown(s, r);
  }

  lemma RestFits(w: World, s: Store, pubs: seq<Publication>)
    requires pubs != [] && AllFit(w, s, pubs)
    ensures AllFit(w, Put(s, pubs[0]), pubs[1..]) && Fits(w, s, pubs[0])
    ensures forall k :: 0 <= k < |pubs| ==> PutAll(s, pubs[..k + 1]) == PutAll(Put(s, pubs[0]), pubs[1..][..k])
  {
    assert pubs[..0] == [] && Fits(w, PutAll(s, pubs[..0]), pubs[0]);
    forall k | 0 <= k < |pubs| ensures PutAll(s, pubs[..k + 1]) == PutAll(Put(s, pubs[0]), pubs[1..][..k]) {
      HeadFirst(s, pubs, k);
    }
    forall k | 0 <= k < |pubs[1..]| ensures Fits(w, PutAll(Put(s, pubs[0]), pubs[1..][..k]), pubs[1..][k]) {
      assert Fits(w, PutAll(s, pubs[..k + 1]), pubs[k + 1]);
    }
  }

  lemma {:induction false} HeadFirst(s: Store, pubs: seq<Publication>, k: nat)
    requires k < |pubs|
    ensures PutAll(s, pubs[..k + 1]) == PutAll(Put(s, pubs[0]), pubs[1..][..k])
  {
    PutOne(s, pubs, k);
    if k == 0 {
      assert pubs[..0] == [] && pubs[1..][..0] == [];
    } else {
      HeadFirst(s, pubs, k - 1);
      PutOne(Put(s, pubs[0]), pubs[1..], k - 1);
    }
  }

  ghost predicate NoDraftIn(pubs: seq<Publication>) {
    forall p :: p in pubs ==> !(p.PutRequest? && p.request.op == DraftOp)
  }

  lemma GenerateNoDraft(w: World, s: Store, task: Task, confirmed: Draft, key: Key)
    ensures NoDraftIn(GenerateScript(w, s, task, confirmed, key).pubs)
  {
  }

  lemma ExportNoDraft(w: World, s: Store, task: Task, op: Operation, key: Key)
    requires op != DraftOp
    ensures NoDraftIn(ExportScript(w, s, task, op, key).pubs)
  {
  }

  lemma RecoverNoDraft(w: World, s: Store, task: Task)
    ensures NoDraftIn(RecoverScript(w, s, task).pubs) && NoDraftIn(RootlessScript(w, s, task).pubs)
  {
    NeverFabricates(w, s, task);
    RootlessExactly(w, s, task);
  }

  lemma NoDraftRequest(w: World, s: Store, c: Call)
    requires !c.DraftCall?
    ensures NoDraftIn(ScriptOf(w, s, c).pubs)
  {
    match c
    case GenerateCall(task, confirmed, key) => GenerateNoDraft(w, s, task, confirmed, key);
    case ExportCall(task, pdf, key) => ExportNoDraft(w, s, task, if pdf then PdfOp else MarkdownOp, key);
    case RecoverCall(task, root) => RecoverNoDraft(w, s, task);
    case CatalogCall(_) =>
  }

  lemma CallBounded(w: World, s: Store, c: Call, k: nat)
    requires Steady(w) && Linked(w, s) && |KnownTasks(s)| <= 64 && k <= |ScriptOf(w, s, c).pubs|
    ensures |KnownTasks(PutAll(s, ScriptOf(w, s, c).pubs[..k]))| <= 64
  {
    var pubs := ScriptOf(w, s, c).pubs;
    ScriptFits(w, s, c);
    if !c.DraftCall? {
      NoDraftRequest(w, s, c);
      PutsKnown(w, s, pubs, k);
    } else if k > 0 {
      DraftFirst(w, s, c.task, c.payload, c.key);
      DraftBounded(w, s, pubs, k);
    } else {
      assert pubs[..0] == [];
    }
  }

  lemma DraftBounded(w: World, s: Store, pubs: seq<Publication>, k: nat)
    requires Linked(w, s) && AllFit(w, s, pubs) && 0 < k <= |pubs| && |KnownTasks(s)| <= 64
    requires pubs[0].PutRequest? && (pubs[0].request.task in KnownTasks(s) || |KnownTasks(s)| < 64)
    requires forall j :: 1 <= j < |pubs| ==> !pubs[j].PutRequest?
    ensures |KnownTasks(PutAll(s, pubs[..k]))| <= 64
  {
    var j: nat := k - 1;
    RestFits(w, s, pubs);
    HeadFirst(s, pubs, j);
    FitsKeeps(w, s, pubs[0]);
    OneMore(s, pubs[0].request);
    RestHasNone(pubs);
    PutsKnown(w, Put(s, pubs[0]), pubs[1..], j);
  }

  lemma RestHasNone(pubs: seq<Publication>)
    requires pubs != [] && forall j :: 1 <= j < |pubs| ==> !pubs[j].PutRequest?
    ensures NoDraftIn(pubs[1..])
  {
  }

  lemma AfterBounded(w: World, s: Store, c: Call, k: nat)
    requires Steady(w) && Linked(w, s) && |KnownTasks(s)| <= 64
    ensures |KnownTasks(After(w, s, c, k))| <= 64
  {
    var pubs := ScriptOf(w, s, c).pubs;
    CallBounded(w, s, c, if k <= |pubs| then k else |pubs|);
    assert pubs[..|pubs|] == pubs;
  }

  lemma {:induction false} RunBounded(w: World, calls: seq<(Call, nat)>)
    requires Steady(w)
    ensures |KnownTasks(Play(w, EMPTY, calls))| <= 64
  {
    if calls == [] {
      assert KnownTasks(EMPTY) == {};
    } else {
      var n := |calls| - 1;
      var s := Play(w, EMPTY, calls[..n]);
      RunBounded(w, calls[..n]);
      EveryRunLinked(w, calls[..n]);
      AfterBounded(w, s, calls[n].0, calls[n].1);
    }
  }

  /** However calls and crashes follow one another, no more than 64 tasks ever have a record. */
  lemma AtMostSixtyFour(w: World, calls: seq<(Call, nat)>, tasks: set<Task>)
    requires Steady(w) && forall task :: task in tasks ==> HasRecord(Play(w, EMPTY, calls), task)
    ensures |tasks| <= 64
  {
    var s := Play(w, EMPTY, calls);
    forall task | task in tasks ensures task in KnownTasks(s) { KnownIs(s, task); }
    Smaller(tasks, KnownTasks(s));
    RunBounded(w, calls);
  }

  lemma {:induction false} Smaller(a: set<Task>, b: set<Task>)
    requires a <= b
    ensures |a| <= |b|
  {
    if a != {} {
      var x :| x in a;
      Smaller(a - {x}, b - {x});
    }
  }
}
