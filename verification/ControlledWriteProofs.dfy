/** Safety of the controlled-write protocol over every run in which the lock excludes. */
module ControlledWriteProofs {
  import opened Wrappers
  import opened Records
  import opened Ledger
  import opened Operation
  import opened OperationProofs
  import opened OperationProgress
  import opened ControlledWrite
  import L = LockFile

  lemma SpoiledOk(op: Op, t: Target, u: Target)
    requires OpOk(op, t)
    ensures OpOk(op.(clean := false), u)
  {}

  lemma SpoiledRunOk(op: Op, r: Run)
    requires RunOk(op, r)
    ensures RunOk(op.(clean := false), r)
  {}

  /** A manifest stays the manifest while the ledger grows. */
  lemma ManifestStays(op: Op, grown: Op)
    requires Accepted(grown.ledger, op.auth) && grown.auth == op.auth && op.ledger <= grown.ledger
    requires |grown.ledger| <= |op.ledger| + 1 && ManifestOf(op.ledger).Some?
    ensures ManifestOf(grown.ledger).Some?
  {
    if grown.ledger != op.ledger {
      assert grown.ledger == op.ledger + [grown.ledger[|op.ledger|]];
      Grow(op.ledger, grown.ledger[|op.ledger|]);
    } else {
      assert grown.ledger == op.ledger;
    }
  }

  // ---------- Preservation ----------

  lemma OtherOpKept(s: State, p: Pid, o: Outcome, other: string)
    requires p in s.runs && s.runs[p].operation in s.ops && other in s.ops && other != s.runs[p].operation
    requires OpOk(s.ops[other], s.target) && (!o.replaced ==> o.target == s.target)
    ensures OpOk(WithOutcome(s, p, o).ops[other], o.target)
  {
    if o.replaced { SpoiledOk(s.ops[other], s.target, o.target); }
  }

  /** What a restore authorization is bound to in its source never changes. */
  lemma SourceKept(s: State, p: Pid, o: Outcome, op: Op)
    requires p in s.runs && s.runs[p].operation in s.ops
    requires Framed(s.ops[s.runs[p].operation], s.target, s.runs[p], o)
    requires Accepted(o.op.ledger, o.op.auth) && SourceOk(s.ops, op)
    ensures SourceOk(WithOutcome(s, p, o).ops, op)
    ensures op == s.ops[s.runs[p].operation] ==> SourceOk(WithOutcome(s, p, o).ops, o.op)
    ensures SourceOk(WithOutcome(s, p, o).ops, op.(clean := false))
  {
    var mine := s.ops[s.runs[p].operation];
    if ManifestOf(mine.ledger).Some? { ManifestStays(mine, o.op); }
  }

  lemma RunsKept(s: State, p: Pid, o: Outcome)
    requires LockOk(s) && RunsOk(s) && p in s.runs && RunOk(o.op, o.run)
    requires Framed(s.ops[s.runs[p].operation], s.target, s.runs[p], o)
    ensures RunsOk(WithOutcome(s, p, o)) && LockOk(WithOutcome(s, p, o))
  {
    var n := WithOutcome(s, p, o);
    forall q | q in n.runs ensures q == p {
      L.OneCritical(s.lock, p, q);
    }
  }

  /** Any step that keeps its own operation keeps the whole state: it alone is in
      the lock, and other operations at most find the target changed. */
  lemma OutcomeKeeps(s: State, p: Pid, o: Outcome)
    requires Inv(s) && p in s.runs && Kept(o)
    requires Framed(s.ops[s.runs[p].operation], s.target, s.runs[p], o)
    ensures Inv(WithOutcome(s, p, o))
  {
    var id, n := s.runs[p].operation, WithOutcome(s, p, o);
    RunsKept(s, p, o);
    forall other | other in n.ops ensures OpOk(n.ops[other], n.target) && SourceOk(n.ops, n.ops[other]) {
      SourceKept(s, p, o, s.ops[other]);
      if other != id { OtherOpKept(s, p, o, other); }
    }
  }

  lemma WorkKeeps(s: State, p: Pid, ch: Choice)
    requires Inv(s)
    ensures Inv(WorkStep(s, p, ch))
  {
    if p in s.runs {
      var op := s.ops[s.runs[p].operation];
      StepKeeps(op, s.target, s.runs[p], ch, Evidence(s, op));
      OutcomeKeeps(s, p, Step(op, s.target, s.runs[p], ch, Evidence(s, op)));
    }
  }

  lemma WithLockKeeps(s: State, p: Pid, lock: L.State)
    requires Inv(s) && L.Inv(lock)
    requires forall q :: q != p ==> L.At(lock, q) == L.At(s.lock, q)
    requires forall q :: q in lock.procs && Claims(lock.procs[q]) ==> lock.procs[q].claim in s.ops
    requires L.Critical(s.lock, p) && L.Critical(lock, p) ==> L.At(lock, p).claim == L.At(s.lock, p).claim
    ensures Inv(WithLock(s, p, lock))
  {
    WithLockLockOk(s, p, lock);
    WithLockRunsOk(s, p, lock);
  }

  lemma WithLockLockOk(s: State, p: Pid, lock: L.State)
    requires LockOk(s) && L.Inv(lock)
    requires forall q :: q != p ==> L.At(lock, q) == L.At(s.lock, q)
    requires forall q :: q in lock.procs && Claims(lock.procs[q]) ==> lock.procs[q].claim in s.ops
    ensures LockOk(WithLock(s, p, lock))
  {
    var n := WithLock(s, p, lock);
    forall q ensures q in n.runs <==> L.Critical(n.lock, q) {
      if q != p { assert q in s.runs <==> L.Critical(s.lock, q); }
    }
  }

  lemma WithLockRunsOk(s: State, p: Pid, lock: L.State)
    requires LockOk(s) && RunsOk(s)
    requires forall q :: q != p ==> L.At(lock, q) == L.At(s.lock, q)
    requires forall q :: q in lock.procs && Claims(lock.procs[q]) ==> lock.procs[q].claim in s.ops
    requires L.Critical(s.lock, p) && L.Critical(lock, p) ==> L.At(lock, p).claim == L.At(s.lock, p).claim
    ensures RunsOk(WithLock(s, p, lock))
  {
  }

  lemma LockKeeps(s: State, p: Pid, a: L.Act)
    requires Inv(s) && !a.LateFails?
    ensures Inv(LockStep(s, p, a))
  {
    if LockStepAllowed(s, p, a) {
      L.StepKeepsInv(s.lock, p, a);
      ClaimKept(s, p, a);
      OthersStay(s.lock, p, a);
      if L.Critical(s.lock, p) && L.Critical(L.Step(s.lock, p, a), p) { CriticalKeepsClaim(s.lock, p, a); }
      WithLockKeeps(s, p, L.Step(s.lock, p, a));
    }
  }

  lemma OthersStay(s: L.State, p: Pid, a: L.Act)
    ensures forall q :: q != p ==> L.At(L.Step(s, p, a), q) == L.At(s, q)
  {}

  lemma CriticalKeepsClaim(s: L.State, p: Pid, a: L.Act)
    requires L.Critical(s, p) && L.Critical(L.Step(s, p, a), p)
    ensures L.At(L.Step(s, p, a), p).claim == L.At(s, p).claim
  {}

  lemma ClaimKept(s: State, p: Pid, a: L.Act)
    requires LockOk(s) && LockStepAllowed(s, p, a)
    ensures var lock := L.Step(s.lock, p, a);
            forall q :: q in lock.procs && Claims(lock.procs[q]) ==> lock.procs[q].claim in s.ops
  {
    OthersStay(s.lock, p, a);
    var lock := L.Step(s.lock, p, a);
    forall q | q in lock.procs && Claims(lock.procs[q]) ensures lock.procs[q].claim in s.ops {
      if q != p { assert L.At(lock, q) == L.At(s.lock, q); }
    }
  }

  lemma DisturbKeeps(s: State, t: Target)
    requires Inv(s)
    ensures Inv(Next(s, Disturb(t)))
  {
    var n := Next(s, Disturb(t));
    forall id | id in n.ops ensures OpOk(n.ops[id], n.target) && SourceOk(n.ops, n.ops[id]) {
      SpoiledOk(s.ops[id], s.target, t);
    }
    forall q | q in n.runs ensures RunOk(n.ops[n.runs[q].operation], n.runs[q]) {
      SpoiledRunOk(s.ops[s.runs[q].operation], s.runs[q]);
    }
  }

  lemma AddingKeeps(s: State, id: string, op: Op)
    requires Inv(s) && id !in s.ops && OpOk(op, s.target) && SourceOk(s.ops, op)
    ensures Inv(s.(ops := s.ops[id := op]))
  {
    var n := s.(ops := s.ops[id := op]);
    assert LockOk(n);
    AddingOpsOk(s, id, op);
    forall p | p in n.runs
      ensures L.Critical(n.lock, p) && n.runs[p].operation == L.At(n.lock, p).claim
      ensures n.runs[p].operation in n.ops && RunOk(n.ops[n.runs[p].operation], n.runs[p])
    {
      assert s.runs[p].operation in s.ops;
    }
  }

  lemma AddingOpsOk(s: State, id: string, op: Op)
    requires OpsOk(s) && id !in s.ops && OpOk(op, s.target) && SourceOk(s.ops, op)
    ensures OpsOk(s.(ops := s.ops[id := op]))
  {
  }

  lemma FreshOpOk(op: Op, t: Target)
    requires op.ledger == [] && op.backup.None? && op.replacements == 0 && op.clean
    requires t.file.Some? && Observe(t.file.value) == op.auth.current && InPlace(t, op.auth)
    requires op.auth.current.sha != op.auth.desiredSha
    ensures OpOk(op, t)
  {}

  /** A committed, undisturbed apply left its image, which is not the one it started from. */
  lemma CommittedImage(op: Op, t: Target, evidence: Option<Bytes>)
    requires OpOk(op, t) && Check(op, t, evidence) == Decided(Committed) && LastIsReceipt(op)
    ensures t.file.Some? && OfBytes(t.file.value.content) == op.auth.desiredSha
    ensures ManifestOf(op.ledger).Some?
  {
    ReceiptFacts(op);
    LatestPostShows(op);
  }

  lemma AuthorizeRestoreKeeps(s: State, id: string, nonce: string, hash: Digest, source: string)
    requires Inv(s)
    ensures Inv(AuthorizeRestoreStep(s, id, nonce, hash, source))
  {
    var n := AuthorizeRestoreStep(s, id, nonce, hash, source);
    if id !in s.ops && Restorable(s, source) && s.target.file.Some? && BackupMatches(s.ops[source]) {
      CommittedImage(s.ops[source], s.target, Evidence(s, s.ops[source]));
      FreshOpOk(n.ops[id], s.target);
      AddingKeeps(s, id, n.ops[id]);
    }
  }

  lemma NextKeeps(s: State, act: Act)
    requires Inv(s) && !Late(act)
    ensures Inv(Next(s, act))
  {
    match act {
      case Lock(p, a) => LockKeeps(s, p, a);
      case Work(p, ch) => WorkKeeps(s, p, ch);
      case Disturb(t) => DisturbKeeps(s, t);
      case Authorize(id, nonce, hash, proposal) =>
        var n := AuthorizeStep(s, id, nonce, hash, proposal);
        if n != s {
          FreshOpOk(n.ops[id], s.target);
          AddingKeeps(s, id, n.ops[id]);
        }
      case AuthorizeRestore(id, nonce, hash, source) => AuthorizeRestoreKeeps(s, id, nonce, hash, source);
    }
  }

  lemma {:induction false} PlayKeeps(s: State, acts: seq<Act>)
    requires Inv(s) && NoLateFailure(acts)
    ensures Inv(Play(s, acts))
    decreases |acts|
  {
    if acts != [] {
      NextKeeps(s, acts[0]);
      PlayKeeps(Next(s, acts[0]), acts[1..]);
    }
  }

  lemma Reachable(t: Target, acts: seq<Act>)
    requires NoLateFailure(acts)
    ensures Inv(Play(Initial(t), acts))
  {
    PlayKeeps(Initial(t), acts);
  }

  // ---------- Main results ----------

  /** The target only ever changes from outside or by a replacement whose dispatch
      is in the ledger of a not yet terminated operation, and that operation's
      count goes up with it. */
  lemma EveryChangeIsDispatched(s: State, act: Act) returns (id: string)
    requires Inv(s) && !act.Disturb? && Next(s, act).target != s.target
    ensures id in s.ops && HasDispatch(s.ops[id].ledger) && !Terminated(s.ops[id].ledger)
    ensures s.ops[id].replacements == 0 && Next(s, act).ops[id].replacements == 1
    ensures Next(s, act).target.file.Some? && ShowsDesired(Next(s, act).target.file.value, s.ops[id].auth)
  {
    match act {
      case Work(p, ch) => id := WorkChange(s, p, ch);
    }
  }

  /** An outcome that changes the target is a dispatched replacement. */
  lemma ReplacementFacts(op: Op, t: Target, r: Run, o: Outcome)
    requires OpOk(op, t) && RunOk(op, r) && Framed(op, t, r, o) && o.target != t
    requires o.replaced ==> r.stage.Replacing? && o.target == t.(file := Some(r.staged))
    ensures HasDispatch(op.ledger) && !Terminated(op.ledger)
    ensures op.replacements == 0 && o.op.replacements == 1
    ensures o.target.file.Some? && ShowsDesired(o.target.file.value, op.auth)
  {
  }

  lemma WorkChange(s: State, p: Pid, ch: Choice) returns (id: string)
    requires Inv(s) && WorkStep(s, p, ch).target != s.target
    ensures id in s.ops && HasDispatch(s.ops[id].ledger) && !Terminated(s.ops[id].ledger)
    ensures s.ops[id].replacements == 0 && WorkStep(s, p, ch).ops[id].replacements == 1
    ensures WorkStep(s, p, ch).target.file.Some? && ShowsDesired(WorkStep(s, p, ch).target.file.value, s.ops[id].auth)
  {
    id := s.runs[p].operation;
    var r := s.runs[p];
    var op := s.ops[id];
    ReplacementFacts(op, s.target, r, Step(op, s.target, r, ch, Evidence(s, op)));
  }

  lemma TerminalOutcome(op: Op, t: Target, r: Run, o: Outcome)
    requires OpOk(op, t) && RunOk(op, r) && LastIsReceipt(op)
    requires Framed(op, t, r, o) && Kept(o) && (o.replaced ==> r.stage.Replacing?)
    ensures o.op.ledger == op.ledger && o.op.replacements == op.replacements
  {
    TerminatedIsLast(op);
    if |o.op.ledger| > |op.ledger| {
      OrderOfKinds(o.op.ledger, op.auth, |op.ledger| - 1, |op.ledger|);
    }
  }

  lemma TerminalWork(s: State, p: Pid, ch: Choice, id: string)
    requires Inv(s) && id in s.ops && LastIsReceipt(s.ops[id]) && p in s.runs
    ensures id in WorkStep(s, p, ch).ops
    ensures WorkStep(s, p, ch).ops[id].ledger == s.ops[id].ledger
    ensures WorkStep(s, p, ch).ops[id].replacements == s.ops[id].replacements
  {
    if s.runs[p].operation == id {
      var op, r := s.ops[id], s.runs[p];
      StepKeeps(op, s.target, r, ch, Evidence(s, op));
      TerminalOutcome(op, s.target, r, Step(op, s.target, r, ch, Evidence(s, op)));
    }
  }

  /** After a receipt nothing is appended and nothing is replaced any more. */
  lemma TerminalStep(s: State, act: Act, id: string)
    requires Inv(s) && id in s.ops && LastIsReceipt(s.ops[id])
    ensures id in Next(s, act).ops
    ensures Next(s, act).ops[id].ledger == s.ops[id].ledger
    ensures Next(s, act).ops[id].replacements == s.ops[id].replacements
  {
    match act {
      case Work(p, ch) => if p in s.runs { TerminalWork(s, p, ch, id); }
      case _ =>
    }
  }

  lemma {:induction false} TerminalForever(s: State, acts: seq<Act>, id: string)
    requires Inv(s) && id in s.ops && LastIsReceipt(s.ops[id]) && NoLateFailure(acts)
    ensures id in Play(s, acts).ops
    ensures Play(s, acts).ops[id].ledger == s.ops[id].ledger
    ensures Play(s, acts).ops[id].replacements == s.ops[id].replacements
    decreases |acts|
  {
    if acts != [] {
      TerminalStep(s, acts[0], id);
      NextKeeps(s, acts[0]);
      TerminalForever(Next(s, acts[0]), acts[1..], id);
    }
  }

  /** COMMITTED exactly when the replacement happened, in every undisturbed run in which the
      lock excludes. */
  lemma VerdictIsTrue(t: Target, acts: seq<Act>, id: string)
    requires id in Play(Initial(t), acts).ops && NoLateFailure(acts)
    requires Play(Initial(t), acts).ops[id].clean && LastIsReceipt(Play(Initial(t), acts).ops[id])
    ensures var op := Play(Initial(t), acts).ops[id];
            op.ledger[|op.ledger|-1].payload.body.terminal == Committed <==> op.replacements == 1
  {
    Reachable(t, acts);
    var s := Play(Initial(t), acts);
    ReceiptFacts(s.ops[id]);
  }
}
