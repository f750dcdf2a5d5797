/** Idempotent dispatch in the loopback service (`LoopbackService.mutate`): any number of
    processes over one directory of create-only records, each process running one request
    at a time under its idempotency lock, and crashing anywhere. */
module Loopback {
  import opened Wrappers

  const MAX_RECORDS: nat := 512

  type Process = nat

  /** The request digest covers the action, the binding, the authorization, the operation and
      the confirmation; it is the content it covers. */
  datatype Request = Request(operation: string, key: string, digest: Content)

  datatype Content = Content(action: string, binding: nat, authorization: nat, confirmation: string)

  datatype Wrote = Yes | No | Unsure

  /** The projection of a result that the caller sees. */
  datatype Projection = Projection(code: string, outcome: string, wrote: Wrote)

  datatype Slot = IntentOf(operation: string, key: string) | ResultOf(operation: string, key: string)

  datatype Record = Intent(request: Request) | Result(request: Request, projection: Projection)

  type Directory = map<Slot, Record>

  datatype Answer = Completed(projection: Projection) | Attention | Conflict | Refused(code: string)

  /** How one publication ends: the record may be there although an error was raised. */
  datatype Publication = Done | DoneButFailed | NotDone

  /** A dispatch gives a result or raises the service error of its code. */
  datatype Dispatched = Returned(projection: Projection) | Raised(code: string)

  datatype Stage = Looking(request: Request) | Publishing(request: Request) | Dispatching(request: Request)
                 | Storing(request: Request, projection: Projection)

  /** `dispatches` and `answers` are history. */
  datatype State = State(directory: Directory, active: map<Process, Stage>,
                         dispatches: seq<Request>, answers: seq<(Request, Answer)>)

  datatype Act =
    | Enter(p: Process, request: Request)
    | Look(p: Process, fault: bool)
    | PublishIntent(p: Process, how: Publication)
    | Dispatch(p: Process, dispatched: Dispatched)
    | StoreResult(p: Process, how: Publication)
    | Crash(p: Process)

  // ---------------------------------------------------------------- steps

  function IntentSlot(r: Request): Slot { IntentOf(r.operation, r.key) }

  function ResultSlot(r: Request): Slot { ResultOf(r.operation, r.key) }

  function Finish(s: State, p: Process, r: Request, a: Answer): State {
    s.(active := s.active - {p}, answers := s.answers + [(r, a)])
  }

  /** What the directory says about a request. */
  datatype Lookup = Missing | Damaged | Found(answer: Answer)

  function Find(d: Directory, r: Request): Lookup {
    if IntentSlot(r) !in d then Missing
    else
      var first := d[IntentSlot(r)];
      if !first.Intent? then Damaged
      else if ResultSlot(r) in d && (!d[ResultSlot(r)].Result? || d[ResultSlot(r)].request != first.request) then Damaged
      else if first.request.digest != r.digest then Found(Conflict)
      else if ResultSlot(r) !in d then Found(Attention)
      else Found(Completed(d[ResultSlot(r)].projection))
  }

  function LookStep(s: State, p: Process, r: Request, fault: bool): State {
    var found := Find(s.directory, r);
    if fault || found.Damaged? then Finish(s, p, r, Refused("IDEMPOTENCY_RECORD_INVALID"))
    else if found.Found? then Finish(s, p, r, found.answer)
    else if |s.directory| + 2 > MAX_RECORDS then Finish(s, p, r, Refused("IDEMPOTENCY_CAPACITY_REACHED"))
    else s.(active := s.active[p := Publishing(r)])
  }

  function PublishIntentStep(s: State, p: Process, r: Request, how: Publication): State {
    if IntentSlot(r) in s.directory then Finish(s, p, r, Attention)
    else
      var written := s.directory[IntentSlot(r) := Intent(r)];
      match how
      case Done => s.(directory := written, active := s.active[p := Dispatching(r)])
      case DoneButFailed => Finish(s.(directory := written), p, r, Refused("IDEMPOTENCY_PUBLICATION_ATTENTION"))
      case NotDone => Finish(s, p, r, Refused("IDEMPOTENCY_PUBLICATION_ATTENTION"))
  }

  function DispatchStep(s: State, p: Process, r: Request, dispatched: Dispatched): State {
    var sent := s.(dispatches := s.dispatches + [r]);
    match dispatched
    case Returned(projection) => sent.(active := s.active[p := Storing(r, projection)])
    case Raised(code) => Finish(sent, p, r, Refused(code))
  }

  function StoreResultStep(s: State, p: Process, r: Request, projection: Projection, how: Publication): State {
    if ResultSlot(r) in s.directory then Finish(s, p, r, Attention)
    else
      var written := s.directory[ResultSlot(r) := Result(r, projection)];
      match how
      case Done => Finish(s.(directory := written), p, r, Completed(projection))
      case DoneButFailed => Finish(s.(directory := written), p, r, Attention)
      case NotDone => Finish(s, p, r, Attention)
  }

  /** One step; a step its process cannot take leaves the state alone. */
  function Next(s: State, a: Act): State {
    if a.Crash? then s.(active := s.active - {a.p})
    else if a.Enter? then (if a.p in s.active then s else s.(active := s.active[a.p := Looking(a.request)]))
    else if a.p !in s.active then s
    else
      var stage := s.active[a.p];
      match a
      case Look(p, fault) => if stage.Looking? then LookStep(s, p, stage.request, fault) else s
      case PublishIntent(p, how) => if stage.Publishing? then PublishIntentStep(s, p, stage.request, how) else s
      case Dispatch(p, dispatched) => if stage.Dispatching? then DispatchStep(s, p, stage.request, dispatched) else s
      case StoreResult(p, how) => if stage.Storing? then StoreResultStep(s, p, stage.request, stage.projection, how) else s
      case _ => s
  }

  function Play(s: State, acts: seq<Act>): State {
    if acts == [] then s else Next(Play(s, acts[..|acts| - 1]), acts[|acts| - 1])
  }

  // ---------------------------------------------------------------- what every step keeps

  predicate SameKey(a: Request, b: Request) {
    a.operation == b.operation && a.key == b.key
  }

  predicate Known(d: Directory, r: Request) {
    IntentSlot(r) in d && d[IntentSlot(r)] == Intent(r)
  }

  predicate HasDispatched(s: State, r: Request) {
    exists i :: 0 <= i < |s.dispatches| && SameKey(s.dispatches[i], r)
  }

  predicate DirectoryOk(s: State) {
    && (forall slot :: slot in s.directory ==>
                         s.directory[slot].request.operation == slot.operation && s.directory[slot].request.key == slot.key
                         && s.directory[slot].Intent? == slot.IntentOf?)
    && (forall slot :: slot in s.directory && slot.ResultOf? ==>
                         Known(s.directory, s.directory[slot].request) && HasDispatched(s, s.directory[slot].request))
  }

  /** Each dispatch has its intent on disk, and no two dispatches share a key. */
  predicate DispatchesOk(s: State) {
    && (forall i :: 0 <= i < |s.dispatches| ==> Known(s.directory, s.dispatches[i]))
    && (forall i, j :: 0 <= i < j < |s.dispatches| ==> !SameKey(s.dispatches[i], s.dispatches[j]))
  }

  /** A process about to dispatch owns its intent. */
  predicate OwnerOk(s: State, p: Process)
    requires p in s.active
  {
    s.active[p].Dispatching? ==>
      && Known(s.directory, s.active[p].request) && !HasDispatched(s, s.active[p].request)
      && forall q :: q in s.active && q != p && s.active[q].Dispatching? ==>
                       !SameKey(s.active[q].request, s.active[p].request)
  }

  predicate StorerOk(s: State, p: Process)
    requires p in s.active
  {
    s.active[p].Storing? ==> Known(s.directory, s.active[p].request) && HasDispatched(s, s.active[p].request)
  }

  predicate AnswersOk(s: State) {
    forall i :: 0 <= i < |s.answers| && s.answers[i].1.Completed? ==>
                  Find(s.directory, s.answers[i].0) == Found(s.answers[i].1)
  }

  predicate Inv(s: State) {
    && DirectoryOk(s) && DispatchesOk(s) && AnswersOk(s)
    && (forall p :: p in s.active ==> OwnerOk(s, p) && StorerOk(s, p))
  }

  /** Published records never change. */
  predicate Extends(d: Directory, e: Directory) {
    forall slot :: slot in d ==> slot in e && e[slot] == d[slot]
  }

  lemma FindKept(d: Directory, e: Directory, r: Request)
    requires Extends(d, e) && Find(d, r).Found? && Find(d, r).answer.Completed?
    ensures Find(e, r) == Find(d, r)
  {
  }

  lemma FinishKeeps(s: State, p: Process, r: Request, a: Answer)
    requires Inv(s)
    requires a.Completed? ==> Find(s.directory, r) == Found(a)
    ensures Inv(Finish(s, p, r, a))
  {
    var t := Finish(s, p, r, a);
    forall q | q in t.active ensures OwnerOk(t, q) && StorerOk(t, q) {
      assert OwnerOk(s, q) && StorerOk(s, q);
    }
  }

  lemma LookKeeps(s: State, p: Process, r: Request, fault: bool)
    requires Inv(s) && p in s.active && s.active[p] == Looking(r)
    ensures Inv(LookStep(s, p, r, fault))
  {
    var found := Find(s.directory, r);
    if fault || found.Damaged? {
      FinishKeeps(s, p, r, Refused("IDEMPOTENCY_RECORD_INVALID"));
    } else if found.Found? {
      FinishKeeps(s, p, r, found.answer);
    } else if |s.directory| + 2 > MAX_RECORDS {
      FinishKeeps(s, p, r, Refused("IDEMPOTENCY_CAPACITY_REACHED"));
    } else {
      MoveKeeps(s, p, Publishing(r));
    }
  }

  /** Moving to a stage that promises nothing. */
  lemma MoveKeeps(s: State, p: Process, stage: Stage)
    requires Inv(s) && (stage.Looking? || stage.Publishing?)
    ensures Inv(s.(active := s.active[p := stage]))
  {
    var t := s.(active := s.active[p := stage]);
    forall q | q in t.active ensures OwnerOk(t, q) && StorerOk(t, q) {
      if q != p { assert OwnerOk(s, q) && StorerOk(s, q); }
    }
  }

  /** A record in a free slot keeps everything that was known. */
  lemma WriteKeeps(s: State, slot: Slot, record: Record)
    requires Inv(s) && slot !in s.directory && DirectoryOk(s.(directory := s.directory[slot := record]))
    ensures Inv(s.(directory := s.directory[slot := record]))
  {
    var t := s.(directory := s.directory[slot := record]);
    forall i | 0 <= i < |s.answers| && s.answers[i].1.Completed?
      ensures Find(t.directory, s.answers[i].0) == Found(s.answers[i].1)
    {
      FindKept(s.directory, t.directory, s.answers[i].0);
    }
    forall q | q in t.active ensures OwnerOk(t, q) && StorerOk(t, q) {
      assert OwnerOk(s, q) && StorerOk(s, q);
    }
  }

  lemma IntentWritten(s: State, r: Request)
    requires Inv(s) && IntentSlot(r) !in s.directory
    ensures Inv(s.(directory := s.directory[IntentSlot(r) := Intent(r)]))
    ensures !HasDispatched(s, r)
    ensures forall q :: q in s.active && s.active[q].Dispatching? ==> !SameKey(s.active[q].request, r)
  {
    WriteKeeps(s, IntentSlot(r), Intent(r));
    forall q | q in s.active && s.active[q].Dispatching? ensures !SameKey(s.active[q].request, r) {
      assert OwnerOk(s, q);
    }
  }

  lemma PublishIntentKeeps(s: State, p: Process, r: Request, how: Publication)
    requires Inv(s) && p in s.active && s.active[p] == Publishing(r)
    ensures Inv(PublishIntentStep(s, p, r, how))
  {
    if IntentSlot(r) in s.directory {
      FinishKeeps(s, p, r, Attention);
    } else {
      IntentWritten(s, r);
      var written := s.(directory := s.directory[IntentSlot(r) := Intent(r)]);
      match how
      case Done =>
        var t := PublishIntentStep(s, p, r, how);
        forall q | q in t.active ensures OwnerOk(t, q) && StorerOk(t, q) {
          assert OwnerOk(written, q) && StorerOk(written, q);
        }
      case DoneButFailed => FinishKeeps(written, p, r, Refused("IDEMPOTENCY_PUBLICATION_ATTENTION"));
      case NotDone => FinishKeeps(s, p, r, Refused("IDEMPOTENCY_PUBLICATION_ATTENTION"));
    }
  }

  /** Logging the dispatch of the process that owns the intent. */
  lemma DispatchLogged(s: State, p: Process, r: Request)
    requires Inv(s) && p in s.active && s.active[p] == Dispatching(r)
    ensures Inv(s.(dispatches := s.dispatches + [r], active := s.active - {p}))
    ensures Known(s.directory, r)
  {
    var t := s.(dispatches := s.dispatches + [r], active := s.active - {p});
    assert OwnerOk(s, p);
    LoggedMore(s, t, r);
    forall q | q in t.active ensures OwnerOk(t, q) && StorerOk(t, q) {
      assert OwnerOk(s, q) && StorerOk(s, q);
    }
  }

  lemma LoggedMore(s: State, t: State, r: Request)
    requires t.dispatches == s.dispatches + [r]
    ensures forall x :: HasDispatched(t, x) <==> HasDispatched(s, x) || SameKey(r, x)
  {
    forall x | HasDispatched(s, x) || SameKey(r, x) ensures HasDispatched(t, x) {
      if HasDispatched(s, x) {
        var i :| 0 <= i < |s.dispatches| && SameKey(s.dispatches[i], x);
        assert t.dispatches[i] == s.dispatches[i];
      } else {
        assert t.dispatches[|s.dispatches|] == r;
      }
    }
  }

  lemma DispatchKeeps(s: State, p: Process, r: Request, dispatched: Dispatched)
    requires Inv(s) && p in s.active && s.active[p] == Dispatching(r)
    ensures Inv(DispatchStep(s, p, r, dispatched))
  {
    DispatchLogged(s, p, r);
    var logged := s.(dispatches := s.dispatches + [r], active := s.active - {p});
    var t := DispatchStep(s, p, r, dispatched);
    match dispatched
    case Raised(code) =>
      FinishKeeps(logged, p, r, Refused(code));
      assert logged.active - {p} == s.active - {p};
    case Returned(projection) =>
      LoggedMore(s, t, r);
      forall q | q in t.active ensures OwnerOk(t, q) && StorerOk(t, q) {
        if q != p { assert OwnerOk(logged, q) && StorerOk(logged, q); }
      }
  }

  lemma StoreResultKeeps(s: State, p: Process, r: Request, projection: Projection, how: Publication)
    requires Inv(s) && p in s.active && s.active[p] == Storing(r, projection)
    ensures Inv(StoreResultStep(s, p, r, projection, how))
  {
    assert StorerOk(s, p);
    if ResultSlot(r) in s.directory || how.NotDone? {
      FinishKeeps(s, p, r, Attention);
    } else {
      WriteKeeps(s, ResultSlot(r), Result(r, projection));
      var written := s.(directory := s.directory[ResultSlot(r) := Result(r, projection)]);
      FinishKeeps(written, p, r, if how.Done? then Completed(projection) else Attention);
    }
  }

  lemma NextKeeps(s: State, a: Act)
    requires Inv(s)
    ensures Inv(Next(s, a))
  {
    if a.Crash? || a.Enter? {
      var t := Next(s, a);
      forall q | q in t.active ensures OwnerOk(t, q) && StorerOk(t, q) {
        if q in s.active { assert OwnerOk(s, q) && StorerOk(s, q); }
      }
    } else if a.p in s.active {
      var stage := s.active[a.p];
      match a
      case Look(p, fault) => if stage.Looking? { LookKeeps(s, p, stage.request, fault); }
      case PublishIntent(p, how) => if stage.Publishing? { PublishIntentKeeps(s, p, stage.request, how); }
      case Dispatch(p, dispatched) => if stage.Dispatching? { DispatchKeeps(s, p, stage.request, dispatched); }
      case StoreResult(p, how) => if stage.Storing? { StoreResultKeeps(s, p, stage.request, stage.projection, how); }
    }
  }

  /** What a step leaves in place. */
  predicate Grows(s: State, t: State) {
    Extends(s.directory, t.directory) && s.dispatches <= t.dispatches && s.answers <= t.answers
  }

  lemma RecordsGrow(s: State, p: Process, r: Request, projection: Projection, how: Publication)
    ensures Grows(s, PublishIntentStep(s, p, r, how)) && Grows(s, StoreResultStep(s, p, r, projection, how))
  {
  }

  lemma NextGrows(s: State, a: Act)
    ensures Grows(s, Next(s, a))
  {
    if !a.Crash? && !a.Enter? && a.p in s.active {
      var stage := s.active[a.p];
      match a
      case PublishIntent(p, how) => RecordsGrow(s, p, stage.request, Projection("", "", Unsure), how);
      case StoreResult(p, how) => if stage.Storing? { RecordsGrow(s, p, stage.request, stage.projection, how); }
      case _ =>
    }
  }

  lemma {:induction false} PlayKeeps(s: State, acts: seq<Act>)
    requires Inv(s)
    ensures Inv(Play(s, acts))
    ensures Grows(s, Play(s, acts))
  {
    if acts != [] {
      var n := |acts| - 1;
      PlayKeeps(s, acts[..n]);
      NextKeeps(Play(s, acts[..n]), acts[n]);
      NextGrows(Play(s, acts[..n]), acts[n]);
    }
  }

  predicate Starts(s: State) {
    s == State(map[], map[], [], [])
  }

  // ---------------------------------------------------------------- main results

  /** Over any calls, interleavings and restarts, each operation and key is dispatched at most once. */
  lemma AtMostOnce(start: State, acts: seq<Act>, i: nat, j: nat)
    requires Starts(start) && i < j < |Play(start, acts).dispatches|
    ensures !SameKey(Play(start, acts).dispatches[i], Play(start, acts).dispatches[j])
  {
    PlayKeeps(start, acts);
  }

  /** Once a key's intent is on disk, a call with another digest is refused and never dispatches. */
  lemma ConflictNeverDispatches(start: State, acts: seq<Act>, more: seq<Act>, r: Request, other: Request)
    requires Starts(start) && Known(Play(start, acts).directory, r) && SameKey(r, other) && r.digest != other.digest
    ensures var s := Play(Play(start, acts), more);
            && other !in s.dispatches
            && AnsweredFrom(s.directory, other, Conflict)
  {
    PlayKeeps(start, acts);
    PlayKeeps(Play(start, acts), more);
    var s := Play(Play(start, acts), more);
    assert IntentSlot(r) == IntentSlot(other) && s.directory[IntentSlot(r)] == Intent(r);
    assert ResultSlot(r) in s.directory ==> s.directory[ResultSlot(r)].request == r;
  }

  /** A request once answered with success is answered with the same projection ever after. */
  lemma ReplayRepeats(start: State, acts: seq<Act>, more: seq<Act>, i: nat)
    requires Starts(start) && i < |Play(start, acts).answers| && Play(start, acts).answers[i].1.Completed?
    ensures var (r, answer) := Play(start, acts).answers[i];
            && AnsweredFrom(Play(Play(start, acts), more).directory, r, answer)
            && r in Play(start, acts).dispatches
  {
    PlayKeeps(start, acts);
    PlayKeeps(Play(start, acts), more);
  }

  // ---------------------------------------------------------------- capacity

  ghost predicate Alone(acts: seq<Act>, p: Process) {
    forall a :: a in acts ==> a.p == p
  }

  /** The two slots that a request reserves. */
  predicate Reserved(s: State, p: Process) {
    && s.active.Keys <= {p} && |s.directory| <= MAX_RECORDS
    && (p in s.active ==>
          match s.active[p]
          case Looking(_) => true
          case Publishing(_) => |s.directory| + 2 <= MAX_RECORDS
          case Dispatching(_) => |s.directory| + 1 <= MAX_RECORDS
          case Storing(_, _) => |s.directory| + 1 <= MAX_RECORDS)
  }

  lemma ReservedNext(s: State, a: Act)
    requires Reserved(s, a.p)
    ensures Reserved(Next(s, a), a.p)
  {
    if !a.Crash? && !a.Enter? && a.p in s.active {
      var stage := s.active[a.p];
      match a
      case PublishIntent(p, how) =>
        assert IntentSlot(stage.request) !in s.directory ==>
            |s.directory[IntentSlot(stage.request) := Intent(stage.request)]| == |s.directory| + 1;
      case StoreResult(p, how) =>
        assert stage.Storing? && ResultSlot(stage.request) !in s.directory ==>
            |s.directory[ResultSlot(stage.request) := Result(stage.request, stage.projection)]| == |s.directory| + 1;
      case _ =>
    }
  }

  /** One process at a time, restarted as often as it likes, never has more than 512 records on disk. */
  lemma {:induction false} WithinCapacity(start: State, acts: seq<Act>, p: Process)
    requires Starts(start) && Alone(acts, p)
    ensures Reserved(Play(start, acts), p) && |Play(start, acts).directory| <= MAX_RECORDS
  {
    if acts != [] {
      var n := |acts| - 1;
      WithinCapacity(start, acts[..n], p);
      assert acts[n] in acts;
      ReservedNext(Play(start, acts[..n]), acts[n]);
    }
  }

  // ---------------------------------------------------------------- the service

  datatype Binding = Binding(hash: nat, authorization: nat, allowed: set<string>)

  predicate KeyOk(key: string) {
    16 <= |key| <= 200 && forall i :: 0 <= i < |key| ==> 33 <= key[i] as int <= 126
  }

  /** What fails during one call: reading the records, the two publications, the dispatch. */
  datatype Faults = Faults(reading: bool, intent: Publication, dispatched: Dispatched, result: Publication)

  /** A publication leaves its record unless it was not done. */
  function Written(d: Directory, slot: Slot, record: Record, how: Publication): Directory {
    if how.NotDone? then d else d[slot := record]
  }

  /** A key on record is answered from the record: another content is a conflict, an intent alone
      calls for attention, and a result is repeated. */
  predicate AnsweredFrom(d: Directory, r: Request, answer: Answer) {
    && IntentSlot(r) in d
    && answer == (if d[IntentSlot(r)].request.digest != r.digest then Conflict
                  else if ResultSlot(r) !in d then Attention
                  else match d[ResultSlot(r)]
                       case Result(_, projection) => Completed(projection)
                       case Intent(_) => Attention)
  }

  /** A new key is dispatched once its intent is published, and answered with the result once that is. */
  predicate Fulfilled(d: Directory, e: Directory, r: Request, f: Faults, dispatched: seq<Request>, answer: Answer) {
    if !f.intent.Done? then
      dispatched == [] && e == Written(d, IntentSlot(r), Intent(r), f.intent) && answer == Refused("IDEMPOTENCY_PUBLICATION_ATTENTION")
    else
      && dispatched == [r]
      && match f.dispatched
         case Raised(code) => e == d[IntentSlot(r) := Intent(r)] && answer == Refused(code)
         case Returned(projection) =>
           && e == Written(d[IntentSlot(r) := Intent(r)], ResultSlot(r), Result(r, projection), f.result)
           && answer == if f.result.Done? then Completed(projection) else Attention
  }

  /** A request from directory `d` to directory `e`. */
  predicate Served(d: Directory, e: Directory, r: Request, f: Faults, dispatched: seq<Request>, answer: Answer) {
    if f.reading then e == d && dispatched == [] && answer == Refused("IDEMPOTENCY_RECORD_INVALID")
    else if IntentSlot(r) in d then e == d && dispatched == [] && AnsweredFrom(d, r, answer)
    else if |d| + 2 > MAX_RECORDS then e == d && dispatched == [] && answer == Refused("IDEMPOTENCY_CAPACITY_REACHED")
    else Fulfilled(d, e, r, f, dispatched, answer)
  }

  /** The key's intent is on disk, for this content. */
  predicate IntentFor(d: Directory, r: Request, digest: Content) {
    IntentSlot(r) in d && d[IntentSlot(r)].Intent? && d[IntentSlot(r)].request.digest == digest
  }

  class LoopbackService {
    var directory: Directory
    ghost var dispatches: seq<Request>
    ghost var answers: seq<(Request, Answer)>
    ghost const process: Process

    ghost function Now(stage: map<Process, Stage>): State
      reads this
    {
      State(directory, stage, dispatches, answers)
    }

    /** Creation over the records that earlier processes left. */
    constructor (found: Directory, ghost p: Process, ghost d: seq<Request>, ghost a: seq<(Request, Answer)>)
      ensures Now(map[]) == State(found, map[], d, a) && process == p
    {
      directory, dispatches, answers, process := found, d, a, p;
    }

    /** `publish_create_only`: the record may be there although the call fails. */
    method PublishCreateOnly(slot: Slot, record: Record, how: Publication)
      requires slot !in directory
      modifies this`directory
      ensures directory == Written(old(directory), slot, record, how)
    {
      if !how.NotDone? { directory := directory[slot := record]; }
    }

    /** `mutate` by the only process that is running: `acts` are the steps it took. */
    method Mutate(binding: Binding, operation: string, action: string, confirmation: string, expected: string, key: string, faults: Faults)
        returns (answer: Answer, ghost acts: seq<Act>)
      requires Inv(Now(map[]))
      modifies this
      ensures Inv(Now(map[])) && Now(map[]) == Play(old(Now(map[])), acts) && Alone(acts, process)
      ensures Extends(old(directory), directory)
      ensures if action !in binding.allowed || confirmation != expected then
                answer == Refused("CONFIRMATION_REJECTED") && Now(map[]) == old(Now(map[]))
              else if !KeyOk(key) then
                answer == Refused("IDEMPOTENCY_KEY_REJECTED") && Now(map[]) == old(Now(map[]))
              else
                var r := Request(operation, key, Content(action, binding.hash, binding.authorization, confirmation));
                && old(dispatches) <= dispatches && answers == old(answers) + [(r, answer)]
                && Served(old(directory), directory, r, faults, dispatches[|old(dispatches)|..], answer)
    {
      acts := [];
      if action !in binding.allowed || confirmation != expected { return Refused("CONFIRMATION_REJECTED"), acts; }
      if !KeyOk(key) { return Refused("IDEMPOTENCY_KEY_REJECTED"), acts; }
      var r := Request(operation, key, Content(action, binding.hash, binding.authorization, confirmation));
      answer, acts := Serve(r, faults);
    }

    /** The region under the operation lock and the idempotency lock. */
    method Serve(r: Request, faults: Faults) returns (answer: Answer, ghost acts: seq<Act>)
      requires Inv(Now(map[]))
      modifies this
      ensures Inv(Now(map[])) && Now(map[]) == Play(old(Now(map[])), acts) && Alone(acts, process)
      ensures Extends(old(directory), directory)
      ensures old(dispatches) <= dispatches && answers == old(answers) + [(r, answer)]
      ensures Served(old(directory), directory, r, faults, dispatches[|old(dispatches)|..], answer)
    {
      ghost var start, fault := Now(map[]), faults.reading;
      LookIs(start, process, r, fault);
      OnRecord(start, r);
      var known, early := LookUp(r, faults.reading);
      assert known == Early(directory, r, fault).Some? && (known ==> early == Early(directory, r, fault).value);
      acts := [Enter(process, r), Look(process, fault)];
      if known {
        answer := early;
        answers := answers + [(r, answer)];
      } else {
        ghost var more: seq<Act>;
        answer, more := Fulfil(r, faults);
        PlayOver(start, acts, more);
        acts := acts + more;
      }
      PlayKeeps(start, acts);
    }

    /** `_idempotency` and the capacity check: an answer, or a go-ahead. Every answer says what
        is on disk, a record that can be read is always answered from, and a go-ahead means that
        nothing is recorded under the key and both records will fit. */
    method LookUp(r: Request, fault: bool) returns (known: bool, early: Answer)
      ensures !known ==> IntentSlot(r) !in directory && |directory| + 2 <= MAX_RECORDS
      ensures known && early.Completed? ==>
                && IntentFor(directory, r, r.digest) && ResultSlot(r) in directory
                && directory[ResultSlot(r)] == Result(directory[IntentSlot(r)].request, early.projection)
      ensures known && early.Attention? ==> IntentFor(directory, r, r.digest) && ResultSlot(r) !in directory
      ensures known && early.Conflict? ==> exists digest :: digest != r.digest && IntentFor(directory, r, digest)
      ensures known && early.Refused? ==>
                || (early.code == "IDEMPOTENCY_CAPACITY_REACHED" && IntentSlot(r) !in directory && |directory| + 2 > MAX_RECORDS)
                || (early.code == "IDEMPOTENCY_RECORD_INVALID" && (fault || Find(directory, r).Damaged?))
      ensures !fault && Find(directory, r).Found? ==> known && early == Find(directory, r).answer
      ensures fault ==> known && early == Refused("IDEMPOTENCY_RECORD_INVALID")
    {
      var found := Find(directory, r);
      if fault || found.Damaged? { return true, Refused("IDEMPOTENCY_RECORD_INVALID"); }
      if found.Found? {
        assert IntentFor(directory, r, directory[IntentSlot(r)].request.digest);
        return true, found.answer;
      }
      if |directory| + 2 > MAX_RECORDS { return true, Refused("IDEMPOTENCY_CAPACITY_REACHED"); }
      return false, Attention;
    }

    /** Publish the intent, dispatch, publish the result. */
    method Fulfil(r: Request, faults: Faults) returns (answer: Answer, ghost acts: seq<Act>)
      requires IntentSlot(r) !in directory && ResultSlot(r) !in directory
      modifies this
      ensures Now(map[]) == Play(old(Now(map[process := Publishing(r)])), acts) && Alone(acts, process)
      ensures old(dispatches) <= dispatches && answers == old(answers) + [(r, answer)]
      ensures Fulfilled(old(directory), directory, r, faults, dispatches[|old(dispatches)|..], answer)
    {
      ghost var start := Now(map[process := Publishing(r)]);
      PublishCreateOnly(IntentSlot(r), Intent(r), faults.intent);
      PublishIs(start, process, r, faults.intent);
      acts := PlayMore(start, [], PublishIntent(process, faults.intent));
      if !faults.intent.Done? {
        answer := Refused("IDEMPOTENCY_PUBLICATION_ATTENTION");
        answers := answers + [(r, answer)];
        return;
      }
      answer, acts := DispatchAndStore(r, faults, start, acts);
    }

    method DispatchAndStore(r: Request, faults: Faults, ghost start: State, ghost before: seq<Act>)
        returns (answer: Answer, ghost acts: seq<Act>)
      requires ResultSlot(r) !in directory && Alone(before, process)
      requires Play(start, before) == Now(map[process := Dispatching(r)])
      modifies this
      ensures Now(map[]) == Play(start, acts) && Alone(acts, process)
      ensures dispatches == old(dispatches) + [r] && answers == old(answers) + [(r, answer)]
      ensures match faults.dispatched
              case Raised(code) => directory == old(directory) && answer == Refused(code)
              case Returned(projection) =>
                && directory == Written(old(directory), ResultSlot(r), Result(r, projection), faults.result)
                && answer == if faults.result.Done? then Completed(projection) else Attention
    {
      var dispatched := faults.dispatched;
      DispatchIs(Now(map[process := Dispatching(r)]), process, r, dispatched);
      dispatches := dispatches + [r];
      acts := PlayMore(start, before, Dispatch(process, dispatched));
      match dispatched
      case Raised(code) =>
        answer := Refused(code);
        answers := answers + [(r, answer)];
      case Returned(projection) =>
        answer, acts := Store(r, projection, faults.result, start, acts);
    }

    method Store(r: Request, projection: Projection, how: Publication, ghost start: State, ghost before: seq<Act>)
        returns (answer: Answer, ghost acts: seq<Act>)
      requires ResultSlot(r) !in directory && Alone(before, process)
      requires Play(start, before) == Now(map[process := Storing(r, projection)])
      modifies this`directory, this`answers
      ensures Now(map[]) == Play(start, acts) && Alone(acts, process)
      ensures directory == Written(old(directory), ResultSlot(r), Result(r, projection), how)
      ensures answer == (if how.Done? then Completed(projection) else Attention) && answers == old(answers) + [(r, answer)]
    {
      ghost var s := Now(map[process := Storing(r, projection)]);
      PublishCreateOnly(ResultSlot(r), Result(r, projection), how);
      StoreIs(s, process, r, projection, how);
      acts := PlayMore(start, before, StoreResult(process, how));
      answer := if how.Done? then Completed(projection) else Attention;
      answers := answers + [(r, answer)];
    }
  }

  /** The answer that a lookup ends in, if it ends there. */
  function Early(d: Directory, r: Request, fault: bool): Option<Answer> {
    var found := Find(d, r);
    if fault || found.Damaged? then Some(Refused("IDEMPOTENCY_RECORD_INVALID"))
    else if found.Found? then Some(found.answer)
    else if |d| + 2 > MAX_RECORDS then Some(Refused("IDEMPOTENCY_CAPACITY_REACHED"))
    else None
  }

  /** What `Next` amounts to when only one process runs. */
  lemma EnterIs(s: State, p: Process, r: Request)
    requires s.active == map[]
    ensures Next(s, Enter(p, r)) == s.(active := map[p := Looking(r)])
  {
    assert s.active[p := Looking(r)] == map[p := Looking(r)];
  }

  lemma LookStepIs(s: State, p: Process, r: Request, fault: bool)
    requires s.active == map[p := Looking(r)]
    ensures var early := Early(s.directory, r, fault);
            LookStep(s, p, r, fault) ==
            if early.Some? then s.(active := map[], answers := s.answers + [(r, early.value)])
            else s.(active := map[p := Publishing(r)])
  {
    assert s.active - {p} == map[];
    assert s.active[p := Publishing(r)] == map[p := Publishing(r)];
  }

  lemma LookIs(s: State, p: Process, r: Request, fault: bool)
    requires s.active == map[]
    ensures var early := Early(s.directory, r, fault);
            Play(s, [Enter(p, r), Look(p, fault)]) ==
            if early.Some? then s.(answers := s.answers + [(r, early.value)]) else s.(active := map[p := Publishing(r)])
  {
    EnterIs(s, p, r);
    var first := PlayMore(s, [], Enter(p, r));
    var both := PlayMore(s, first, Look(p, fault));
    LookStepIs(s.(active := map[p := Looking(r)]), p, r, fault);
    assert both == [Enter(p, r), Look(p, fault)];
  }

  /** The records of a key are an intent, or an intent and the result of its request, or nothing. */
  lemma OnRecord(s: State, r: Request)
    requires DirectoryOk(s)
    ensures if IntentSlot(r) in s.directory then Find(s.directory, r).Found? && AnsweredFrom(s.directory, r, Find(s.directory, r).answer)
            else Find(s.directory, r).Missing? && ResultSlot(r) !in s.directory
  {
    if ResultSlot(r) in s.directory {
      assert IntentSlot(s.directory[ResultSlot(r)].request) == IntentSlot(r);
    }
  }

  lemma PublishIs(s: State, p: Process, r: Request, how: Publication)
    requires s.active == map[p := Publishing(r)] && IntentSlot(r) !in s.directory
    ensures var d := if how.NotDone? then s.directory else s.directory[IntentSlot(r) := Intent(r)];
            Next(s, PublishIntent(p, how)) ==
            if how.Done? then s.(directory := d, active := map[p := Dispatching(r)])
            else s.(directory := d, active := map[],
                    answers := s.answers + [(r, Refused("IDEMPOTENCY_PUBLICATION_ATTENTION"))])
  {
    assert s.active - {p} == map[];
    assert s.active[p := Dispatching(r)] == map[p := Dispatching(r)];
  }

  lemma DispatchIs(s: State, p: Process, r: Request, dispatched: Dispatched)
    requires s.active == map[p := Dispatching(r)]
    ensures var d := s.dispatches + [r];
            Next(s, Dispatch(p, dispatched)) ==
            if dispatched.Returned? then s.(dispatches := d, active := map[p := Storing(r, dispatched.projection)])
            else s.(dispatches := d, active := map[], answers := s.answers + [(r, Refused(dispatched.code))])
  {
    assert s.active - {p} == map[];
    if dispatched.Returned? {
      assert s.active[p := Storing(r, dispatched.projection)] == map[p := Storing(r, dispatched.projection)];
    }
  }

  lemma StoreIs(s: State, p: Process, r: Request, projection: Projection, how: Publication)
    requires s.active == map[p := Storing(r, projection)] && ResultSlot(r) !in s.directory
    ensures var d := if how.NotDone? then s.directory else s.directory[ResultSlot(r) := Result(r, projection)];
            Next(s, StoreResult(p, how)) ==
            s.(directory := d, active := map[],
               answers := s.answers + [(r, if how.Done? then Completed(projection) else Attention)])
  {
    assert s.active - {p} == map[];
  }

  lemma PlayMore(s: State, acts: seq<Act>, a: Act) returns (more: seq<Act>)
    ensures more == acts + [a] && Play(s, more) == Next(Play(s, acts), a)
  {
    more := acts + [a];
    assert more[..|acts|] == acts;
  }

  lemma {:induction false} PlayOver(s: State, a: seq<Act>, b: seq<Act>)
    ensures Play(s, a + b) == Play(Play(s, a), b)
  {
    if b == [] {
      assert a + b == a;
    } else {
      var n := |b| - 1;
      PlayOver(s, a, b[..n]);
      assert (a + b)[..|a| + n] == a + b[..n];
    }
  }
}
