/** The bounded telemetry pump (`BoundedTelemetry`): callers, one closer and one worker
    thread over shared counters and a bounded queue. */
module Telemetry {
  datatype Record = Record(traceId: nat, payload: nat)

  datatype Export = Success | Failure | Timeout

  /** Where the worker is between its lock regions. */
  datatype Worker = Polling | FoundEmpty | Holding(item: Record) | Exporting(item: Record) | Exited

  /** Where the one closing call that finalises is. */
  datatype Closer = NotClosing | Joining | Draining | Finished

  datatype Counters = Counters(submitted: int, emitted: int, queued: int, inFlight: int, exported: int,
                               dropped: int, failures: int, timeouts: int, sampledOut: int)

  type Positive = n: int | n > 0 witness 1

  datatype Config = Config(capacity: nat, sampleEvery: Positive)

  /** `accepted` and `sent` are history: the records put on the queue and those handed to the exporter. */
  datatype State = State(counters: Counters, queue: seq<Record>, closed: bool, finalized: bool, circuitOpen: bool,
                         worker: Worker, closer: Closer, accepted: seq<Record>, sent: seq<Record>)

  datatype Act =
    | Emit(record: Record)
    | BeginClose
    | JoinEnds
    | DrainOne
    | Finalize(alive: bool)
    | Get
    | GetTimesOut
    | NoticeClose
    | Take
    | Finish(result: Export)

  const ZERO: Counters := Counters(0, 0, 0, 0, 0, 0, 0, 0, 0)

  /** Nothing has happened yet. */
  predicate Starts(s: State) {
    s == State(ZERO, [], false, false, false, Polling, NotClosing, [], [])
  }

  predicate Sampled(c: Config, r: Record)
  {
    r.traceId % c.sampleEvery == 0
  }

  // ---------------------------------------------------------------- steps

  function EmitStep(c: Config, s: State, r: Record): State
  {
    var n := s.counters;
    if s.closed then s
    else if !Sampled(c, r) then s.(counters := n.(submitted := n.submitted + 1, sampledOut := n.sampledOut + 1))
    else if s.circuitOpen || |s.queue| >= c.capacity then
      s.(counters := n.(submitted := n.submitted + 1, dropped := n.dropped + 1))
    else
      s.(counters := n.(submitted := n.submitted + 1, emitted := n.emitted + 1, queued := n.queued + 1),
         queue := s.queue + [r], accepted := s.accepted + [r])
  }

  function FinalizeStep(s: State, alive: bool): State {
    var n := s.counters;
    var m := if alive then n.(timeouts := n.timeouts + n.inFlight, inFlight := 0) else n;
    s.(counters := m.(dropped := m.dropped + m.queued, queued := 0),
       circuitOpen := s.circuitOpen || alive, finalized := true, closer := Finished)
  }

  function TakeStep(s: State): State
    requires s.worker.Holding?
  {
    var n := s.counters;
    if s.finalized then s.(worker := Exited)
    else if s.circuitOpen then s.(counters := n.(queued := n.queued - 1, dropped := n.dropped + 1), worker := Polling)
    else s.(counters := n.(queued := n.queued - 1, inFlight := n.inFlight + 1),
            worker := Exporting(s.worker.item), sent := s.sent + [s.worker.item])
  }

  function FinishStep(s: State, result: Export): State
    requires s.worker.Exporting?
  {
    var n := s.counters.(inFlight := s.counters.inFlight - 1);
    if s.finalized then s.(worker := Exited)
    else match result
      case Success => s.(counters := n.(exported := n.exported + 1), worker := Polling)
      case Failure => s.(counters := n.(failures := n.failures + 1), worker := Polling)
      case Timeout =>
        s.(counters := n.(timeouts := n.timeouts + 1, dropped := n.dropped + |s.queue|, queued := n.queued - |s.queue|),
           queue := [], circuitOpen := true, worker := Exited)
  }

  /** One step of one thread; a step that cannot be taken leaves the state alone. A region under the
      state lock is one step, except that the worker may take from the queue while the closer drains. */
  function Next(c: Config, s: State, a: Act): State
  {
    var free := !s.closer.Draining?;
    match a
    case Emit(r) => if free then EmitStep(c, s, r) else s
    case BeginClose => if s.closed then s else s.(closed := true, closer := Joining)
    case JoinEnds => if s.closer.Joining? then s.(closer := Draining) else s
    case DrainOne =>
      if s.closer.Draining? && s.queue != [] then
        s.(queue := s.queue[1..],
           counters := s.counters.(dropped := s.counters.dropped + 1, queued := s.counters.queued - 1))
      else s
    case Finalize(alive) =>
      if s.closer.Draining? && s.queue == [] && (alive || s.worker.Exited?) then FinalizeStep(s, alive) else s
    case Get => if s.worker.Polling? && s.queue != [] then s.(worker := Holding(s.queue[0]), queue := s.queue[1..]) else s
    case GetTimesOut => if s.worker.Polling? && s.queue == [] then s.(worker := FoundEmpty) else s
    case NoticeClose =>
      if s.worker.FoundEmpty? && free then s.(worker := if s.closed || s.circuitOpen then Exited else Polling) else s
    case Take => if s.worker.Holding? && free then TakeStep(s) else s
    case Finish(result) => if s.worker.Exporting? && free then FinishStep(s, result) else s
  }

  function Play(c: Config, s: State, acts: seq<Act>): State
  {
    if acts == [] then s else Next(c, Play(c, s, acts[..|acts| - 1]), acts[|acts| - 1])
  }

  // ---------------------------------------------------------------- what every step keeps

  function Held(s: State): seq<Record> {
    if s.worker.Holding? then [s.worker.item] else []
  }

  predicate IsPrefix(a: seq<Record>, b: seq<Record>) {
    |a| <= |b| && a == b[..|a|]
  }

  /** The accepted records are those sent, the one in the worker's hand and those queued, in this order. */
  predicate InLine(s: State) {
    s.accepted == s.sent + Held(s) + s.queue
  }

  /** Every submitted record is in exactly one place. */
  predicate Conserved(n: Counters) {
    n.submitted == n.sampledOut + n.dropped + n.queued + n.inFlight + n.exported + n.failures + n.timeouts
  }

  predicate NonNegative(n: Counters) {
    && 0 <= n.queued && 0 <= n.inFlight && 0 <= n.exported && 0 <= n.dropped
    && 0 <= n.failures && 0 <= n.timeouts && 0 <= n.sampledOut
  }

  predicate Inv(c: Config, s: State) {
    && Conserved(s.counters) && NonNegative(s.counters)
    && |s.queue| <= c.capacity
    && s.counters.emitted == |s.accepted|
    && IsPrefix(s.sent, s.accepted)
    && s.closed == !s.closer.NotClosing? && s.finalized == s.closer.Finished?
    && (s.finalized ==> s.queue == [] && s.counters.queued == 0 && s.counters.inFlight == 0)
    && (!s.finalized ==>
          && s.counters.queued == |s.queue| + |Held(s)|
          && s.counters.inFlight == if s.worker.Exporting? then 1 else 0)
    && (s.circuitOpen && !s.finalized ==> s.worker.Exited? && s.queue == [])
    && (!s.circuitOpen && !s.closer.Draining? && !s.finalized ==> InLine(s))
  }

  lemma EmitKeeps(c: Config, s: State, r: Record)
    requires Inv(c, s) && !s.closer.Draining?
    ensures Inv(c, EmitStep(c, s, r))
  {
    assert InLine(s) ==> s.sent + Held(s) + (s.queue + [r]) == s.accepted + [r];
  }

  lemma TakeKeeps(c: Config, s: State)
    requires Inv(c, s) && s.worker.Holding? && !s.closer.Draining?
    ensures Inv(c, TakeStep(s))
  {
    if !s.finalized {
      var after := TakeStep(s);
      assert after.sent + Held(after) + after.queue == s.sent + Held(s) + s.queue;
    }
  }

  lemma GetKeeps(c: Config, s: State)
    requires Inv(c, s)
    ensures Inv(c, Next(c, s, Get))
  {
    if s.worker.Polling? && s.queue != [] {
      assert Held(s) == [];
      assert s.sent + [s.queue[0]] + s.queue[1..] == s.sent + Held(s) + s.queue;
    }
  }

  lemma NextKeeps(c: Config, s: State, a: Act)
    requires Inv(c, s)
    ensures Inv(c, Next(c, s, a))
  {
    match a
    case Emit(r) => if !s.closer.Draining? { EmitKeeps(c, s, r); }
    case Take => if s.worker.Holding? && !s.closer.Draining? { TakeKeeps(c, s); }
    case Get => GetKeeps(c, s);
    case _ =>
  }

  lemma {:induction false} PlayKeeps(c: Config, s: State, acts: seq<Act>)
    requires Inv(c, s)
    ensures Inv(c, Play(c, s, acts))
  {
    if acts != [] {
      var n := |acts| - 1;
      PlayKeeps(c, s, acts[..n]);
      NextKeeps(c, Play(c, s, acts[..n]), acts[n]);
    }
  }

  lemma StartKeeps(c: Config, s: State)
    requires Starts(s)
    ensures Inv(c, s)
  {
    assert [] + Held(s) == [];
    assert InLine(s);
  }

  lemma JoinKeeps(c: Config, s: State)
    requires Inv(c, s) && s.closer.Joining?
    ensures Inv(c, s.(closer := Draining))
  {
  }

  /** Nothing is lost, what the two gauges mean, and that the exporter has been handed
      a prefix of the accepted records, in order and once each. */
  predicate Accounted(c: Config, s: State) {
    && Conserved(s.counters) && NonNegative(s.counters)
    && s.counters.inFlight <= 1
    && (!s.finalized ==> s.counters.queued == |s.queue| + |Held(s)| <= c.capacity + 1)
    && (s.finalized ==> s.counters.queued == s.counters.inFlight == 0)
    && IsPrefix(s.sent, s.accepted) && |s.accepted| == s.counters.emitted
  }

  lemma InvAccounts(c: Config, s: State)
    requires Inv(c, s)
    ensures Accounted(c, s)
  {
  }

  /** Conservation in every interleaving of callers, closer and worker. */
  lemma Conservation(c: Config, start: State, acts: seq<Act>)
    requires Starts(start)
    ensures Accounted(c, Play(c, start, acts))
  {
    StartKeeps(c, start);
    PlayKeeps(c, start, acts);
    InvAccounts(c, Play(c, start, acts));
  }

  // ---------------------------------------------------------------- what the counters count

  /** What can happen in a run: a record offered before the close, one of them sampled out, an export
      that ends before the close is final, and a close that finds the worker still running. */
  datatype Fact = Offer | SampleOut | End(result: Export) | CutOff | Overrun

  predicate Happens(c: Config, s: State, a: Act, fact: Fact) {
    match fact
    case Offer => a.Emit? && !s.closed
    case SampleOut => a.Emit? && !s.closed && a.record.traceId % c.sampleEvery != 0
    case End(result) => a == Finish(result) && s.worker.Exporting? && !s.closer.Draining? && !s.finalized
    case CutOff => a == Finalize(true) && s.closer.Draining? && s.queue == [] && s.worker.Exporting?
    case Overrun => a == Finalize(true) && s.closer.Draining? && s.queue == []
  }

  function Tally(c: Config, start: State, acts: seq<Act>, fact: Fact): nat {
    if acts == [] then 0
    else
      var n := |acts| - 1;
      Tally(c, start, acts[..n], fact) + if Happens(c, Play(c, start, acts[..n]), acts[n], fact) then 1 else 0
  }

  /** A record is welcome if it is offered, sampled, and finds the circuit closed and room in the queue. */
  function Welcomed(c: Config, s: State, a: Act): seq<Record> {
    if a.Emit? && !s.closed && a.record.traceId % c.sampleEvery == 0 && !s.circuitOpen && |s.queue| < c.capacity then [a.record] else []
  }

  function Welcome(c: Config, start: State, acts: seq<Act>): seq<Record> {
    if acts == [] then []
    else
      var n := |acts| - 1;
      Welcome(c, start, acts[..n]) + Welcomed(c, Play(c, start, acts[..n]), acts[n])
  }

  function One(b: bool): nat { if b then 1 else 0 }

  /** The step from `s` to `t` counts what happens in it. */
  predicate Counts(c: Config, s: State, a: Act, t: State) {
    var (n, m) := (s.counters, t.counters);
    && m.submitted == n.submitted + One(Happens(c, s, a, Offer))
    && m.sampledOut == n.sampledOut + One(Happens(c, s, a, SampleOut))
    && m.exported == n.exported + One(Happens(c, s, a, End(Success)))
    && m.failures == n.failures + One(Happens(c, s, a, End(Failure)))
    && m.timeouts == n.timeouts + One(Happens(c, s, a, End(Timeout))) + One(Happens(c, s, a, CutOff))
    && t.circuitOpen == (s.circuitOpen || Happens(c, s, a, End(Timeout)) || Happens(c, s, a, Overrun))
    && t.accepted == s.accepted + Welcomed(c, s, a)
  }

  lemma StepCounts(c: Config, s: State, a: Act)
    requires Inv(c, s)
    ensures Counts(c, s, a, Next(c, s, a))
  {
    match a
    case Emit(r) => EmitCounts(c, s, r);
    case Finish(result) => FinishCounts(c, s, result);
    case Take => TakeCounts(c, s);
    case Finalize(alive) => FinalizeCounts(c, s, alive);
    case _ => OthersCount(c, s, a);
  }

  lemma TakeCounts(c: Config, s: State)
    requires Inv(c, s)
    ensures Counts(c, s, Take, Next(c, s, Take))
  {
  }

  lemma FinalizeCounts(c: Config, s: State, alive: bool)
    requires Inv(c, s)
    ensures Counts(c, s, Finalize(alive), Next(c, s, Finalize(alive)))
  {
  }

  lemma OthersCount(c: Config, s: State, a: Act)
    requires !a.Emit? && !a.Finish? && !a.Take? && !a.Finalize?
    ensures Counts(c, s, a, Next(c, s, a))
  {
  }

  lemma EmitCounts(c: Config, s: State, r: Record)
    requires Inv(c, s)
    ensures Counts(c, s, Emit(r), Next(c, s, Emit(r)))
  {
  }

  lemma FinishCounts(c: Config, s: State, result: Export)
    requires Inv(c, s)
    ensures Counts(c, s, Finish(result), Next(c, s, Finish(result)))
  {
  }

  /** Each counter is the number of the events it is named for, the circuit is open exactly after a
      timed-out export or a close that found the worker running, and the records accepted are
      exactly those that were welcome. */
  predicate Counted(c: Config, start: State, acts: seq<Act>, s: State) {
    && s.counters.submitted == Tally(c, start, acts, Offer)
    && s.counters.sampledOut == Tally(c, start, acts, SampleOut)
    && s.counters.exported == Tally(c, start, acts, End(Success))
    && s.counters.failures == Tally(c, start, acts, End(Failure))
    && s.counters.timeouts == Tally(c, start, acts, End(Timeout)) + Tally(c, start, acts, CutOff)
    && s.circuitOpen == (Tally(c, start, acts, End(Timeout)) + Tally(c, start, acts, Overrun) > 0)
    && s.accepted == Welcome(c, start, acts)
  }

  lemma CountedMore(c: Config, start: State, acts: seq<Act>, a: Act, s: State, t: State)
    requires Counted(c, start, acts, s) && s == Play(c, start, acts) && Counts(c, s, a, t)
    ensures Counted(c, start, acts + [a], t)
  {
    assert (acts + [a])[..|acts|] == acts;
  }

  lemma LastCounts(c: Config, start: State, acts: seq<Act>, n: nat)
    requires Starts(start) && |acts| == n + 1
    ensures Counts(c, Play(c, start, acts[..n]), acts[n], Play(c, start, acts))
  {
    StartKeeps(c, start);
    PlayKeeps(c, start, acts[..n]);
    StepCounts(c, Play(c, start, acts[..n]), acts[n]);
  }

  lemma {:induction false} CountersCount(c: Config, start: State, acts: seq<Act>)
    requires Starts(start)
    ensures Counted(c, start, acts, Play(c, start, acts))
  {
    if acts != [] {
      var n := |acts| - 1;
      var most := acts[..n];
      CountersCount(c, start, most);
      LastCounts(c, start, acts, n);
      assert acts == most + [acts[n]];
      CountedMore(c, start, most, acts[n], Play(c, start, most), Play(c, start, acts));
    }
  }

  lemma FinalStep(c: Config, s: State, a: Act)
    requires Inv(c, s) && s.finalized
    ensures Next(c, s, a).finalized && Next(c, s, a).counters == s.counters && Next(c, s, a).circuitOpen == s.circuitOpen
    ensures Next(c, s, a).sent == s.sent
  {
  }

  /** Once the finalising call has returned, nothing that any thread does changes a counter or sends a record. */
  lemma {:induction false} StableAfterClose(c: Config, s: State, acts: seq<Act>)
    requires Inv(c, s) && s.finalized
    ensures var t := Play(c, s, acts);
            t.finalized && t.counters == s.counters && t.circuitOpen == s.circuitOpen && t.sent == s.sent
  {
    if acts != [] {
      var n := |acts| - 1;
      StableAfterClose(c, s, acts[..n]);
      PlayKeeps(c, s, acts[..n]);
      FinalStep(c, Play(c, s, acts[..n]), acts[n]);
    }
  }

  // ---------------------------------------------------------------- the class

  class BoundedTelemetry {
    const config: Config
    var counters: Counters
    var queue: seq<Record>
    var closed: bool
    var finalized: bool
    var circuitOpen: bool
    /** Where the worker thread stands, and which item it has. */
    var worker: Worker
    /** Where the closer stands, and the history of accepted and exported records. */
    ghost var closer: Closer
    ghost var accepted: seq<Record>
    ghost var sent: seq<Record>

    ghost function Now(): State
      reads this
    {
      State(counters, queue, closed, finalized, circuitOpen, worker, closer, accepted, sent)
    }

    ghost predicate Valid()
      reads this
    {
      Inv(config, Now())
    }

    constructor (capacity: nat, sampleEvery: nat)
      requires 1 <= capacity && 1 <= sampleEvery <= 10_000
      ensures Valid() && Starts(Now()) && config == Config(capacity, sampleEvery)
    {
      config := Config(capacity, sampleEvery);
      counters, queue, closed, finalized, circuitOpen := ZERO, [], false, false, false;
      worker, closer, accepted, sent := Polling, NotClosing, [], [];
      new;
      StartKeeps(config, Now());
    }

    method Emit(record: Record)
      requires !closer.Draining?
      modifies this
      ensures Now() == Next(config, old(Now()), Act.Emit(record))
    {
      if closed { return; }
      counters := counters.(submitted := counters.submitted + 1);
      if !Sampled(config, record) {
        counters := counters.(sampledOut := counters.sampledOut + 1);
        return;
      }
      if circuitOpen || |queue| >= config.capacity {
        counters := counters.(dropped := counters.dropped + 1);
        return;
      }
      queue, accepted := queue + [record], accepted + [record];
      counters := counters.(emitted := counters.emitted + 1);
      counters := counters.(queued := counters.queued + 1);
    }

    /** The first lock region of `close`; only the call that gets `true` goes on. */
    method BeginClose() returns (first: bool)
      modifies this
      ensures Now() == Next(config, old(Now()), Act.BeginClose) && first == !old(closed)
    {
      if closed { return false; }
      closed, closer := true, Joining;
      return true;
    }

    /** `_drain_dropped_locked`; while the closer drains, a polling worker may take an item too. */
    method Drain() returns (ghost acts: seq<Act>)
      requires Valid() && closer.Draining?
      modifies this
      ensures Valid() && queue == [] && Now() == Play(config, old(Now()), acts)
      ensures Drained(old(Now()), Now())
    {
      acts := [];
      while queue != []
        invariant Valid() && Now() == Play(config, old(Now()), acts) && Drained(old(Now()), Now())
        decreases |queue|
      {
        var stolen: bool := *;
        if stolen && worker.Polling? {
          StealIs(config, old(Now()), Now());
          acts := PlayMore(config, old(Now()), acts, Get);
          worker := Holding(queue[0]);
        } else {
          DrainIs(config, old(Now()), Now());
          acts := PlayMore(config, old(Now()), acts, DrainOne);
          counters := counters.(dropped := counters.dropped + 1);
          counters := counters.(queued := counters.queued - 1);
        }
        queue := queue[1..];
      }
    }

    /** The second lock region of `close`, after the bounded join; `alive` is what `is_alive` says.
        Whatever the worker takes meanwhile, every queued record ends up dropped and the one in flight timed out. */
    method FinishClose(alive: bool) returns (ghost drained: State, ghost acts: seq<Act>)
      requires Valid() && closer.Joining? && (alive || worker.Exited?)
      modifies this
      ensures Valid() && finalized
      ensures drained == Play(config, Next(config, old(Now()), JoinEnds), acts)
      ensures Now() == Next(config, drained, Finalize(alive))
      ensures counters == old(counters).(
                            dropped := old(counters.dropped + counters.queued), queued := 0,
                            timeouts := old(counters.timeouts + counters.inFlight), inFlight := 0)
      ensures circuitOpen == (old(circuitOpen) || alive)
    {
      JoinKeeps(config, Now());
      closer := Draining;
      acts := Drain();
      drained := Now();
      FinalizeIs(config, drained, alive);
      if alive {
        circuitOpen := true;
        counters := counters.(timeouts := counters.timeouts + counters.inFlight);
        counters := counters.(inFlight := 0);
      }
      if counters.queued != 0 {
        counters := counters.(dropped := counters.dropped + counters.queued);
        counters := counters.(queued := 0);
      }
      finalized, closer := true, Finished;
    }

    /** The worker's `get`: an item, or the poll times out on an empty queue. */
    method PumpGet()
      requires worker.Polling?
      modifies this
      ensures Now() == Next(config, old(Now()), if old(queue) == [] then GetTimesOut else Get)
    {
      if queue == [] {
        worker := FoundEmpty;
      } else {
        worker, queue := Holding(queue[0]), queue[1..];
      }
    }

    /** After an empty poll: go on unless closed or broken. */
    method PumpIdle() returns (goOn: bool)
      requires worker.FoundEmpty? && !closer.Draining?
      modifies this
      ensures Now() == Next(config, old(Now()), NoticeClose) && goOn == worker.Polling?
    {
      goOn := !closed && !circuitOpen;
      worker := if goOn then Polling else Exited;
    }

    /** Account for the item in hand; it is exported when `sending` is true. */
    method PumpTake() returns (sending: bool)
      requires worker.Holding? && !closer.Draining?
      modifies this
      ensures Now() == Next(config, old(Now()), Take) && sending == worker.Exporting?
    {
      if finalized { worker := Exited; return false; }
      counters := counters.(queued := counters.queued - 1);
      if circuitOpen {
        counters, worker := counters.(dropped := counters.dropped + 1), Polling;
        return false;
      }
      counters := counters.(inFlight := counters.inFlight + 1);
      sent, worker := sent + [worker.item], Exporting(worker.item);
      return true;
    }

    /** Account for the end of an export. */
    method PumpFinish(result: Export)
      requires worker.Exporting? && !closer.Draining?
      modifies this
      ensures Now() == Next(config, old(Now()), Finish(result))
    {
      if finalized { worker := Exited; return; }
      counters := counters.(inFlight := counters.inFlight - 1);
      match result
      case Success => counters, worker := counters.(exported := counters.exported + 1), Polling;
      case Failure => counters, worker := counters.(failures := counters.failures + 1), Polling;
      case Timeout =>
        counters, circuitOpen := counters.(timeouts := counters.timeouts + 1), true;
        ghost var n, q := counters, |queue|;
        while queue != []
          modifies this`queue, this`counters
          invariant counters == n.(dropped := n.dropped + q - |queue|, queued := n.queued - q + |queue|)
          decreases |queue|
        {
          queue := queue[1..];
          counters := counters.(dropped := counters.dropped + 1);
          counters := counters.(queued := counters.queued - 1);
        }
        worker := Exited;
    }
  }

  /** Draining moves records from the queue to the drop count or into the worker's hand, and touches nothing else. */
  predicate Drained(s: State, t: State) {
    && t.closer.Draining? && s.closer.Draining?
    && t.counters.dropped + t.counters.queued == s.counters.dropped + s.counters.queued
    && t.counters == s.counters.(dropped := t.counters.dropped, queued := t.counters.queued)
    && t.circuitOpen == s.circuitOpen && t.closed == s.closed && t.finalized == s.finalized
    && (s.worker.Exited? ==> t.worker.Exited?) && (s.worker.Exporting? <==> t.worker.Exporting?)
  }

  lemma PlayMore(c: Config, s: State, acts: seq<Act>, a: Act) returns (more: seq<Act>)
    ensures Play(c, s, more) == Next(c, Play(c, s, acts), a)
  {
    more := acts + [a];
    assert more[..|acts|] == acts;
  }

  lemma StealIs(c: Config, start: State, s: State)
    requires Inv(c, s) && s.worker.Polling? && s.queue != [] && Drained(start, s)
    ensures Next(c, s, Get) == s.(worker := Holding(s.queue[0]), queue := s.queue[1..])
    ensures Inv(c, Next(c, s, Get)) && Drained(start, Next(c, s, Get))
  {
    NextKeeps(c, s, Get);
  }

  lemma DrainIs(c: Config, start: State, s: State)
    requires Inv(c, s) && s.closer.Draining? && s.queue != [] && Drained(start, s)
    ensures var n := s.counters;
            Next(c, s, DrainOne) == s.(counters := n.(dropped := n.dropped + 1, queued := n.queued - 1), queue := s.queue[1..])
    ensures Inv(c, Next(c, s, DrainOne)) && Drained(start, Next(c, s, DrainOne))
  {
    NextKeeps(c, s, DrainOne);
  }

  lemma FinalizeIs(c: Config, s: State, alive: bool)
    requires Inv(c, s) && s.closer.Draining? && s.queue == [] && (alive || s.worker.Exited?)
    ensures Next(c, s, Finalize(alive)) == FinalizeStep(s, alive) && Inv(c, FinalizeStep(s, alive))
    ensures !alive ==> s.counters.inFlight == 0
  {
    NextKeeps(c, s, Finalize(alive));
  }
}
