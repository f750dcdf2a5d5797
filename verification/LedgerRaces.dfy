/** The ledger directory under racing appenders: each append reads the directory, publishes one
    create-only file and reads back (`_append_event`), and nothing keeps the processes apart. */
module LedgerRaces {
  import opened Wrappers
  import opened Records
  import opened Ledger
  import opened LedgerDirectory

  type Pid = nat

  /** Where a process stands in an append; `Armed` is between its confirmed dispatch and the replacement. */
  datatype Stage = Idle | Proposed(e: Event) | Published(e: Event) | Armed

  /** How one publication ends: an error may come before or after the file is there. */
  datatype How = Done | NotDone | DoneButFailed

  /** `confirmed` (what each successful append read back) and `replacements` are history. */
  datatype State = State(entries: seq<Entry>, procs: map<Pid, Stage>, confirmed: seq<seq<Event>>, replacements: nat)

  datatype Act =
    | Propose(p: Pid, e: Event)
    | Publish(p: Pid, how: How)
    | Confirm(p: Pid)
    | Replace(p: Pid, effective: bool)
    | Quit(p: Pid)

  const INITIAL: State := State([], map[], [], 0)

  function At(s: State, p: Pid): Stage { if p in s.procs then s.procs[p] else Idle }

  function FileOf(e: Event): Entry { Entry(NameOf(e), Parsed(e)) }

  predicate NameTaken(entries: seq<Entry>, name: FileName) {
    exists entry :: entry in entries && entry.name == name
  }

  ghost predicate Reads(entries: seq<Entry>, l: seq<Event>, auth: Authorization) {
    Arranges(l, entries, auth) && forall entry :: entry in entries ==> EntryOk(entry)
  }

  /** `_read_events` */
  ghost function TheLedger(entries: seq<Entry>, auth: Authorization): (l: Option<seq<Event>>)
    ensures l.Some? ==> Reads(entries, l.value, auth)
    ensures l.None? ==> forall k :: !Reads(entries, k, auth)
  {
    if l :| Reads(entries, l, auth) then Some(l) else None
  }

  function Goto(s: State, p: Pid, stage: Stage): State { s.(procs := s.procs[p := stage]) }

  /** One step; a step that its process cannot take leaves the state alone. */
  ghost function Next(s: State, act: Act, auth: Authorization): State {
    match act
    case Propose(p, e) =>
      var l := TheLedger(s.entries, auth);
      if At(s, p).Idle? && l.Some? && Admissible(l.value, e, auth) && Authentic(e) then Goto(s, p, Proposed(e)) else s
    case Publish(p, how) =>
      if !At(s, p).Proposed? then s
      else if NameTaken(s.entries, NameOf(At(s, p).e)) || how.NotDone? then Goto(s, p, Idle)
      else Goto(s.(entries := s.entries + [FileOf(At(s, p).e)]), p, if how.Done? then Published(At(s, p).e) else Idle)
    case Confirm(p) =>
      if !At(s, p).Published? then s
      else
        var l, e := TheLedger(s.entries, auth), At(s, p).e;
        if l.Some? && l.value != [] && l.value[|l.value| - 1] == e
        then Goto(s.(confirmed := s.confirmed + [l.value]), p, if e.payload.body.Dispatch? then Armed else Idle)
        else Goto(s, p, Idle)
    case Replace(p, effective) =>
      if At(s, p).Armed? then Goto(s.(replacements := s.replacements + if effective then 1 else 0), p, Idle) else s
    case Quit(p) => Goto(s, p, Idle)
  }

  ghost function Play(s: State, acts: seq<Act>, auth: Authorization): State {
    if acts == [] then s else Next(Play(s, acts[..|acts| - 1], auth), acts[|acts| - 1], auth)
  }

  // ---------------------------------------------------------------- the invariant

  function Last(l: seq<Event>): Event
    requires l != []
  {
    l[|l| - 1]
  }

  /** Each confirmed ledger is accepted and its files are all there; each one extends the last. */
  ghost predicate ConfirmedOk(s: State, auth: Authorization) {
    && (forall i :: 0 <= i < |s.confirmed| ==> s.confirmed[i] != [] && Accepted(s.confirmed[i], auth) && Present(s.entries, s.confirmed[i]))
    && (forall i, j :: 0 <= i < j < |s.confirmed| ==> s.confirmed[i] < s.confirmed[j])
  }

  ghost predicate Present(entries: seq<Entry>, l: seq<Event>) {
    forall e :: e in l ==> FileOf(e) in entries
  }

  /** What a process has published is its own: nobody else publishes or confirms it. */
  ghost predicate OwnsOk(s: State) {
    && (forall p :: p in s.procs && s.procs[p].Published? ==> FileOf(s.procs[p].e) in s.entries)
    && (forall p, q :: p in s.procs && q in s.procs && s.procs[p].Published? && s.procs[q].Published? && s.procs[p].e == s.procs[q].e ==> p == q)
    && (forall p, i :: p in s.procs && s.procs[p].Published? && 0 <= i < |s.confirmed| && s.confirmed[i] != [] ==>
          Last(s.confirmed[i]) != s.procs[p].e)
  }

  ghost predicate SomeDispatch(s: State) {
    exists i :: 0 <= i < |s.confirmed| && s.confirmed[i] != [] && Last(s.confirmed[i]).payload.body.Dispatch?
  }

  /** At most one process is armed, and only before any replacement. */
  ghost predicate ArmedOk(s: State) {
    && (forall p :: p in s.procs && s.procs[p].Armed? ==> SomeDispatch(s) && s.replacements == 0)
    && (forall p, q :: p in s.procs && q in s.procs && s.procs[p].Armed? && s.procs[q].Armed? ==> p == q)
    && s.replacements <= 1 && (s.replacements == 1 ==> SomeDispatch(s))
  }

  ghost predicate Inv(s: State, auth: Authorization) {
    ConfirmedOk(s, auth) && OwnsOk(s) && ArmedOk(s)
  }

  // ---------------------------------------------------------------- reading back

  lemma InEvents(entries: seq<Entry>, l: seq<Event>, auth: Authorization, e: Event)
    requires Reads(entries, l, auth)
    ensures e in l <==> FileOf(e) in entries
  {
    if FileOf(e) in entries {
      Lists(entries, FileOf(e));
      assert e in multiset(EventsIn(entries));
      assert e in multiset(l);
    }
    if e in l {
      assert e in multiset(l);
      assert e in EventsIn(entries);
      var entry := Source(entries, e);
      assert EntryOk(entry);
    }
  }

  /** A read that ends in a new event extends every ledger confirmed before. */
  lemma ExtendsConfirmed(s: State, l: seq<Event>, k: seq<Event>, auth: Authorization)
    requires Reads(s.entries, l, auth) && Accepted(k, auth) && Present(s.entries, k) && k != [] && l != [] && Last(k) != Last(l)
    ensures k < l
  {
    forall e | e in k ensures e in l { InEvents(s.entries, l, auth, e); }
    AcceptedSubsetIsPrefix(l, k, auth);
    assert l[..|l|] == l;
  }

  /** An accepted ledger has one dispatch at most. */
  lemma OneDispatch(l: seq<Event>, k: seq<Event>, auth: Authorization)
    requires Accepted(l, auth) && k != [] && k < l && Last(k).payload.body.Dispatch?
    ensures !Last(l).payload.body.Dispatch?
  {
    var n := |l| - 1;
    assert Admissible(l[..n], l[n], auth);
    assert l[..n][|k| - 1] == k[|k| - 1];
    assert Last(k) in l[..n];
  }

  lemma ConfirmKeeps(s: State, p: Pid, l: seq<Event>, auth: Authorization)
    requires Inv(s, auth) && At(s, p).Published? && Reads(s.entries, l, auth) && l != [] && Last(l) == At(s, p).e
    ensures Inv(Goto(s.(confirmed := s.confirmed + [l]), p, if Last(l).payload.body.Dispatch? then Armed else Idle), auth)
  {
    var n := Goto(s.(confirmed := s.confirmed + [l]), p, if Last(l).payload.body.Dispatch? then Armed else Idle);
    forall i | 0 <= i < |s.confirmed| ensures s.confirmed[i] < l { ExtendsConfirmed(s, l, s.confirmed[i], auth); }
    forall e | e in l ensures FileOf(e) in s.entries { InEvents(s.entries, l, auth, e); }
    assert ConfirmedOk(n, auth);
    assert OwnsOk(n);
    if Last(l).payload.body.Dispatch? { FirstDispatch(s, l, auth); }
    DispatchStays(s, n, l);
  }

  lemma FirstDispatch(s: State, l: seq<Event>, auth: Authorization)
    requires Accepted(l, auth) && l != [] && Last(l).payload.body.Dispatch?
    requires forall i :: 0 <= i < |s.confirmed| ==> s.confirmed[i] < l
    ensures !SomeDispatch(s)
  {
    forall i | 0 <= i < |s.confirmed| && s.confirmed[i] != [] ensures !Last(s.confirmed[i]).payload.body.Dispatch? {
      if Last(s.confirmed[i]).payload.body.Dispatch? { OneDispatch(l, s.confirmed[i], auth); }
    }
  }

  lemma DispatchStays(s: State, n: State, l: seq<Event>)
    requires n.confirmed == s.confirmed + [l]
    ensures SomeDispatch(s) ==> SomeDispatch(n)
    ensures l != [] && Last(l).payload.body.Dispatch? ==> SomeDispatch(n)
  {
    if SomeDispatch(s) {
      var i :| 0 <= i < |s.confirmed| && s.confirmed[i] != [] && Last(s.confirmed[i]).payload.body.Dispatch?;
      assert n.confirmed[i] == s.confirmed[i];
    }
    assert n.confirmed[|s.confirmed|] == l;
  }

  lemma PublishKeeps(s: State, p: Pid, e: Event, own: bool, auth: Authorization)
    requires Inv(s, auth) && !NameTaken(s.entries, NameOf(e))
    ensures Inv(Goto(s.(entries := s.entries + [FileOf(e)]), p, if own then Published(e) else Idle), auth)
  {
    assert FileOf(e) !in s.entries;
    forall i | 0 <= i < |s.confirmed| ensures Last(s.confirmed[i]) != e { assert Last(s.confirmed[i]) in s.confirmed[i]; }
  }

  lemma MoveKeeps(s: State, p: Pid, stage: Stage, auth: Authorization)
    requires Inv(s, auth) && (stage.Idle? || stage.Proposed?)
    ensures Inv(Goto(s, p, stage), auth)
  {
    assert SomeDispatch(Goto(s, p, stage)) == SomeDispatch(s);
  }

  lemma ReplaceKeeps(s: State, p: Pid, effective: bool, auth: Authorization)
    requires Inv(s, auth) && At(s, p).Armed?
    ensures Inv(Goto(s.(replacements := s.replacements + if effective then 1 else 0), p, Idle), auth)
  {
    assert SomeDispatch(Goto(s.(replacements := s.replacements + if effective then 1 else 0), p, Idle)) == SomeDispatch(s);
  }

  lemma NextKeeps(s: State, act: Act, auth: Authorization)
    requires Inv(s, auth)
    ensures Inv(Next(s, act, auth), auth)
  {
    match act {
      case Propose(p, e) => MoveKeeps(s, p, Proposed(e), auth);
      case Publish(p, how) =>
        MoveKeeps(s, p, Idle, auth);
        if At(s, p).Proposed? && !NameTaken(s.entries, NameOf(At(s, p).e)) { PublishKeeps(s, p, At(s, p).e, how.Done?, auth); }
      case Confirm(p) =>
        MoveKeeps(s, p, Idle, auth);
        var l := TheLedger(s.entries, auth);
        if At(s, p).Published? && l.Some? && l.value != [] && Last(l.value) == At(s, p).e { ConfirmKeeps(s, p, l.value, auth); }
      case Replace(p, effective) => if At(s, p).Armed? { ReplaceKeeps(s, p, effective, auth); }
      case Quit(p) => MoveKeeps(s, p, Idle, auth);
    }
  }

  lemma {:induction false} PlayKeeps(acts: seq<Act>, auth: Authorization)
    ensures Inv(Play(INITIAL, acts, auth), auth)
  {
    if acts != [] {
      PlayKeeps(acts[..|acts| - 1], auth);
      NextKeeps(Play(INITIAL, acts[..|acts| - 1], auth), acts[|acts| - 1], auth);
    }
  }

  // ---------------------------------------------------------------- main results

  /** However the appends of any number of processes interleave, those that are confirmed form one
      ledger that only grows: each read back an accepted extension of all confirmed before it. */
  lemma ConfirmedGrows(acts: seq<Act>, auth: Authorization, i: nat, j: nat)
    requires i < j < |Play(INITIAL, acts, auth).confirmed|
    ensures var c := Play(INITIAL, acts, auth).confirmed; Accepted(c[j], auth) && c[i] < c[j]
  {
    PlayKeeps(acts, auth);
  }

  /** Single use without any lock: at most one process ever gets from its confirmed dispatch to
      the replacement. */
  lemma SingleUseUnlocked(acts: seq<Act>, auth: Authorization)
    ensures Play(INITIAL, acts, auth).replacements <= 1
  {
    PlayKeeps(acts, auth);
  }

  // ---------------------------------------------------------------- an append that meets nobody

  lemma FreeName(entries: seq<Entry>, l: seq<Event>, e: Event, auth: Authorization)
    requires Reads(entries, l, auth) && Admissible(l, e, auth)
    ensures !NameTaken(entries, NameOf(e))
  {
    if NameTaken(entries, NameOf(e)) {
      var entry :| entry in entries && entry.name == NameOf(e);
      assert EntryOk(entry) && entry == FileOf(entry.content.e);
      InEvents(entries, l, auth, entry.content.e);
      var k := IndexOf(l, entry.content.e);
      LinkAt(l, auth, k);
    }
  }

  lemma ReadsMore(entries: seq<Entry>, l: seq<Event>, e: Event, auth: Authorization)
    requires Reads(entries, l, auth) && Admissible(l, e, auth) && Authentic(e)
    ensures TheLedger(entries + [FileOf(e)], auth) == Some(l + [e])
  {
    var more := entries + [FileOf(e)];
    ExtendAccepted(l, e, auth);
    assert more[..|more| - 1] == entries;
    assert Reads(more, l + [e], auth);
    OneArrangement(l + [e], TheLedger(more, auth).value, more, more, auth);
  }

  /** Undisturbed, the three steps of an append are the one atomic append of module Operation:
      the ledger read afterwards is the one read before with the new event at its end. */
  lemma AppendAlone(s: State, p: Pid, l: seq<Event>, e: Event, auth: Authorization)
    requires At(s, p).Idle? && Reads(s.entries, l, auth) && Admissible(l, e, auth) && Authentic(e)
    ensures var n := Next(Next(Next(s, Propose(p, e), auth), Publish(p, Done), auth), Confirm(p), auth);
            && TheLedger(n.entries, auth) == Some(l + [e]) && n.confirmed == s.confirmed + [l + [e]]
            && (At(n, p).Armed? <==> e.payload.body.Dispatch?)
  {
    var k := TheLedger(s.entries, auth).value;
    OneArrangement(l, k, s.entries, s.entries, auth);
    FreeName(s.entries, l, e, auth);
    ReadsMore(s.entries, l, e, auth);
  }
}
