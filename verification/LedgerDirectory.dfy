/** Reading the ledger back from its directory (`_read_events`).

    A directory lists its entries in no particular order; the events found there
    are sorted by sequence number and must then form an accepted ledger. */
module LedgerDirectory {
  import opened Wrappers
  import opened Records
  import opened Ledger

  /** Names in an operation directory. Names written from a sequence number and a
      kind are equal only for equal numbers and kinds. */
  datatype FileName =
    | BackupFile
    | ReceiptFile
    | EventFile(sequence: nat, kind: string)
    | OtherJson(stem: string)
    | Stray(name: string)

  /** What reading a file as a record gives. */
  datatype Content = Parsed(e: Event) | Malformed | Unstable

  datatype Entry = Entry(name: FileName, content: Content)

  function KindOf(b: Body): string {
    match b
    case Preflight(_) => "preflight"
    case Recovery(_, _, _, _, _) => "preintent-recovery"
    case Manifest(_, _, _, _, _, _) => "backup"
    case Intent(_, _, _) => "intent"
    case Dispatch(_, _, _, _, _, _) => "dispatch"
    case Post(_, _, _, _, _) => "post"
    case Attention(_, _) => "attention"
    case Receipt(_, _, _, _, _, _, _, _, _, _, _, _, _, _, _) => "receipt"
  }

  function NameOf(e: Event): FileName {
    if e.payload.body.Receipt? then ReceiptFile else EventFile(e.payload.sequence, KindOf(e.payload.body))
  }

  /** The backup must be a stable file; every other entry must be a record under its own name. */
  predicate EntryOk(entry: Entry) {
    if entry.name.BackupFile? then !entry.content.Unstable?
    else !entry.name.Stray? && entry.content.Parsed? && Authentic(entry.content.e)
         && entry.name == NameOf(entry.content.e)
  }

  function EventsIn(entries: seq<Entry>): seq<Event> {
    if entries == [] then []
    else var rest := EventsIn(entries[..|entries|-1]);
         var last := entries[|entries|-1];
         if last.name.BackupFile? || !last.content.Parsed? then rest else rest + [last.content.e]
  }

  ghost predicate Arranges(events: seq<Event>, entries: seq<Entry>, auth: Authorization) {
    multiset(events) == multiset(EventsIn(entries)) && Accepted(events, auth)
  }

  // ---------- Sorting ----------

  ghost predicate SortedBySequence(s: seq<Event>) {
    forall i, j :: 0 <= i < j < |s| ==> s[i].payload.sequence <= s[j].payload.sequence
  }

  function Insert(e: Event, s: seq<Event>): (r: seq<Event>)
    ensures multiset(r) == multiset(s) + multiset{e}
    ensures SortedBySequence(s) ==> SortedBySequence(r)
  {
    if s == [] || s[|s|-1].payload.sequence <= e.payload.sequence then
      s + [e]
    else
      var front, last := s[..|s|-1], s[|s|-1];
      assert s == front + [last];
      var inserted := Insert(e, front);
      assert SortedBySequence(s) ==> SortedBySequence(inserted + [last]) by {
        if SortedBySequence(s) { LastStaysLast(inserted, front, e, last); }
      }
      inserted + [last]
  }

  lemma LastStaysLast(inserted: seq<Event>, front: seq<Event>, e: Event, last: Event)
    requires SortedBySequence(front + [last]) && e.payload.sequence < last.payload.sequence
    requires multiset(inserted) == multiset(front) + multiset{e}
    requires SortedBySequence(front) ==> SortedBySequence(inserted)
    ensures SortedBySequence(inserted + [last])
  {
    var s := front + [last];
    forall i, j | 0 <= i < j < |front| ensures front[i].payload.sequence <= front[j].payload.sequence {
      assert s[i] == front[i] && s[j] == front[j];
    }
    forall i | 0 <= i < |inserted| ensures inserted[i].payload.sequence <= last.payload.sequence {
      assert inserted[i] in multiset(inserted);
      if inserted[i] != e {
        assert inserted[i] in front;
        var k := IndexOf(front, inserted[i]);
        assert s[k] == front[k] && s[|front|] == last;
      }
    }
  }

  function SortBySequence(s: seq<Event>): (r: seq<Event>)
    ensures multiset(r) == multiset(s) && SortedBySequence(r)
  {
    if s == [] then []
    else
      assert s == s[..|s|-1] + [s[|s|-1]];
      Insert(s[|s|-1], SortBySequence(s[..|s|-1]))
  }

  /** A sorted arrangement of an accepted ledger's events is that ledger. */
  lemma SortedIsLedger(sorted: seq<Event>, events: seq<Event>, auth: Authorization)
    requires SortedBySequence(sorted) && Accepted(events, auth) && multiset(sorted) == multiset(events)
    ensures sorted == events
  {
    AcceptedIsChained(events, auth);
    assert |sorted| == |multiset(sorted)| == |multiset(events)| == |events|;
    forall i | 0 <= i < |sorted| ensures sorted[i] in events { assert sorted[i] in multiset(sorted); }
    forall i, j | 0 <= i < j < |sorted| ensures sorted[i] != sorted[j] {
      if sorted[i] == sorted[j] { TwiceInMultiset(sorted, i, j); OnceInMultiset(events, sorted[i]); }
    }
    SequencesAreIndices(sorted, events);
  }

  lemma TwiceInMultiset(s: seq<Event>, i: nat, j: nat)
    requires i < j < |s| && s[i] == s[j]
    ensures multiset(s)[s[i]] >= 2
  {
    assert s == s[..i] + [s[i]] + s[i+1..j] + [s[j]] + s[j+1..];
    assert multiset(s) == multiset(s[..i]) + multiset{s[i]} + multiset(s[i+1..j]) + multiset{s[j]} + multiset(s[j+1..]);
  }

  lemma OnceInMultiset(s: seq<Event>, e: Event)
    requires Chained(s)
    ensures multiset(s)[e] <= 1
  {
    if e in s {
      var i := IndexOf(s, e);
      assert s == s[..i] + [e] + s[i+1..];
      assert e !in s[..i] && e !in s[i+1..];
      assert multiset(s) == multiset(s[..i]) + multiset{e} + multiset(s[i+1..]);
    }
  }

  lemma SequencesAreIndices(sorted: seq<Event>, events: seq<Event>)
    requires SortedBySequence(sorted) && Chained(events) && |sorted| == |events|
    requires forall i :: 0 <= i < |sorted| ==> sorted[i] in events
    requires forall i, j :: 0 <= i < j < |sorted| ==> sorted[i] != sorted[j]
    ensures sorted == events
  {
    forall i | 0 <= i < |sorted| ensures sorted[i] == events[sorted[i].payload.sequence - 1] {
      var k := IndexOf(events, sorted[i]);
    }
    forall i, j | 0 <= i < j < |sorted| ensures sorted[i].payload.sequence < sorted[j].payload.sequence {}
    forall i | 0 <= i < |sorted| ensures sorted[i].payload.sequence == i + 1 {
      ClimbsFromBelow(sorted, i);
      FallsFromAbove(sorted, i);
    }
  }

  lemma {:induction false} ClimbsFromBelow(s: seq<Event>, i: nat)
    requires i < |s| && forall k :: 0 <= k < |s| ==> 1 <= s[k].payload.sequence <= |s|
    requires forall k, j :: 0 <= k < j < |s| ==> s[k].payload.sequence < s[j].payload.sequence
    ensures s[i].payload.sequence >= i + 1
  {
    if i > 0 { ClimbsFromBelow(s, i - 1); }
  }

  lemma {:induction false} FallsFromAbove(s: seq<Event>, i: nat)
    requires i < |s| && forall k :: 0 <= k < |s| ==> 1 <= s[k].payload.sequence <= |s|
    requires forall k, j :: 0 <= k < j < |s| ==> s[k].payload.sequence < s[j].payload.sequence
    ensures s[i].payload.sequence <= i + 1
    decreases |s| - i
  {
    if i + 1 < |s| { FallsFromAbove(s, i + 1); }
  }

  // ---------- The reader ----------

  /** Succeeds exactly when every entry is in order and the events can be arranged
      into an accepted ledger, and then returns that arrangement. */
  method ReadEvents(entries: seq<Entry>, auth: Authorization) returns (r: Option<seq<Event>>)
    ensures r.Some? ==> Arranges(r.value, entries, auth) && forall i :: 0 <= i < |entries| ==> EntryOk(entries[i])
    ensures r.None? ==> (exists i :: 0 <= i < |entries| && !EntryOk(entries[i]))
                        || forall events :: !Arranges(events, entries, auth)
  {
    var found: seq<Event> := [];
    var i := 0;
    while i < |entries|
      invariant 0 <= i <= |entries|
      invariant forall k :: 0 <= k < i ==> EntryOk(entries[k])
      invariant found == EventsIn(entries[..i])
    {
      var entry := entries[i];
      assert entries[..i+1][..i] == entries[..i];
      if entry.name.BackupFile? {
        if entry.content.Unstable? { assert !EntryOk(entries[i]); return None; }
      } else {
        if entry.name.Stray? || !entry.content.Parsed? || !Authentic(entry.content.e)
          || entry.name != NameOf(entry.content.e) {
          assert !EntryOk(entries[i]);
          return None;
        }
        found := found + [entry.content.e];
      }
      i := i + 1;
    }
    assert entries[..i] == entries;
    var sorted := SortBySequence(found);
    var ok := ValidateChain(sorted, auth);
    if ok {
      r := Some(sorted);
    } else {
      forall events ensures !Arranges(events, entries, auth) {
        if Arranges(events, entries, auth) { SortedIsLedger(sorted, events, auth); }
      }
      r := None;
    }
  }

  /** Deleting, keeping or re-listing files of a readable directory yields at most a
      prefix of its ledger: every other deletion is refused. */
  lemma OnlyTailsCanVanish(whole: seq<Event>, part: seq<Event>, entries: seq<Entry>, kept: seq<Entry>, auth: Authorization)
    requires Arranges(whole, entries, auth) && Arranges(part, kept, auth)
    requires forall entry :: entry in kept ==> entry in entries
    ensures |part| <= |whole| && part == whole[..|part|]
  {
    forall e | e in part ensures e in whole {
      assert e in multiset(part);
      assert e in EventsIn(kept);
      var entry := Source(kept, e);
      assert entry in entries;
      Lists(entries, entry);
      assert e in multiset(EventsIn(entries));
      assert e in multiset(whole);
    }
    AcceptedSubsetIsPrefix(whole, part, auth);
  }

  /** A readable directory that contains all of a ledger's files holds an extension
      of that ledger: nothing can be slipped in before its last event. */
  lemma OnlyTailsCanAppear(whole: seq<Event>, more: seq<Event>, entries: seq<Entry>, grown: seq<Entry>, auth: Authorization)
    requires Arranges(whole, entries, auth) && Arranges(more, grown, auth)
    requires forall entry :: entry in entries ==> entry in grown
    ensures |whole| <= |more| && whole == more[..|whole|]
  {
    OnlyTailsCanVanish(more, whole, grown, entries, auth);
  }

  /** The directory order does not matter: any two listings of the same entries
      can only be arranged into one and the same ledger. */
  lemma OneArrangement(a: seq<Event>, b: seq<Event>, listing: seq<Entry>, relisting: seq<Entry>, auth: Authorization)
    requires forall entry :: entry in listing <==> entry in relisting
    requires Arranges(a, listing, auth) && Arranges(b, relisting, auth)
    ensures a == b
  {
    OnlyTailsCanVanish(a, b, listing, relisting, auth);
    OnlyTailsCanVanish(b, a, relisting, listing, auth);
    assert a[..|a|] == a;
  }

  lemma {:induction false} Source(entries: seq<Entry>, e: Event) returns (entry: Entry)
    requires e in EventsIn(entries)
    ensures entry in entries && !entry.name.BackupFile? && entry.content == Parsed(e)
  {
    var last := entries[|entries|-1];
    if !last.name.BackupFile? && last.content == Parsed(e) {
      entry := last;
    } else {
      entry := Source(entries[..|entries|-1], e);
    }
  }

  lemma {:induction false} Lists(entries: seq<Entry>, entry: Entry)
    requires entry in entries && !entry.name.BackupFile? && entry.content.Parsed?
    ensures entry.content.e in EventsIn(entries)
  {
    if entries[|entries|-1] != entry { Lists(entries[..|entries|-1], entry); }
  }

  /** Swapping the records of two event files, or copying one under another name,
      is refused: a record is only readable under the name it determines. */
  lemma MisplacedRecordRefused(a: Entry, b: Entry)
    requires EntryOk(a) && EntryOk(b) && a.name != b.name && !a.name.BackupFile? && !b.name.BackupFile?
    ensures !EntryOk(Entry(a.name, b.content)) && !EntryOk(Entry(b.name, a.content))
  {
    assert NameOf(a.content.e) == a.name && NameOf(b.content.e) == b.name;
  }
}
