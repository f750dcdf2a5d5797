/** The structural checks of `verify_result_integrity` on a result without conflicts.

    Paths, hashes and chunk identifiers are numbers: only their order and equality
    matter. A source's digest is the source text itself. */
module ResultVerifier {
  import opened Wrappers
  import opened Records
  import opened Segments
  import opened BlockSegments
  import opened MarkdownLines

  type Hash = nat

  const MAX_FILES: nat := 100
  const MAX_CITATIONS: nat := 128
  /** Citation identifiers have three digits. */
  const MAX_IDENTIFIER: nat := 999
  const GLOBAL_TOP: nat := 8

  /** The generator versions, by what they cite: V1, V2 to V6, V7 to V9. */
  datatype Version = WholeSegmentOnly | BestLine | WholeSegment

  datatype Source = Source(path: nat, text: string)

  datatype Draft = Draft(sources: seq<Source>, version: Version, localPlan: bool)

  datatype Segment = Segment(path: nat, ordinal: nat, index: Option<Hash>, bundle: Option<Hash>,
                             retrievable: bool, first: nat, last: nat)

  datatype Hit = Hit(score: int, path: nat, ordinal: nat, start: nat, end: nat, chunk: nat, index: Hash, bundle: Hash)

  datatype Method = Lexical | Structural

  datatype Citation = Citation(id: nat, path: nat, digest: string, first: nat, last: nat, how: Method)

  datatype RankedHit = RankedHit(rank: nat, hit: Hit, citation: nat)

  datatype Coverage = Coverage(total: nat, read: nat, indexed: nat, unretrievable: seq<nat>,
                               cited: nat, segments: nat, indexedSegments: nat, uncited: seq<nat>)

  datatype Result = Result(segments: seq<Segment>, queryRetrievable: bool, hits: seq<RankedHit>,
                           citations: seq<Citation>, coverage: Coverage)

  // ---------------------------------------------------------------- drafts

  function Paths(d: Draft): (p: seq<nat>)
    ensures |p| == |d.sources|
  {
    seq(|d.sources|, i requires 0 <= i < |d.sources| => d.sources[i].path)
  }

  /** What the draft and the material policy guarantee: sorted distinct selections,
      at most a hundred files, and no source that is blank. */
  ghost predicate ValidDraft(d: Draft) {
    && 0 < |d.sources| <= MAX_FILES
    && (forall i, j :: 0 <= i < j < |d.sources| ==> d.sources[i].path < d.sources[j].path)
    && forall i :: 0 <= i < |d.sources| ==> NotBlank(d.sources[i].text)
  }

  predicate NotBlank(text: string) {
    exists p :: 0 <= p < |text| && !White(text[p])
  }

  /** The source with a path, if the draft has one. */
  function Entry(sources: seq<Source>, path: nat): (e: Option<Source>)
    ensures e.Some? ==> e.value in sources && e.value.path == path
    ensures e.None? ==> forall s :: s in sources ==> s.path != path
  {
    if sources == [] then None
    else if sources[|sources| - 1].path == path then Some(sources[|sources| - 1])
    else Entry(sources[..|sources| - 1], path)
  }

  lemma {:induction false} EntryOf(d: Draft, i: nat, n: nat)
    requires ValidDraft(d) && i < n <= |d.sources|
    ensures Entry(d.sources[..n], d.sources[i].path) == Some(d.sources[i])
  {
    assert d.sources[..n][..n - 1] == d.sources[..n - 1];
    if i < n - 1 { EntryOf(d, i, n - 1); }
  }

  // ---------------------------------------------------------------- the walk over segments

  datatype Walk = Walk(next: map<nat, nat>, previous: map<nat, nat>, order: seq<nat>)

  function WalkStart(d: Draft): Walk {
    Walk(map p | p in Paths(d) :: 1, map[], [])
  }

  /** One turn of the verifier's loop; `None` is its `return False`. */
  function WalkStep(d: Draft, w: Walk, s: Segment): Option<Walk> {
    var entry := Entry(d.sources, s.path);
    if || entry.None?
       || s.path !in w.next || s.ordinal != w.next[s.path]
       || s.last > LineCount(entry.value.text)
       || (s.ordinal == 1 && s.first != 1)
       || (s.path in w.previous && s.first != w.previous[s.path] && s.first != w.previous[s.path] + 1)
    then None
    else
      Some(Walk(w.next[s.path := s.ordinal + 1], w.previous[s.path := s.last],
                if w.order == [] || w.order[|w.order| - 1] != s.path then w.order + [s.path] else w.order))
  }

  function WalkOver(d: Draft, segments: seq<Segment>): Option<Walk> {
    if segments == [] then Some(WalkStart(d))
    else
      var w := WalkOver(d, segments[..|segments| - 1]);
      if w.None? then None else WalkStep(d, w.value, segments[|segments| - 1])
  }

  /** The walk reaches the end of every source, in selection order. */
  predicate WalkEnds(d: Draft, w: Walk) {
    && w.order == Paths(d)
    && forall i :: 0 <= i < |d.sources| ==>
                     d.sources[i].path in w.previous && w.previous[d.sources[i].path] == LineCount(d.sources[i].text)
  }

  predicate WellFormed(segments: seq<Segment>) {
    forall i :: 0 <= i < |segments| ==>
                  && 1 <= segments[i].ordinal && 1 <= segments[i].first <= segments[i].last
                  && segments[i].retrievable == segments[i].index.Some?
                  && (segments[i].bundle.Some? ==> segments[i].retrievable)
  }

  predicate SegmentsAccepted(d: Draft, segments: seq<Segment>) {
    WellFormed(segments) && WalkOver(d, segments).Some? && WalkEnds(d, WalkOver(d, segments).value)
  }

  predicate Covers(segments: seq<Segment>, path: nat, line: nat) {
    exists s :: s in segments && s.path == path && s.first <= line <= s.last
  }

  /** A prefix that the walk survives covers every line it has got past. */
  lemma {:induction false} WalkCovers(d: Draft, segments: seq<Segment>, path: nat, line: nat)
    requires WellFormed(segments) && WalkOver(d, segments).Some?
    ensures var w := WalkOver(d, segments).value;
            && (path in w.previous && 1 <= line <= w.previous[path] ==> Covers(segments, path, line))
            && (path in w.next && path !in w.previous ==> w.next[path] == 1)
  {
    if segments != [] {
      var most, s := segments[..|segments| - 1], segments[|segments| - 1];
      WalkCovers(d, most, path, line);
      assert s in segments && forall t :: t in most ==> t in segments;
    }
  }

  /** Acceptance means that no line of any selected source is missing from the segments. */
  lemma AcceptedSegmentsCover(d: Draft, segments: seq<Segment>, i: nat, line: nat)
    requires SegmentsAccepted(d, segments) && i < |d.sources| && 1 <= line <= LineCount(d.sources[i].text)
    ensures Covers(segments, d.sources[i].path, line)
  {
    WalkCovers(d, segments, d.sources[i].path, line);
  }

  ghost predicate Unique(segments: seq<Segment>) {
    forall i, j :: 0 <= i < j < |segments| ==>
                     segments[i].path != segments[j].path || segments[i].ordinal != segments[j].ordinal
  }

  lemma StepGrows(d: Draft, w: Walk, s: Segment, path: nat)
    requires WalkStep(d, w, s).Some?
    ensures var next := WalkStep(d, w, s).value.next;
            && s.path in next && next[s.path] == s.ordinal + 1
            && (path in w.next ==> path in next && w.next[path] <= next[path])
  {
  }

  lemma {:induction false} WalkBelow(d: Draft, segments: seq<Segment>, i: nat)
    requires WalkOver(d, segments).Some? && i < |segments|
    ensures var w := WalkOver(d, segments).value; segments[i].path in w.next && segments[i].ordinal < w.next[segments[i].path]
  {
    var n := |segments| - 1;
    var most := segments[..n];
    StepGrows(d, WalkOver(d, most).value, segments[n], segments[i].path);
    if i < n { WalkBelow(d, most, i); }
  }

  /** A surviving walk never meets the same path and ordinal twice. */
  lemma {:induction false} WalkUnique(d: Draft, segments: seq<Segment>)
    requires WalkOver(d, segments).Some?
    ensures Unique(segments)
  {
    if segments != [] {
      var n := |segments| - 1;
      var most, s := segments[..n], segments[n];
      WalkUnique(d, most);
      forall i | 0 <= i < n ensures most[i].path != s.path || most[i].ordinal != s.ordinal {
        WalkBelow(d, most, i);
        StepFacts(d, WalkOver(d, most).value, s);
      }
      UniqueMore(most, s);
      assert segments == most + [s];
    }
  }

  lemma StepFacts(d: Draft, w: Walk, s: Segment)
    requires WalkStep(d, w, s).Some?
    ensures s.path in w.next && s.ordinal == w.next[s.path]
  {
  }

  lemma UniqueMore(most: seq<Segment>, s: Segment)
    requires Unique(most) && forall i :: 0 <= i < |most| ==> most[i].path != s.path || most[i].ordinal != s.ordinal
    ensures Unique(most + [s])
  {
  }

  method WalkSegments(d: Draft, segments: seq<Segment>) returns (ok: bool)
    ensures ok <==> WalkOver(d, segments).Some? && WalkEnds(d, WalkOver(d, segments).value)
  {
    var w := WalkStart(d);
    for i := 0 to |segments|
      invariant WalkOver(d, segments[..i]) == Some(w)
    {
      assert segments[..i + 1][..i] == segments[..i];
      var next := WalkStep(d, w, segments[i]);
      if next.None? {
        WalkStops(d, segments, i + 1);
        return false;
      }
      w := next.value;
    }
    assert segments[..|segments|] == segments;
    ok := WalkEnds(d, w);
  }

  lemma {:induction false} WalkStops(d: Draft, segments: seq<Segment>, i: nat)
    requires i <= |segments| && WalkOver(d, segments[..i]).None?
    ensures WalkOver(d, segments).None?
    decreases |segments| - i
  {
    if i == |segments| {
      assert segments[..i] == segments;
    } else {
      assert segments[..i + 1][..i] == segments[..i];
      WalkStops(d, segments, i + 1);
    }
  }

  // ---------------------------------------------------------------- hits

  /** Not after, in the order (-score, path, ordinal, start, end, chunk). */
  predicate NotAfter(a: Hit, b: Hit) {
    if a.score != b.score then a.score > b.score
    else if a.path != b.path then a.path < b.path
    else if a.ordinal != b.ordinal then a.ordinal < b.ordinal
    else if a.start != b.start then a.start < b.start
    else if a.end != b.end then a.end < b.end
    else a.chunk <= b.chunk
  }

  predicate Ordered(hits: seq<Hit>) {
    forall i, j :: 0 <= i < |hits| && 0 <= j < |hits| && j == i + 1 ==> NotAfter(hits[i], hits[j])
  }

  /** The sort key of a hit. */
  function SortKey(h: Hit): (k: seq<int>)
    ensures |k| == 6
  {
    [-h.score, h.path, h.ordinal, h.start, h.end, h.chunk]
  }

  /** The first place where two keys differ. */
  predicate Differ(a: seq<int>, b: seq<int>, i: nat)
    requires |a| == |b|
  {
    i < |a| && a[i] != b[i] && forall j :: 0 <= j < i ==> a[j] == b[j]
  }

  /** The order is that of the keys: the first place where they differ decides. */
  lemma NotAfterIsKeyOrder(a: Hit, b: Hit)
    ensures NotAfter(a, b) <==> forall i: nat :: Differ(SortKey(a), SortKey(b), i) ==> SortKey(a)[i] < SortKey(b)[i]
  {
    var x, y := SortKey(a), SortKey(b);
    if x != y {
      var i := FirstDifference(x, y, 6);
      forall j: nat | Differ(x, y, j) ensures j == i {}
      assert (i > 0 ==> x[0] == y[0]) && (i > 1 ==> x[1] == y[1]) && (i > 2 ==> x[2] == y[2]);
      assert (i > 3 ==> x[3] == y[3]) && (i > 4 ==> x[4] == y[4]);
      assert NotAfter(a, b) <==> x[i] < y[i];
    } else {
      assert forall j :: 0 <= j < 6 ==> x[j] == y[j];
      assert x[0] == y[0] && x[1] == y[1] && x[2] == y[2] && x[3] == y[3] && x[4] == y[4] && x[5] == y[5];
    }
  }

  lemma {:induction false} FirstDifference(x: seq<int>, y: seq<int>, n: nat) returns (i: nat)
    requires |x| == |y| && n <= |x| && x[..n] != y[..n]
    ensures i < n && Differ(x, y, i)
  {
    var m: nat := n - 1;
    if x[..m] == y[..m] {
      assert forall j :: 0 <= j < m ==> x[j] == x[..m][j] == y[..m][j] == y[j];
      i := m;
    } else {
      i := FirstDifference(x, y, m);
    }
  }

  function Hits(r: Result): (h: seq<Hit>)
    ensures |h| == |r.hits|
  {
    seq(|r.hits|, i requires 0 <= i < |r.hits| => r.hits[i].hit)
  }

  /** `next(item for item in segments if …)` */
  function FirstSegment(segments: seq<Segment>, path: nat, ordinal: nat): (s: Option<Segment>)
    ensures s.Some? ==> s.value in segments && s.value.path == path && s.value.ordinal == ordinal
  {
    if segments == [] then None
    else if segments[0].path == path && segments[0].ordinal == ordinal then Some(segments[0])
    else FirstSegment(segments[1..], path, ordinal)
  }

  lemma {:induction false} FirstIsOnly(segments: seq<Segment>, s: Segment)
    requires Unique(segments) && s in segments
    ensures FirstSegment(segments, s.path, s.ordinal) == Some(s)
  {
    if segments[0] != s {
      var k :| 0 <= k < |segments| && segments[k] == s;
      assert segments[0].path != s.path || segments[0].ordinal != s.ordinal;
      assert segments[1..][k - 1] == s;
      FirstIsOnly(segments[1..], s);
    }
  }

  /** A hit and the segment it names. */
  predicate Backs(s: Segment, h: Hit) {
    s.path == h.path && s.ordinal == h.ordinal && s.retrievable && s.index == Some(h.index) && s.bundle == Some(h.bundle)
  }

  /** A hit cites lines of its own segment. */
  predicate CitesWithin(v: Version, s: Segment, c: Citation) {
    && c.how.Lexical? && c.path == s.path
    && (if v.WholeSegmentOnly? then (c.first, c.last) == (s.first, s.last) else s.first <= c.first <= c.last <= s.last)
  }

  predicate HitAccepted(d: Draft, r: Result, h: RankedHit) {
    var s := FirstSegment(r.segments, h.hit.path, h.hit.ordinal);
    && s.Some? && Backs(s.value, h.hit)
    && 1 <= h.citation <= |r.citations|
    && CitesWithin(d.version, s.value, r.citations[h.citation - 1])
  }

  function LexicalIds(citations: seq<Citation>): seq<nat> {
    if citations == [] then []
    else
      var c := citations[|citations| - 1];
      LexicalIds(citations[..|citations| - 1]) + if c.how.Lexical? then [c.id] else []
  }

  function HitIds(hits: seq<RankedHit>): (ids: seq<nat>)
    ensures |ids| == |hits|
  {
    seq(|hits|, i requires 0 <= i < |hits| => hits[i].citation)
  }

  predicate HitsShaped(r: Result) {
    && |r.hits| <= GLOBAL_TOP && (!r.queryRetrievable ==> r.hits == [])
    && (forall i :: 0 <= i < |r.hits| ==> r.hits[i].rank == i + 1 && r.hits[i].hit.score >= 1 && r.hits[i].hit.start < r.hits[i].hit.end)
  }

  predicate HitsDistinct(r: Result) {
    && (forall i, j :: 0 <= i < j < |r.hits| ==> r.hits[i].citation != r.hits[j].citation)
    && (forall i, j :: 0 <= i < j < |r.hits| ==>
                         r.hits[i].hit.path != r.hits[j].hit.path || r.hits[i].hit.ordinal != r.hits[j].hit.ordinal)
  }

  predicate HitsAccepted(d: Draft, r: Result) {
    && HitsShaped(r) && HitsDistinct(r) && Ordered(Hits(r))
    && HitIds(r.hits) == LexicalIds(r.citations)
    && forall i :: 0 <= i < |r.hits| ==> HitAccepted(d, r, r.hits[i])
  }

  predicate QueryAccepted(segments: seq<Segment>, queryRetrievable: bool) {
    forall s :: s in segments && s.retrievable ==> s.bundle.Some? == queryRetrievable
  }

  // ---------------------------------------------------------------- citations and coverage

  predicate CitationAccepted(d: Draft, citations: seq<Citation>, i: nat)
    requires i < |citations|
  {
    var c := citations[i];
    var e := Entry(d.sources, c.path);
    c.id == i + 1 && 1 <= c.first <= c.last && e.Some? && c.digest == e.value.text && c.last <= LineCount(e.value.text)
  }

  function CitedPaths(citations: seq<Citation>): set<nat> {
    set c | c in citations :: c.path
  }

  function LexicalPaths(citations: seq<Citation>): set<nat> {
    set c | c in citations && c.how.Lexical? :: c.path
  }

  function StructuralOrder(citations: seq<Citation>): seq<nat> {
    if citations == [] then []
    else
      var c := citations[|citations| - 1];
      StructuralOrder(citations[..|citations| - 1]) + if c.how.Structural? then [c.path] else []
  }

  /** The selections outside a set, in selection order (which is sorted order). */
  function Outside(paths: seq<nat>, inside: set<nat>): seq<nat> {
    if paths == [] then []
    else Outside(paths[..|paths| - 1], inside) + if paths[|paths| - 1] in inside then [] else [paths[|paths| - 1]]
  }

  predicate CitationsAccepted(d: Draft, citations: seq<Citation>) {
    && |citations| <= MAX_IDENTIFIER
    && (forall i :: 0 <= i < |citations| ==> CitationAccepted(d, citations, i))
    && (forall i, j :: 0 <= i < j < |citations| ==> citations[i].how.Structural? ==> citations[j].how.Structural?)
    && StructuralOrder(citations) == Outside(Paths(d), LexicalPaths(citations))
  }

  function RetrievablePaths(segments: seq<Segment>): set<nat> {
    set s | s in segments && s.retrievable :: s.path
  }

  function RetrievableCount(segments: seq<Segment>): nat {
    if segments == [] then 0
    else RetrievableCount(segments[..|segments| - 1]) + if segments[|segments| - 1].retrievable then 1 else 0
  }

  predicate CoverageAccepted(d: Draft, r: Result) {
    && r.coverage.total == r.coverage.read == |d.sources|
    && r.coverage.segments == |r.segments|
    && r.coverage.indexed == |RetrievablePaths(r.segments)|
    && r.coverage.indexedSegments == RetrievableCount(r.segments)
    && r.coverage.cited == |CitedPaths(r.citations)|
    && r.coverage.unretrievable == Outside(Paths(d), RetrievablePaths(r.segments))
    && r.coverage.uncited == Outside(Paths(d), CitedPaths(r.citations))
  }

  predicate Verified(d: Draft, r: Result) {
    && SegmentsAccepted(d, r.segments)
    && QueryAccepted(r.segments, r.queryRetrievable)
    && CitationsAccepted(d, r.citations)
    && HitsAccepted(d, r)
    && CoverageAccepted(d, r)
  }

  // ---------------------------------------------------------------- what acceptance means

  /** The cited text is the source's, and the lines are lines of it. */
  ghost predicate CitesSource(d: Draft, c: Citation) {
    exists i :: 0 <= i < |d.sources| && d.sources[i].path == c.path && c.digest == d.sources[i].text
                && 1 <= c.first <= c.last <= LineCount(d.sources[i].text)
  }

  /** The hit repeats the identity and both hashes of a retrievable segment, and `c` lexically cites
      lines of that segment, in the first version all of them. */
  ghost predicate RestsOn(v: Version, s: Segment, h: Hit, c: Citation) {
    && h.path == s.path && h.ordinal == s.ordinal && s.retrievable
    && s.index == Some(h.index) && s.bundle == Some(h.bundle) && h.score >= 1 && h.start < h.end
    && c.how == Lexical && c.path == s.path && s.first <= c.first <= c.last <= s.last
    && (v.WholeSegmentOnly? ==> c.first == s.first && c.last == s.last)
  }

  ghost predicate HitRests(d: Draft, r: Result, k: nat)
    requires k < |r.hits| <= |r.citations|
  {
    r.hits[k].rank == k + 1 && exists s :: s in r.segments && RestsOn(d.version, s, r.hits[k].hit, r.citations[k])
  }

  /** In an accepted result each citation has its number and the text of its source, hit `k` is
      cited by citation `k`, and all further citations are structural. */
  lemma AcceptedResultRight(d: Draft, r: Result)
    requires Verified(d, r)
    ensures forall i :: 0 <= i < |r.citations| ==> r.citations[i].id == i + 1 && CitesSource(d, r.citations[i])
    ensures |r.hits| <= |r.citations| && forall k :: 0 <= k < |r.hits| ==> HitRests(d, r, k)
    ensures forall i :: 0 <= i < |r.citations| ==> (r.citations[i].how.Lexical? <==> i < |r.hits|)
  {
    forall i | 0 <= i < |r.citations| ensures r.citations[i].id == i + 1 && CitesSource(d, r.citations[i]) {
      CitationRight(d, r.citations, i);
    }
    IdsInOrder(r.citations);
    forall k | 0 <= k < |r.hits| ensures HitRests(d, r, k) {
      assert HitIds(r.hits)[k] == r.hits[k].citation;
      HitRight(d, r, k);
    }
  }

  lemma CitationRight(d: Draft, citations: seq<Citation>, i: nat)
    requires CitationsAccepted(d, citations) && i < |citations|
    ensures citations[i].id == i + 1 && CitesSource(d, citations[i])
  {
    assert CitationAccepted(d, citations, i);
    var e := Entry(d.sources, citations[i].path).value;
    var j :| 0 <= j < |d.sources| && d.sources[j] == e;
  }

  lemma HitRight(d: Draft, r: Result, k: nat)
    requires HitsAccepted(d, r) && WellFormed(r.segments) && k < |r.hits| <= |r.citations| && r.hits[k].citation == k + 1
    ensures HitRests(d, r, k)
  {
    assert HitAccepted(d, r, r.hits[k]);
    var s := FirstSegment(r.segments, r.hits[k].hit.path, r.hits[k].hit.ordinal).value;
    var i :| 0 <= i < |r.segments| && r.segments[i] == s;
    assert RestsOn(d.version, s, r.hits[k].hit, r.citations[k]);
  }

  /** When structural citations come last, the lexical ones are numbered from one. */
  lemma {:induction false} IdsInOrder(citations: seq<Citation>)
    requires forall i :: 0 <= i < |citations| ==> citations[i].id == i + 1
    requires forall i, j :: 0 <= i < j < |citations| ==> citations[i].how.Structural? ==> citations[j].how.Structural?
    ensures var ids := LexicalIds(citations);
            && |ids| <= |citations| && (forall k :: 0 <= k < |ids| ==> ids[k] == k + 1)
            && (forall i :: 0 <= i < |citations| ==> (citations[i].how.Lexical? <==> i < |ids|))
  {
    if citations != [] {
      var n := |citations| - 1;
      IdsInOrder(citations[..n]);
      if citations[n].how.Lexical? && n > 0 { assert citations[n - 1].how.Lexical?; }
    }
  }

  lemma {:induction false} OutsideIs(paths: seq<nat>, inside: set<nat>, p: nat)
    ensures p in Outside(paths, inside) <==> p in paths && p !in inside
  {
    if paths != [] {
      OutsideIs(paths[..|paths| - 1], inside, p);
      assert paths == paths[..|paths| - 1] + [paths[|paths| - 1]];
    }
  }

  lemma {:induction false} StructuralIs(citations: seq<Citation>, p: nat)
    ensures p in StructuralOrder(citations) <==> exists c :: c in citations && c.path == p && c.how.Structural?
  {
    if citations != [] {
      var most, last := citations[..|citations| - 1], citations[|citations| - 1];
      StructuralIs(most, p);
      assert citations == most + [last] && last in citations;
      if c :| c in most && c.path == p && c.how.Structural? { assert c in citations; }
    }
  }

  /** Every selected source is cited, structurally exactly when no hit cites it; nothing is reported uncited. */
  lemma AcceptedResultCitesAll(d: Draft, r: Result, i: nat)
    requires Verified(d, r) && i < |d.sources|
    ensures (exists c :: c in r.citations && c.path == d.sources[i].path && c.how.Structural?)
            <==> !exists c :: c in r.citations && c.path == d.sources[i].path && c.how.Lexical?
    ensures d.sources[i].path !in r.coverage.uncited
  {
    var p := d.sources[i].path;
    StructuralIs(r.citations, p);
    OutsideIs(Paths(d), LexicalPaths(r.citations), p);
    OutsideIs(Paths(d), CitedPaths(r.citations), p);
    assert Paths(d)[i] == p;
    assert p in LexicalPaths(r.citations) <==> exists c :: c in r.citations && c.path == p && c.how.Lexical?;
    assert p in CitedPaths(r.citations) <==> exists c :: c in r.citations && c.path == p;
  }

  /** `verify_result_integrity`, structural part. */
  method VerifyResult(d: Draft, r: Result) returns (ok: bool)
    ensures ok <==> Verified(d, r)
  {
    if !WellFormed(r.segments) || !CoverageAccepted(d, r) { return false; }
    var walked := WalkSegments(d, r.segments);
    if !walked { return false; }
    ok := CitationsAccepted(d, r.citations) && HitsAccepted(d, r) && QueryAccepted(r.segments, r.queryRetrievable);
  }
}
