/** `generate_result` without conflicts: segments, hits, citations and coverage.
    Retrieval and the text heuristics are oracles. */
module ResultAssembly {
  import opened Wrappers
  import opened Records
  import opened Segments
  import opened BlockSegments
  import opened MarkdownLines
  import opened ResultVerifier

  datatype Indexing = NotRetrievable | IndexError | Index(hash: Hash)

  datatype RagHit = RagHit(score: int, start: nat, end: nat, chunk: nat)

  datatype Search = NoQueryTokens | SearchError | Bundle(hash: Hash, hits: seq<RagHit>)

  /** The retrieval library and the scoring of text, for the frozen query. */
  datatype Oracle = Oracle(
    index: (nat, string) -> Indexing,
    search: Hash -> Search,
    quota: (nat, string) -> nat,
    worth: string -> Option<int>,
    digit: char -> bool)

  /** Whether a query has tokens depends on the query alone; hits are well formed. */
  ghost predicate Sound(o: Oracle, tokens: bool) {
    forall h :: o.search(h).NoQueryTokens? == !tokens && SoundSearch(o.search(h))
  }

  predicate SoundSearch(s: Search) {
    s.Bundle? ==> forall i :: 0 <= i < |s.hits| ==> s.hits[i].score >= 1 && s.hits[i].start < s.hits[i].end
  }

  ghost predicate NeverFails(o: Oracle) {
    (forall n, t :: !o.index(n, t).IndexError?) && (forall h :: !o.search(h).SearchError?)
  }

  datatype Outcome = Generated(result: Result) | Failed(code: string)

  // ---------------------------------------------------------------- segments

  predicate Grounded(segments: seq<Segment>, h: Hit) {
    h.score >= 1 && h.start < h.end && exists s :: s in segments && Backs(s, h)
  }

  predicate AllGrounded(segments: seq<Segment>, hits: seq<Hit>) {
    forall h :: h in hits ==> Grounded(segments, h)
  }

  lemma GroundedMore(segments: seq<Segment>, more: seq<Segment>, hits: seq<Hit>)
    requires AllGrounded(segments, hits)
    ensures AllGrounded(segments + more, hits)
  {
    forall h | h in hits ensures Grounded(segments + more, h) {
      var s :| s in segments && Backs(s, h);
      assert s in segments + more;
    }
  }

  /** What the retrieval library answers for the text of segment number `k`. */
  ghost predicate IndexedAs(o: Oracle, k: nat, value: string, s: Segment) {
    match o.index(k, value)
    case NotRetrievable => s.index == None && s.bundle == None && !s.retrievable
    case IndexError => false
    case Index(hash) => s.index == Some(hash) && s.retrievable && FoundAs(o, hash, s)
  }

  ghost predicate FoundAs(o: Oracle, index: Hash, s: Segment) {
    match o.search(index)
    case NoQueryTokens => s.bundle == None
    case SearchError => false
    case Bundle(hash, hits) => s.bundle == Some(hash)
  }

  /** The hit is one that the search of the segment found. */
  ghost predicate Found(o: Oracle, s: Segment, h: Hit) {
    && s.index.Some? && o.search(s.index.value).Bundle?
    && exists r :: r in o.search(s.index.value).hits && h == HitOf(s, r)
  }

  function HitOf(s: Segment, r: RagHit): Hit
    requires s.index.Some?
  {
    Hit(r.score, s.path, s.ordinal, r.start, r.end, r.chunk, s.index.value, if s.bundle.Some? then s.bundle.value else 0)
  }

  datatype Piece = Piece(segment: Segment, hits: seq<Hit>)

  /** Index one chunk and search it. */
  method IndexChunk(o: Oracle, n: nat, path: nat, ordinal: nat, c: Chunk, ghost tokens: bool) returns (p: Option<Piece>)
    requires Sound(o, tokens)
    ensures NeverFails(o) ==> p.Some?
    ensures p.Some? ==>
              var s := p.value.segment;
              && s.path == path && s.ordinal == ordinal && s.first == c.first && s.last == c.last
              && IndexedAs(o, n, c.value, s) && forall h :: h in p.value.hits <==> Found(o, s, h)
  {
    var index := o.index(n, c.value);
    if index.IndexError? { return None; }
    if index.NotRetrievable? {
      return Some(Piece(Segment(path, ordinal, None, None, false, c.first, c.last), []));
    }
    var found := o.search(index.hash);
    match found
    case SearchError => return None;
    case NoQueryTokens =>
      return Some(Piece(Segment(path, ordinal, Some(index.hash), None, true, c.first, c.last), []));
    case Bundle(hash, hits) =>
      var lexical := seq(|hits|, i requires 0 <= i < |hits| =>
        Hit(hits[i].score, path, ordinal, hits[i].start, hits[i].end, hits[i].chunk, index.hash, hash));
      var s := Segment(path, ordinal, Some(index.hash), Some(hash), true, c.first, c.last);
      AllFound(o, s, hits, lexical);
      return Some(Piece(s, lexical));
  }

  lemma AllFound(o: Oracle, s: Segment, hits: seq<RagHit>, lexical: seq<Hit>)
    requires s.index.Some? && s.bundle.Some? && o.search(s.index.value) == Bundle(s.bundle.value, hits)
    requires |lexical| == |hits| && forall i :: 0 <= i < |hits| ==> lexical[i] == HitOf(s, hits[i])
    ensures forall h :: h in lexical <==> Found(o, s, h)
  {
    forall h | h in lexical ensures Found(o, s, h) {
      var i :| 0 <= i < |lexical| && lexical[i] == h;
      assert hits[i] in hits;
    }
    forall h | Found(o, s, h) ensures h in lexical {
      var r :| r in hits && h == HitOf(s, r);
      var i :| 0 <= i < |hits| && hits[i] == r;
      assert lexical[i] == h;
    }
  }

  /** What the rest relies on about a piece. */
  lemma PieceSound(o: Oracle, tokens: bool, k: nat, value: string, p: Piece)
    requires Sound(o, tokens) && IndexedAs(o, k, value, p.segment) && forall h :: h in p.hits <==> Found(o, p.segment, h)
    ensures var s := p.segment;
            && s.retrievable == s.index.Some? && s.bundle.Some? == (s.retrievable && tokens)
            && forall h :: h in p.hits ==> Backs(s, h) && h.score >= 1 && h.start < h.end
  {
    var s := p.segment;
    if s.index.Some? {
      var found := o.search(s.index.value);
      assert SoundSearch(found);
      forall h | h in p.hits ensures Backs(s, h) && h.score >= 1 && h.start < h.end {
        var r :| r in found.hits && h == HitOf(s, r);
        var i :| 0 <= i < |found.hits| && found.hits[i] == r;
      }
    }
  }

  // ---------------------------------------------------------------- what is gathered

  /** One line of the list of segments: a chunk of a source. */
  datatype Row = Row(path: nat, ordinal: nat, chunk: Chunk)

  function RowsOf(path: nat, chunks: seq<Chunk>): (rows: seq<Row>) {
    seq(|chunks|, j requires 0 <= j < |chunks| => Row(path, j + 1, chunks[j]))
  }

  /** The chunks of the first sources in selection order. */
  function Rows(d: Draft, cuts: seq<seq<Chunk>>): seq<Row>
    requires |cuts| <= |d.sources|
  {
    if cuts == [] then []
    else Rows(d, cuts[..|cuts| - 1]) + RowsOf(d.sources[|cuts| - 1].path, cuts[|cuts| - 1])
  }

  /** How the version cuts a text. */
  ghost predicate CutAs(v: Version, text: string, digit: char -> bool, chunks: seq<Chunk>) {
    && Located(text, chunks, |text|) && Small(chunks)
    && if v.WholeSegmentOnly? then Greedy(text, chunks, |text|) else Blockwise(Lines(text), digit, chunks)
  }

  ghost predicate AllCut(d: Draft, digit: char -> bool, cuts: seq<seq<Chunk>>) {
    |cuts| <= |d.sources| && forall i :: 0 <= i < |cuts| ==> CutAs(d.version, d.sources[i].text, digit, cuts[i])
  }

  predicate Fits(r: Row, s: Segment) {
    s.path == r.path && s.ordinal == r.ordinal && s.first == r.chunk.first && s.last == r.chunk.last
  }

  /** One segment for each row, and the hits of all their searches. */
  ghost predicate Recorded(o: Oracle, rows: seq<Row>, segments: seq<Segment>, lexical: seq<Hit>) {
    && |segments| == |rows|
    && (forall k :: 0 <= k < |rows| ==> Fits(rows[k], segments[k]) && IndexedAs(o, k, rows[k].chunk.value, segments[k]))
    && (forall h :: h in lexical <==> InSome(o, segments, h))
  }

  ghost predicate InSome(o: Oracle, segments: seq<Segment>, h: Hit) {
    exists s :: s in segments && Found(o, s, h)
  }

  lemma RecordedMore(o: Oracle, rows: seq<Row>, g: Gathering, r: Row, p: Piece)
    requires Recorded(o, rows, g.segments, g.lexical)
    requires Fits(r, p.segment) && IndexedAs(o, |g.segments|, r.chunk.value, p.segment)
    requires forall h :: h in p.hits <==> Found(o, p.segment, h)
    ensures Recorded(o, rows + [r], Add(g, p).segments, Add(g, p).lexical)
  {
    var more := g.segments + [p.segment];
    forall h ensures InSome(o, more, h) <==> InSome(o, g.segments, h) || Found(o, p.segment, h) {
      if InSome(o, g.segments, h) {
        var s :| s in g.segments && Found(o, s, h);
        assert s in more;
      }
      assert p.segment in more;
    }
  }

  /** All sources have been cut and searched. */
  ghost predicate GatheredAll(d: Draft, o: Oracle, cuts: seq<seq<Chunk>>, g: Gathering) {
    AllCut(d, o.digit, cuts) && Recorded(o, Rows(d, cuts), g.segments, g.lexical)
  }

  lemma GatheredNext(d: Draft, o: Oracle, cuts: seq<seq<Chunk>>, chunks: seq<Chunk>, g: Gathering)
    requires AllCut(d, o.digit, cuts) && |cuts| < |d.sources| && CutAs(d.version, d.sources[|cuts|].text, o.digit, chunks)
    requires Recorded(o, Rows(d, cuts) + RowsOf(d.sources[|cuts|].path, chunks), g.segments, g.lexical)
    ensures GatheredAll(d, o, cuts + [chunks], g)
  {
    assert (cuts + [chunks])[..|cuts|] == cuts;
  }

  // ---------------------------------------------------------------- where the verifier's walk stands

  predicate Passed(d: Draft, w: Walk, k: nat)
    requires k < |d.sources|
  {
    var p := d.sources[k].path;
    p in w.previous && w.previous[p] == LineCount(d.sources[k].text)
  }

  predicate Untouched(d: Draft, w: Walk, k: nat)
    requires k < |d.sources|
  {
    var p := d.sources[k].path;
    p !in w.previous && p in w.next && w.next[p] == 1
  }

  predicate Within(d: Draft, w: Walk, i: nat, j: nat, last: nat)
    requires i < |d.sources|
  {
    var p := d.sources[i].path;
    if j == 0 then Untouched(d, w, i)
    else p in w.previous && w.previous[p] == last && p in w.next && w.next[p] == j + 1
  }

  /** Where the verifier's walk stands after `j` segments of source `i`. */
  ghost predicate At(d: Draft, w: Walk, i: nat, j: nat, last: nat) {
    && i <= |d.sources| && (j > 0 ==> i < |d.sources|)
    && w.order == Paths(d)[..i] + (if j == 0 then [] else [d.sources[i].path])
    && (forall k :: 0 <= k < i ==> Passed(d, w, k))
    && (forall k :: i < k < |d.sources| ==> Untouched(d, w, k))
    && (i < |d.sources| ==> Within(d, w, i, j, last))
  }

  lemma StartsAt(d: Draft)
    requires ValidDraft(d)
    ensures At(d, WalkStart(d), 0, 0, 0)
  {
    forall k | 0 <= k < |d.sources| ensures d.sources[k].path in WalkStart(d).next {
      assert Paths(d)[k] in Paths(d);
    }
  }

  /** A turn of the walk changes nothing about the other paths. */
  lemma StepElsewhere(d: Draft, w: Walk, s: Segment, k: nat)
    requires k < |d.sources| && d.sources[k].path != s.path && WalkStep(d, w, s).Some?
    ensures Passed(d, WalkStep(d, w, s).value, k) == Passed(d, w, k)
    ensures Untouched(d, WalkStep(d, w, s).value, k) == Untouched(d, w, k)
  {
  }

  lemma StepHere(d: Draft, w: Walk, i: nat, j: nat, last: nat, s: Segment)
    requires ValidDraft(d) && i < |d.sources| && Within(d, w, i, j, last)
    requires s.path == d.sources[i].path && s.ordinal == j + 1 && s.last <= LineCount(d.sources[i].text)
    requires if j == 0 then s.first == 1 else s.first == last || s.first == last + 1
    ensures WalkStep(d, w, s).Some? && Within(d, WalkStep(d, w, s).value, i, j + 1, s.last)
  {
    EntryOf(d, i, |d.sources|);
    assert d.sources[..|d.sources|] == d.sources;
  }

  lemma WalkOn(d: Draft, w: Walk, i: nat, j: nat, last: nat, s: Segment)
    requires ValidDraft(d) && At(d, w, i, j, last) && i < |d.sources|
    requires s.path == d.sources[i].path && s.ordinal == j + 1 && s.last <= LineCount(d.sources[i].text)
    requires if j == 0 then s.first == 1 else s.first == last || s.first == last + 1
    ensures WalkStep(d, w, s).Some? && At(d, WalkStep(d, w, s).value, i, j + 1, s.last)
  {
    StepHere(d, w, i, j, last, s);
    var t := WalkStep(d, w, s).value;
    forall k | 0 <= k < i ensures Passed(d, t, k) {
      assert Passed(d, w, k);
      StepElsewhere(d, w, s, k);
    }
    forall k | i < k < |d.sources| ensures Untouched(d, t, k) {
      assert Untouched(d, w, k);
      StepElsewhere(d, w, s, k);
    }
    OrderOn(d, w, i, j, s);
  }

  lemma OrderOn(d: Draft, w: Walk, i: nat, j: nat, s: Segment)
    requires ValidDraft(d) && i < |d.sources| && s.path == d.sources[i].path && WalkStep(d, w, s).Some?
    requires w.order == Paths(d)[..i] + (if j == 0 then [] else [d.sources[i].path])
    ensures WalkStep(d, w, s).value.order == Paths(d)[..i] + [d.sources[i].path]
  {
    var before, path := Paths(d)[..i], d.sources[i].path;
    if j > 0 {
      assert w.order[|w.order| - 1] == path;
    } else {
      assert w.order == before;
      if i > 0 { assert before[|before| - 1] == Paths(d)[i - 1] == d.sources[i - 1].path; }
    }
  }

  /** The verifier survives the segments so far and stands after `j` segments of source `i`. */
  ghost predicate WalksTo(d: Draft, segments: seq<Segment>, i: nat, j: nat, last: nat) {
    WalkOver(d, segments).Some? && At(d, WalkOver(d, segments).value, i, j, last)
  }

  lemma WalksOn(d: Draft, segments: seq<Segment>, i: nat, j: nat, last: nat, s: Segment)
    requires ValidDraft(d) && WalksTo(d, segments, i, j, last) && i < |d.sources|
    requires s.path == d.sources[i].path && s.ordinal == j + 1 && s.last <= LineCount(d.sources[i].text)
    requires if j == 0 then s.first == 1 else s.first == last || s.first == last + 1
    ensures WalksTo(d, segments + [s], i, j + 1, s.last)
  {
    WalkOn(d, WalkOver(d, segments).value, i, j, last, s);
    assert (segments + [s])[..|segments|] == segments;
  }

  lemma WalksTurn(d: Draft, segments: seq<Segment>, i: nat, j: nat, last: nat)
    requires ValidDraft(d) && i < |d.sources| && j > 0 && last == LineCount(d.sources[i].text)
    requires WalksTo(d, segments, i, j, last)
    ensures WalksTo(d, segments, i + 1, 0, 0)
  {
    assert Paths(d)[..i + 1] == Paths(d)[..i] + [d.sources[i].path];
  }

  lemma WalksHome(d: Draft, segments: seq<Segment>)
    requires WalksTo(d, segments, |d.sources|, 0, 0) && WellFormed(segments)
    ensures SegmentsAccepted(d, segments)
  {
    var w := WalkOver(d, segments).value;
    assert Paths(d)[..|d.sources|] == Paths(d);
    assert w.order == Paths(d);
    forall k | 0 <= k < |d.sources|
      ensures d.sources[k].path in w.previous && w.previous[d.sources[k].path] == LineCount(d.sources[k].text)
    {
      assert Passed(d, w, k);
    }
  }

  /** The state of the first loop. */
  datatype Gathering = Gathering(segments: seq<Segment>, lexical: seq<Hit>, indexed: set<nat>, queryRetrievable: bool)

  ghost predicate Sane(g: Gathering, tokens: bool) {
    && WellFormed(g.segments) && AllGrounded(g.segments, g.lexical)
    && g.indexed == RetrievablePaths(g.segments)
    && (forall s :: s in g.segments && s.retrievable ==> s.bundle.Some? == tokens)
    && g.queryRetrievable == (tokens || RetrievablePaths(g.segments) == {})
  }

  function Add(g: Gathering, p: Piece): Gathering {
    Gathering(g.segments + [p.segment], g.lexical + p.hits,
              if p.segment.retrievable then g.indexed + {p.segment.path} else g.indexed,
              g.queryRetrievable && !(p.segment.retrievable && p.segment.bundle.None?))
  }

  lemma AddSane(g: Gathering, p: Piece, tokens: bool)
    requires Sane(g, tokens)
    requires p.segment.retrievable == p.segment.index.Some? && p.segment.bundle.Some? == (p.segment.retrievable && tokens)
    requires 1 <= p.segment.ordinal && 1 <= p.segment.first <= p.segment.last
    requires forall h :: h in p.hits ==> Backs(p.segment, h) && h.score >= 1 && h.start < h.end
    ensures Sane(Add(g, p), tokens)
  {
    var s := p.segment;
    GroundedMore(g.segments, [s], g.lexical);
    assert s in g.segments + [s];
    RetrievableNext(g.segments, s);
  }

  lemma RetrievableNext(segments: seq<Segment>, s: Segment)
    ensures RetrievablePaths(segments + [s]) == RetrievablePaths(segments) + if s.retrievable then {s.path} else {}
  {
    var more := segments + [s];
    assert s in more && forall t :: t in segments ==> t in more;
  }

  /** One chunk of a source: its segment and hits. */
  method GatherChunk(d: Draft, o: Oracle, i: nat, j: nat, c: Chunk, before: Gathering, ghost tokens: bool, ghost last: nat, ghost rows: seq<Row>)
      returns (g: Gathering, ok: bool)
    requires ValidDraft(d) && Sound(o, tokens) && i < |d.sources| && Sane(before, tokens)
    requires WalksTo(d, before.segments, i, j, last) && Recorded(o, rows, before.segments, before.lexical)
    requires 1 <= c.first <= c.last <= LineCount(d.sources[i].text)
    requires if j == 0 then c.first == 1 else c.first == last || c.first == last + 1
    ensures NeverFails(o) ==> ok
    ensures ok ==> Sane(g, tokens) && WalksTo(d, g.segments, i, j + 1, c.last)
    ensures ok ==> Recorded(o, rows + [Row(d.sources[i].path, j + 1, c)], g.segments, g.lexical)
  {
    g := before;
    var path := d.sources[i].path;
    var p := IndexChunk(o, |g.segments|, path, j + 1, c, tokens);
    if p.None? { return g, false; }
    PieceSound(o, tokens, |g.segments|, c.value, p.value);
    AddSane(g, p.value, tokens);
    WalksOn(d, g.segments, i, j, last, p.value.segment);
    RecordedMore(o, rows, g, Row(path, j + 1, c), p.value);
    return Add(g, p.value), true;
  }

  /** All segments of one source. */
  method GatherSource(d: Draft, o: Oracle, i: nat, before: Gathering, ghost tokens: bool, ghost cuts: seq<seq<Chunk>>)
      returns (g: Gathering, ok: bool, ghost chunks: seq<Chunk>)
    requires ValidDraft(d) && Sound(o, tokens) && i < |d.sources| && Sane(before, tokens)
    requires WalksTo(d, before.segments, i, 0, 0) && |cuts| == i && GatheredAll(d, o, cuts, before)
    ensures NeverFails(o) ==> ok
    ensures ok ==> Sane(g, tokens) && WalksTo(d, g.segments, i + 1, 0, 0) && GatheredAll(d, o, cuts + [chunks], g)
  {
    g := before;
    var source := d.sources[i];
    var parts := WalkableChunks(d.version, source.text, o.digit);
    chunks := parts;
    ghost var last, rows := 0, Rows(d, cuts);
    assert rows == rows + RowsOf(source.path, parts[..0]);
    for j := 0 to |parts|
      invariant j > 0 ==> last == parts[j - 1].last
      invariant Sane(g, tokens) && WalksTo(d, g.segments, i, j, last)
      invariant Recorded(o, rows + RowsOf(source.path, parts[..j]), g.segments, g.lexical)
    {
      var next, fine := GatherChunk(d, o, i, j, parts[j], g, tokens, last, rows + RowsOf(source.path, parts[..j]));
      if !fine { return g, false, chunks; }
      NextRow(rows, source.path, parts, j);
      last := parts[j].last;
      g := next;
    }
    assert parts[..|parts|] == parts;
    GatheredNext(d, o, cuts, parts, g);
    WalksTurn(d, g.segments, i, |parts|, last);
    ok := true;
  }

  lemma NextRow(rows: seq<Row>, path: nat, chunks: seq<Chunk>, j: nat)
    requires j < |chunks|
    ensures rows + RowsOf(path, chunks[..j]) + [Row(path, j + 1, chunks[j])] == rows + RowsOf(path, chunks[..j + 1])
  {
  }

  method WalkableChunks(v: Version, text: string, digit: char -> bool) returns (chunks: seq<Chunk>)
    requires NotBlank(text)
    ensures Walkable(chunks, LineCount(text)) && CutAs(v, text, digit, chunks)
  {
    chunks := ChunksOf(v, text, digit);
    assert text != "";
    SegmentsPartition(text, chunks);
  }

  /** `_segments_for_version` */
  method ChunksOf(v: Version, text: string, digit: char -> bool) returns (chunks: seq<Chunk>)
    ensures CutAs(v, text, digit, chunks)
  {
    if v.WholeSegmentOnly? { chunks := SegmentsV1(text); } else { chunks := SegmentsV2(text, digit); }
  }

  /** The first loop of `generate_result`: the sources are cut and searched in selection order. */
  method Gather(d: Draft, o: Oracle, ghost tokens: bool) returns (g: Gathering, ok: bool, ghost cuts: seq<seq<Chunk>>)
    requires ValidDraft(d) && Sound(o, tokens)
    ensures NeverFails(o) ==> ok
    ensures ok ==> Sane(g, tokens) && SegmentsAccepted(d, g.segments) && |cuts| == |d.sources| && GatheredAll(d, o, cuts, g)
  {
    g, cuts := Gathering([], [], {}, true), [];
    StartsAt(d);
    for i := 0 to |d.sources|
      invariant Sane(g, tokens) && WalksTo(d, g.segments, i, 0, 0)
      invariant |cuts| == i && GatheredAll(d, o, cuts, g)
    {
      ghost var chunks;
      var next, fine;
      next, fine, chunks := GatherSource(d, o, i, g, tokens, cuts);
      if !fine { return g, false, cuts; }
      g, cuts := next, cuts + [chunks];
    }
    WalksHome(d, g.segments);
    ok := true;
  }
}
