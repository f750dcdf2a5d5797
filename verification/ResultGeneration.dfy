/** The rest of `generate_result`: citations for the chosen hits, a structural citation
    for every source left over, coverage, and the closing call of the verifier. */
module ResultGeneration {
  import opened Wrappers
  import opened Records
  import opened Segments
  import opened BlockSegments
  import opened MarkdownLines
  import opened ResultVerifier
  import opened ResultAssembly
  import opened HitSelection

  // ---------------------------------------------------------------- one citation

  /** `_citation`: refused when the span is empty or the list is full. */
  method Cite(citations: seq<Citation>, source: Source, first: nat, last: nat, how: Method) returns (r: Option<seq<Citation>>)
    ensures r.Some? <==> 1 <= first <= last <= LineCount(source.text) && |citations| < MAX_CITATIONS
    ensures r.Some? ==> r.value == citations + [Citation(|citations| + 1, source.path, source.text, first, last, how)]
  {
    if 1 <= first <= last <= LineCount(source.text) { SpanNonEmpty(source.text, first, last); }
    if LineSpan(source.text, first, last) == "" || |citations| >= MAX_CITATIONS { return None; }
    return Some(citations + [Citation(|citations| + 1, source.path, source.text, first, last, how)]);
  }

  // ---------------------------------------------------------------- lexical citations

  /** Hit number `k` and citation number `k` agree. */
  predicate Paired(d: Draft, segments: seq<Segment>, hits: seq<Hit>, citations: seq<Citation>, k: nat)
    requires k < |hits| && k < |citations|
  {
    var s := FirstSegment(segments, hits[k].path, hits[k].ordinal);
    && s.Some? && Backs(s.value, hits[k]) && CitesWithin(d.version, s.value, citations[k])
    && CitationAccepted(d, citations, k)
  }

  ghost predicate AllPaired(d: Draft, segments: seq<Segment>, hits: seq<Hit>, citations: seq<Citation>) {
    |hits| == |citations| && forall k :: 0 <= k < |hits| ==> Paired(d, segments, hits, citations, k)
  }

  lemma PairedMore(d: Draft, segments: seq<Segment>, hits: seq<Hit>, citations: seq<Citation>, h: Hit, c: Citation)
    requires AllPaired(d, segments, hits, citations)
    requires Paired(d, segments, hits + [h], citations + [c], |hits|)
    ensures AllPaired(d, segments, hits + [h], citations + [c])
  {
    forall k | 0 <= k < |hits| ensures Paired(d, segments, hits + [h], citations + [c], k) {
      assert Paired(d, segments, hits, citations, k);
    }
  }

  /** The accepted hits are in order, name different segments, and come from `chosen`. */
  ghost predicate Subsequence(hits: seq<Hit>, chosen: seq<Hit>) {
    && |hits| <= |chosen| && Ordered(hits) && Distinct(hits)
    && (forall h :: h in hits ==> h in chosen)
    && (hits != [] ==> NotAfter(hits[|hits| - 1], chosen[|chosen| - 1]))
  }

  lemma SubsequenceSkip(hits: seq<Hit>, chosen: seq<Hit>, h: Hit)
    requires Subsequence(hits, chosen) && (chosen != [] ==> NotAfter(chosen[|chosen| - 1], h))
    ensures Subsequence(hits, chosen + [h])
  {
    if hits != [] { NotAfterTransitive(hits[|hits| - 1], chosen[|chosen| - 1], h); }
  }

  lemma SubsequenceTake(hits: seq<Hit>, chosen: seq<Hit>, h: Hit)
    requires Subsequence(hits, chosen) && (chosen != [] ==> NotAfter(chosen[|chosen| - 1], h)) && NewTo(chosen, h)
    ensures Subsequence(hits + [h], chosen + [h])
  {
    SubsequenceSkip(hits, chosen, h);
    assert NewTo(hits, h);
  }

  lemma TakeOne(chosen: seq<Hit>, i: nat)
    requires i < |chosen| && Ordered(chosen) && Distinct(chosen)
    ensures chosen[..i + 1] == chosen[..i] + [chosen[i]] && NewTo(chosen[..i], chosen[i])
    ensures i > 0 ==> NotAfter(chosen[..i][i - 1], chosen[i])
  {
  }

  /** The lines by which a segment is cited: all of them, or in the versions that cite the best line
      the last of those worth most, and none if no line is worth citing. */
  ghost predicate QuotedLines(d: Draft, o: Oracle, s: Segment, lines: Option<(nat, nat)>)
    requires Inside(d, s)
  {
    var text := Entry(d.sources, s.path).value.text;
    if !d.version.BestLine? then lines == Some((s.first, s.last))
    else if lines.None? then forall n :: s.first <= n <= s.last ==> Worth(text, o.worth, n).None?
    else
      && lines.value.0 == lines.value.1 && s.first <= lines.value.0 <= s.last && Worth(text, o.worth, lines.value.0).Some?
      && forall n :: s.first <= n <= s.last ==> NoBetter(text, o.worth, n, lines.value.0)
  }

  /** The segment of a hit is cited by these lines. */
  ghost predicate Quoted(d: Draft, o: Oracle, segments: seq<Segment>, h: Hit, lines: Option<(nat, nat)>) {
    exists s :: s in segments && Backs(s, h) && Inside(d, s) && QuotedLines(d, o, s, lines)
  }

  /** Each hit is cited by its lines, and a chosen hit without citation has no line worth citing. */
  ghost predicate AllQuoted(d: Draft, o: Oracle, segments: seq<Segment>, chosen: seq<Hit>, hits: seq<Hit>, citations: seq<Citation>) {
    && |hits| <= |citations|
    && (forall k :: 0 <= k < |hits| ==> Quoted(d, o, segments, hits[k], Some((citations[k].first, citations[k].last))))
    && (forall h :: h in chosen ==> h in hits || Quoted(d, o, segments, h, None))
  }

  lemma QuotedMore(d: Draft, o: Oracle, segments: seq<Segment>, chosen: seq<Hit>, hits: seq<Hit>, citations: seq<Citation>, h: Hit, c: Citation)
    requires AllQuoted(d, o, segments, chosen, hits, citations) && |hits| == |citations|
    requires Quoted(d, o, segments, h, Some((c.first, c.last)))
    ensures AllQuoted(d, o, segments, chosen + [h], hits + [h], citations + [c])
  {
    forall x | x in chosen + [h] ensures x in hits + [h] || Quoted(d, o, segments, x, None) {
      if x in hits || x == h { assert x in hits + [h]; }
    }
  }

  /** The segment, source and lines that a hit cites; none when the block says nothing. */
  method CitedLines(d: Draft, o: Oracle, segments: seq<Segment>, h: Hit) returns (s: Segment, source: Source, lines: Option<(nat, nat)>)
    requires Unique(segments) && Grounded(segments, h) && forall t :: t in segments ==> Inside(d, t)
    ensures s in segments && FirstSegment(segments, h.path, h.ordinal) == Some(s) && Backs(s, h)
    ensures Entry(d.sources, s.path) == Some(source) && Inside(d, s) && QuotedLines(d, o, s, lines)
  {
    ghost var t :| t in segments && Backs(t, h);
    FirstIsOnly(segments, t);
    s := FirstSegment(segments, h.path, h.ordinal).value;
    source := Entry(d.sources, s.path).value;
    lines := Some((s.first, s.last));
    if d.version.BestLine? {
      var line := SubstantiveLine(source.text, s.first, s.last, o.worth);
      lines := if line.None? then None else Some((line.value, line.value));
    }
  }

  /** One turn of the loop: the hit is accepted with its citation, or dropped. */
  method CiteHit(d: Draft, o: Oracle, segments: seq<Segment>, h: Hit, hits: seq<Hit>, citations: seq<Citation>, ghost chosen: seq<Hit>)
      returns (accepted: seq<Hit>, cited: seq<Citation>)
    requires Unique(segments) && Grounded(segments, h) && forall t :: t in segments ==> Inside(d, t)
    requires AllPaired(d, segments, hits, citations) && Subsequence(hits, chosen) && AllQuoted(d, o, segments, chosen, hits, citations)
    requires (chosen != [] ==> NotAfter(chosen[|chosen| - 1], h)) && NewTo(chosen, h) && |hits| < GLOBAL_TOP
    ensures AllPaired(d, segments, accepted, cited) && Subsequence(accepted, chosen + [h])
    ensures AllQuoted(d, o, segments, chosen + [h], accepted, cited)
  {
    accepted, cited := hits, citations;
    var s, source, lines := CitedLines(d, o, segments, h);
    assert Quoted(d, o, segments, h, lines);
    SubsequenceSkip(hits, chosen, h);
    if lines.Some? {
      var more := Cite(citations, source, lines.value.0, lines.value.1, Lexical);
      SubsequenceTake(hits, chosen, h);
      PairedMore(d, segments, hits, citations, h, more.value[|citations|]);
      QuotedMore(d, o, segments, chosen, hits, citations, h, more.value[|citations|]);
      accepted, cited := hits + [h], more.value;
    }
  }

  /** The loop over the chosen hits. */
  method CiteHits(d: Draft, o: Oracle, segments: seq<Segment>, chosen: seq<Hit>) returns (hits: seq<Hit>, citations: seq<Citation>)
    requires Unique(segments) && Chosen(segments, chosen) && Ordered(chosen)
    requires forall t :: t in segments ==> Inside(d, t)
    ensures AllPaired(d, segments, hits, citations) && Subsequence(hits, chosen)
    ensures AllQuoted(d, o, segments, chosen, hits, citations)
  {
    hits, citations := [], [];
    for i := 0 to |chosen|
      invariant AllPaired(d, segments, hits, citations) && Subsequence(hits, chosen[..i])
      invariant AllQuoted(d, o, segments, chosen[..i], hits, citations)
    {
      TakeOne(chosen, i);
      assert chosen[i] in chosen;
      hits, citations := CiteHit(d, o, segments, chosen[i], hits, citations, chosen[..i]);
    }
    assert chosen[..|chosen|] == chosen;
  }

  // ---------------------------------------------------------------- structural citations

  predicate Nonblank(line: string) {
    exists q :: 0 <= q < |line| && !White(line[q])
  }

  /** Line `n` (counting from 1) has something on it. */
  predicate NonblankLine(text: string, n: nat)
    requires 1 <= n <= LineCount(text)
  {
    Nonblank(Lines(text)[n - 1])
  }

  lemma NonblankPart(text: string, from: nat, to: nat, p: nat)
    requires from <= p < to <= |text| && !White(text[p])
    ensures Nonblank(text[from..to])
  {
    assert text[from..to][p - from] == text[p];
  }

  lemma LineIs(text: string, k: nat)
    requires k < LineCount(text)
    ensures var (from, to) := (Start(Lines(text), k), Start(Lines(text), k + 1));
            from <= to <= |text| && Lines(text)[k] == text[from..to]
  {
    LinesJoin(text);
    JoinAt(Lines(text), k, Start(Lines(text), k), Start(Lines(text), k + 1));
  }

  lemma SomeLineNonblank(text: string) returns (n: nat)
    requires NotBlank(text)
    ensures 1 <= n <= LineCount(text) && NonblankLine(text, n)
  {
    var p: nat :| p < |text| && !White(text[p]);
    var k := LineHolding(text, p);
    LineIs(text, k);
    NonblankPart(text, Start(Lines(text), k), Start(Lines(text), k + 1), p);
    n := k + 1;
  }

  /** The first line with something on it. */
  method FirstNonblank(text: string) returns (r: Option<nat>)
    ensures r.None? ==> forall n :: 1 <= n <= LineCount(text) ==> !NonblankLine(text, n)
    ensures r.Some? ==> 1 <= r.value <= LineCount(text) && NonblankLine(text, r.value)
    ensures r.Some? ==> forall n :: 1 <= n < r.value ==> !NonblankLine(text, n)
  {
    for i := 0 to LineCount(text)
      invariant forall n :: 1 <= n <= i ==> !NonblankLine(text, n)
    {
      if NonblankLine(text, i + 1) { return Some(i + 1); }
    }
    return None;
  }

  /** The citation is of one line of its source, the first with something on it. */
  ghost predicate CitesFirstLine(d: Draft, c: Citation) {
    var e := Entry(d.sources, c.path);
    && e.Some? && c.first == c.last && 1 <= c.first <= LineCount(e.value.text) && NonblankLine(e.value.text, c.first)
    && forall n :: 1 <= n < c.first ==> !NonblankLine(e.value.text, n)
  }

  ghost predicate StructuralFirst(d: Draft, citations: seq<Citation>) {
    forall k :: 0 <= k < |citations| && citations[k].how.Structural? ==> CitesFirstLine(d, citations[k])
  }

  /** The citations so far: the lexical ones, then one structural citation for each
      of the first `i` selections that has none. */
  ghost predicate Continued(d: Draft, lexical: seq<Citation>, citations: seq<Citation>, i: nat)
    requires i <= |d.sources|
  {
    && lexical <= citations && |citations| <= |lexical| + i
    && (forall k :: 0 <= k < |citations| ==> CitationAccepted(d, citations, k))
    && (forall k :: 0 <= k < |citations| ==> citations[k].how.Structural? == (k >= |lexical|))
    && StructuralFirst(d, citations)
    && StructuralOrder(citations) == Outside(Paths(d)[..i], LexicalPaths(lexical))
    && LexicalIds(citations) == LexicalIds(lexical)
    && CitedPaths(citations) == LexicalPaths(lexical) + (set k | 0 <= k < i :: Paths(d)[k])
  }

  lemma ContinuedSkip(d: Draft, lexical: seq<Citation>, citations: seq<Citation>, i: nat)
    requires i < |d.sources| && Continued(d, lexical, citations, i) && Paths(d)[i] in LexicalPaths(lexical)
    ensures Continued(d, lexical, citations, i + 1)
  {
    assert Paths(d)[..i + 1][..i] == Paths(d)[..i];
  }

  lemma ContinuedTake(d: Draft, lexical: seq<Citation>, citations: seq<Citation>, i: nat, c: Citation)
    requires i < |d.sources| && Continued(d, lexical, citations, i) && Paths(d)[i] !in LexicalPaths(lexical)
    requires c.path == Paths(d)[i] && c.how.Structural? && CitationAccepted(d, citations + [c], |citations|) && CitesFirstLine(d, c)
    ensures Continued(d, lexical, citations + [c], i + 1)
  {
    var more := citations + [c];
    assert Paths(d)[..i + 1][..i] == Paths(d)[..i];
    assert more[..|citations|] == citations;
    forall k | 0 <= k < |citations| ensures CitationAccepted(d, more, k) {
      assert CitationAccepted(d, citations, k);
    }
    CitedMore(citations, c);
  }

  lemma CitedMore(citations: seq<Citation>, c: Citation)
    ensures CitedPaths(citations + [c]) == CitedPaths(citations) + {c.path}
  {
    assert c in citations + [c] && forall x :: x in citations ==> x in citations + [c];
  }

  lemma {:induction false} ContinuedStarts(d: Draft, lexical: seq<Citation>)
    requires forall k :: 0 <= k < |lexical| ==> CitationAccepted(d, lexical, k) && lexical[k].how.Lexical?
    ensures Continued(d, lexical, lexical, 0)
  {
    NoStructural(lexical);
    assert CitedPaths(lexical) == LexicalPaths(lexical);
  }

  lemma {:induction false} NoStructural(lexical: seq<Citation>)
    requires forall k :: 0 <= k < |lexical| ==> lexical[k].how.Lexical?
    ensures StructuralOrder(lexical) == []
  {
    if lexical != [] { NoStructural(lexical[..|lexical| - 1]); }
  }

  /** A structural citation of source `i`: its first line that is not blank. */
  method CiteSource(d: Draft, citations: seq<Citation>, i: nat) returns (more: seq<Citation>)
    requires ValidDraft(d) && i < |d.sources| && |citations| < MAX_CITATIONS
    ensures |more| == |citations| + 1 && more[..|citations|] == citations
    ensures more[|citations|].path == d.sources[i].path && more[|citations|].how.Structural?
    ensures CitationAccepted(d, more, |citations|) && CitesFirstLine(d, more[|citations|])
  {
    var source := d.sources[i];
    ghost var n := SomeLineNonblank(source.text);
    var line := FirstNonblank(source.text);
    var cited := Cite(citations, source, line.value, line.value, Structural);
    more := cited.value;
    EntryOf(d, i, |d.sources|);
    assert d.sources[..|d.sources|] == d.sources;
  }

  lemma CitedIsLexical(d: Draft, lexical: seq<Citation>, citations: seq<Citation>, i: nat)
    requires ValidDraft(d) && i < |d.sources| && Continued(d, lexical, citations, i)
    ensures d.sources[i].path in CitedPaths(citations) <==> Paths(d)[i] in LexicalPaths(lexical)
  {
    assert forall k :: 0 <= k < i ==> Paths(d)[k] != Paths(d)[i];
  }

  /** One turn of the loop over the selections. */
  method CiteNext(d: Draft, ghost lexical: seq<Citation>, citations: seq<Citation>, i: nat) returns (more: seq<Citation>)
    requires ValidDraft(d) && i < |d.sources| && |lexical| <= GLOBAL_TOP && Continued(d, lexical, citations, i)
    ensures Continued(d, lexical, more, i + 1)
  {
    CitedIsLexical(d, lexical, citations, i);
    if d.sources[i].path in CitedPaths(citations) {
      ContinuedSkip(d, lexical, citations, i);
      more := citations;
    } else {
      more := CiteSource(d, citations, i);
      assert more == citations + [more[|citations|]];
      ContinuedTake(d, lexical, citations, i, more[|citations|]);
    }
  }

  /** The loop over the selections without a citation. */
  method CiteSources(d: Draft, lexical: seq<Citation>) returns (citations: seq<Citation>)
    requires ValidDraft(d) && |lexical| <= GLOBAL_TOP
    requires forall k :: 0 <= k < |lexical| ==> CitationAccepted(d, lexical, k) && lexical[k].how.Lexical?
    ensures Continued(d, lexical, citations, |d.sources|)
    ensures |citations| <= GLOBAL_TOP + MAX_FILES < MAX_CITATIONS
  {
    citations := lexical;
    ContinuedStarts(d, lexical);
    for i := 0 to |d.sources|
      invariant Continued(d, lexical, citations, i)
    {
      citations := CiteNext(d, lexical, citations, i);
    }
  }

  // ---------------------------------------------------------------- the result

  function CoverageOf(d: Draft, g: Gathering, citations: seq<Citation>): Coverage {
    Coverage(|d.sources|, |d.sources|, |g.indexed|, Outside(Paths(d), g.indexed),
             |CitedPaths(citations)|, |g.segments|, RetrievableCount(g.segments), Outside(Paths(d), CitedPaths(citations)))
  }

  function Ranked(hits: seq<Hit>): (r: seq<RankedHit>)
    ensures |r| == |hits|
  {
    seq(|hits|, i requires 0 <= i < |hits| => RankedHit(i + 1, hits[i], i + 1))
  }

  lemma {:induction false} IdsAre(citations: seq<Citation>, hits: seq<Hit>)
    requires |citations| == |hits|
    requires forall k :: 0 <= k < |hits| ==> citations[k].how.Lexical? && citations[k].id == k + 1
    ensures LexicalIds(citations) == HitIds(Ranked(hits))
  {
    if citations != [] {
      var n := |hits| - 1;
      IdsAre(citations[..n], hits[..n]);
      assert HitIds(Ranked(hits)) == HitIds(Ranked(hits[..n])) + [n + 1];
    }
  }

  lemma LexicalPathsKept(d: Draft, lexical: seq<Citation>, citations: seq<Citation>)
    requires Continued(d, lexical, citations, |d.sources|)
    requires forall k :: 0 <= k < |lexical| ==> lexical[k].how.Lexical?
    ensures LexicalPaths(citations) == LexicalPaths(lexical)
  {
    forall c | c in citations && c.how.Lexical? ensures c in lexical {
      var k :| 0 <= k < |citations| && citations[k] == c;
      assert citations[k] == lexical[k];
    }
    forall c | c in lexical ensures c in citations {
      var k :| 0 <= k < |lexical| && lexical[k] == c;
      assert citations[k] == c;
    }
  }

  lemma CitationsFine(d: Draft, lexical: seq<Citation>, citations: seq<Citation>)
    requires Continued(d, lexical, citations, |d.sources|) && |citations| <= MAX_IDENTIFIER
    requires forall k :: 0 <= k < |lexical| ==> lexical[k].how.Lexical?
    ensures CitationsAccepted(d, citations)
  {
    LexicalPathsKept(d, lexical, citations);
    assert Paths(d)[..|d.sources|] == Paths(d);
  }

  lemma PairedFacts(d: Draft, segments: seq<Segment>, hits: seq<Hit>, lexical: seq<Citation>)
    requires AllPaired(d, segments, hits, lexical)
    ensures forall k :: 0 <= k < |lexical| ==>
                          lexical[k].how.Lexical? && lexical[k].id == k + 1 && CitationAccepted(d, lexical, k)
  {
    forall k | 0 <= k < |lexical|
      ensures lexical[k].how.Lexical? && lexical[k].id == k + 1 && CitationAccepted(d, lexical, k)
    {
      assert Paired(d, segments, hits, lexical, k);
    }
  }

  lemma EachHitFine(d: Draft, r: Result, hits: seq<Hit>, lexical: seq<Citation>, k: nat)
    requires AllPaired(d, r.segments, hits, lexical) && r.hits == Ranked(hits) && lexical <= r.citations && k < |hits|
    ensures HitAccepted(d, r, r.hits[k])
  {
    assert Paired(d, r.segments, hits, lexical, k);
    assert r.citations[k] == lexical[k];
  }

  lemma HitsFine(d: Draft, r: Result, hits: seq<Hit>, chosen: seq<Hit>, lexical: seq<Citation>)
    requires Chosen(r.segments, chosen) && QueryAccepted(r.segments, r.queryRetrievable)
    requires AllPaired(d, r.segments, hits, lexical) && Subsequence(hits, chosen) && r.hits == Ranked(hits)
    requires lexical <= r.citations && LexicalIds(r.citations) == LexicalIds(lexical)
    ensures HitsAccepted(d, r)
  {
    PairedFacts(d, r.segments, hits, lexical);
    IdsAre(lexical, hits);
    assert Hits(r) == hits;
    HitsShapedFine(r, hits, chosen);
    HitsDistinctFine(r, hits);
    forall k | 0 <= k < |hits| ensures HitAccepted(d, r, r.hits[k]) {
      EachHitFine(d, r, hits, lexical, k);
    }
  }

  lemma HitsShapedFine(r: Result, hits: seq<Hit>, chosen: seq<Hit>)
    requires Chosen(r.segments, chosen) && QueryAccepted(r.segments, r.queryRetrievable)
    requires |hits| <= |chosen| && (forall h :: h in hits ==> h in chosen) && r.hits == Ranked(hits)
    ensures HitsShaped(r)
  {
    assert r.hits != [] ==> hits[0] in hits;
    forall k | 0 <= k < |hits| ensures hits[k].score >= 1 && hits[k].start < hits[k].end && r.queryRetrievable {
      HitTells(r.segments, r.queryRetrievable, chosen, hits[k]);
    }
  }

  lemma HitsDistinctFine(r: Result, hits: seq<Hit>)
    requires Distinct(hits) && r.hits == Ranked(hits)
    ensures HitsDistinct(r)
  {
    forall i, j | 0 <= i < j < |hits| ensures hits[i].path != hits[j].path || hits[i].ordinal != hits[j].ordinal {
      assert Key(hits[i]) != Key(hits[j]);
    }
  }

  lemma HitTells(segments: seq<Segment>, queryRetrievable: bool, chosen: seq<Hit>, h: Hit)
    requires AllGrounded(segments, chosen) && QueryAccepted(segments, queryRetrievable) && h in chosen
    ensures h.score >= 1 && h.start < h.end && queryRetrievable
  {
    assert Grounded(segments, h);
    var s :| s in segments && Backs(s, h);
  }

  /** What a result rests on: the chunks of its sources, what their searches found, and the choice among it. */
  datatype Grounds = Grounds(cuts: seq<seq<Chunk>>, lexical: seq<Hit>, choice: Choice)

  /** The segments are the chunks of the sources as the version cuts them, each with what the
      library answered for it; the hits are those chosen among all that was found, save the ones
      whose segment has no line worth citing; and each citation quotes the lines it should. */
  ghost predicate Explains(d: Draft, o: Oracle, r: Result, w: Grounds) {
    && |w.cuts| == |d.sources| && AllCut(d, o.digit, w.cuts) && Recorded(o, Rows(d, w.cuts), r.segments, w.lexical)
    && Selects(d, o, r.segments, w.lexical, w.choice)
    && AllQuoted(d, o, r.segments, AllOf(w.choice), Hits(r), r.citations)
    && (forall h :: h in Hits(r) ==> h in AllOf(w.choice))
    && StructuralFirst(d, r.citations)
    && (r.queryRetrievable <==> forall s :: s in r.segments && s.retrievable ==> s.bundle.Some?)
  }

  /** Whenever the search of some segment finds a hit, the result has a hit and cites it. While
      there is room the hits include one of that segment. */
  lemma FoundIsCited(d: Draft, o: Oracle, r: Result, w: Grounds, s: Segment, h: Hit)
    requires Verified(d, r) && Explains(d, o, r, w) && !d.version.BestLine?
    requires s in r.segments && Found(o, s, h)
    ensures r.hits != [] && r.citations[0].how.Lexical?
    ensures |r.hits| < GLOBAL_TOP ==> Seen(Hits(r), s.path, s.ordinal)
  {
    assert h in w.lexical by { assert InSome(o, r.segments, h); }
    var all := AllOf(w.choice);
    ChosenAreHits(d, o, r, w);
    if |w.choice.themes + w.choice.ranked| < GLOBAL_TOP {
      var x :| x in w.choice.themes + w.choice.ranked && x.path == h.path && x.ordinal == h.ordinal;
      assert x in all && x in Hits(r);
    } else {
      assert all[0] in Hits(r);
      SameSize(all, Hits(r));
    }
    AcceptedResultRight(d, r);
  }

  lemma ChosenAreHits(d: Draft, o: Oracle, r: Result, w: Grounds)
    requires Explains(d, o, r, w) && !d.version.BestLine?
    ensures forall h :: h in AllOf(w.choice) ==> h in Hits(r)
  {
  }

  /** Distinct hits that all occur in a list are at most as many. */
  lemma {:induction false} SameSize(hits: seq<Hit>, list: seq<Hit>)
    requires Distinct(hits) && forall h :: h in hits ==> h in list
    ensures |hits| <= |list|
  {
    if hits != [] {
      var n := |hits| - 1;
      assert hits[n] in hits && forall h :: h in hits[..n] ==> h in hits;
      var k :| 0 <= k < |list| && list[k] == hits[n];
      var rest := list[..k] + list[k + 1..];
      forall h | h in hits[..n] ensures h in rest {
        var i :| 0 <= i < |list| && list[i] == h;
        var j :| 0 <= j < n && hits[j] == h;
        assert Key(hits[j]) != Key(hits[n]);
        assert if i < k then rest[i] == h else rest[i - 1] == h;
      }
      SameSize(hits[..n], rest);
    }
  }

  /** A local plan has a hit for each of the four themes that its segments speak to. */
  lemma ThemeIsCited(d: Draft, o: Oracle, r: Result, w: Grounds, theme: nat, s: Segment) returns (b: Segment)
    requires Verified(d, r) && Explains(d, o, r, w) && d.version.WholeSegment? && d.localPlan && theme < 4
    requires s in r.segments && Usable(s) && Inside(d, s) && o.quota(theme, TextOf(d, s)) > 0
    ensures b in r.segments && Inside(d, b) && o.quota(theme, TextOf(d, s)) <= o.quota(theme, TextOf(d, b))
    ensures Seen(Hits(r), b.path, b.ordinal)
  {
    AllInside(d, r.segments);
    b := ThemeQuotaMet(d, o, r.segments, w.lexical, w.choice, theme, s);
    ThemeSeen(d, o, r, w, b);
  }

  lemma ThemeSeen(d: Draft, o: Oracle, r: Result, w: Grounds, b: Segment)
    requires Explains(d, o, r, w) && !d.version.BestLine? && Seen(w.choice.themes, b.path, b.ordinal)
    ensures Seen(Hits(r), b.path, b.ordinal)
  {
    var x :| x in w.choice.themes && x.path == b.path && x.ordinal == b.ordinal;
    ChosenAreHits(d, o, r, w);
    assert x in AllOf(w.choice);
  }

  /** `generate_result` on a conflict-free draft. With a retrieval library that does not
      fail it always produces a result, and every result it produces passes the verifier and
      holds what `Explains` says. */
  method Generate(d: Draft, o: Oracle, ghost tokens: bool) returns (outcome: Outcome, ghost grounds: Grounds)
    requires ValidDraft(d) && Sound(o, tokens)
    ensures NeverFails(o) ==> outcome.Generated?
    ensures outcome.Generated? ==> Verified(d, outcome.result) && Explains(d, o, outcome.result, grounds)
    ensures outcome.Generated? ==> |outcome.result.citations| <= GLOBAL_TOP + MAX_FILES < MAX_CITATIONS
    ensures outcome.Failed? ==> outcome.code == "INVALID_RAG_RESULT"
  {
    var g, ok;
    ghost var cuts;
    g, ok, cuts := Gather(d, o, tokens);
    grounds := Grounds(cuts, g.lexical, Choice([], [], []));
    if !ok { return Outcome.Failed("INVALID_RAG_RESULT"), grounds; }
    var result;
    result, grounds := Assemble(d, o, g, tokens, cuts);
    var verified := VerifyResult(d, result);
    if !verified { return Outcome.Failed("INVALID_RESULT"), grounds; }
    return Generated(result), grounds;
  }

  /** Everything after the segments. */
  method Assemble(d: Draft, o: Oracle, g: Gathering, ghost tokens: bool, ghost cuts: seq<seq<Chunk>>)
      returns (result: Result, ghost grounds: Grounds)
    requires ValidDraft(d) && Sane(g, tokens) && SegmentsAccepted(d, g.segments)
    requires |cuts| == |d.sources| && GatheredAll(d, o, cuts, g)
    ensures Verified(d, result) && |result.citations| <= GLOBAL_TOP + MAX_FILES
    ensures Explains(d, o, result, grounds)
  {
    WalkUnique(d, g.segments);
    AllInside(d, g.segments);
    var chosen;
    ghost var choice;
    chosen, choice := SelectHits(d, o, g);
    var hits, lexical := CiteHits(d, o, g.segments, chosen);
    PairedFacts(d, g.segments, hits, lexical);
    var citations := CiteSources(d, lexical);
    result := Result(g.segments, g.queryRetrievable, Ranked(hits), citations, CoverageOf(d, g, citations));
    QueryFine(g, tokens);
    CitationsFine(d, lexical, citations);
    HitsFine(d, result, hits, chosen, lexical);
    grounds := Grounds(cuts, g.lexical, choice);
    QuotesKept(d, o, result, chosen, hits, lexical, AllOf(choice));
  }

  lemma QuotesKept(d: Draft, o: Oracle, r: Result, chosen: seq<Hit>, hits: seq<Hit>, lexical: seq<Citation>, all: seq<Hit>)
    requires AllQuoted(d, o, r.segments, chosen, hits, lexical) && Subsequence(hits, chosen)
    requires r.hits == Ranked(hits) && lexical <= r.citations && forall h :: h in chosen <==> h in all
    ensures AllQuoted(d, o, r.segments, all, Hits(r), r.citations) && forall h :: h in Hits(r) ==> h in all
  {
    assert Hits(r) == hits;
    forall k | 0 <= k < |hits| ensures r.citations[k] == lexical[k] {}
  }

  lemma QueryFine(g: Gathering, tokens: bool)
    requires Sane(g, tokens)
    ensures QueryAccepted(g.segments, g.queryRetrievable)
    ensures g.queryRetrievable <==> forall s :: s in g.segments && s.retrievable ==> s.bundle.Some?
  {
    if !g.queryRetrievable {
      var p :| p in RetrievablePaths(g.segments);
      var s :| s in g.segments && s.retrievable && s.path == p;
    }
    forall s | s in g.segments && s.retrievable ensures s.bundle.Some? == g.queryRetrievable {
      assert s.path in RetrievablePaths(g.segments);
    }
  }
}
