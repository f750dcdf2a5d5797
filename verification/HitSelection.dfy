/** Choosing and ordering at most eight hits in `generate_result`: theme quotas,
    lexical ranking, then plan blocks. */
module HitSelection {
  import opened Wrappers
  import opened Records
  import opened Segments
  import opened BlockSegments
  import opened MarkdownLines
  import opened ResultVerifier
  import opened ResultAssembly

  // ---------------------------------------------------------------- sorting

  function Insert(h: Hit, s: seq<Hit>): (r: seq<Hit>)
    ensures |r| == |s| + 1
    ensures forall x :: x in r <==> x == h || x in s
    ensures Ordered(s) ==> Ordered(r)
    ensures r[0] == h || (s != [] && r[0] == s[0] && NotAfter(s[0], h))
  {
    if s == [] || NotAfter(h, s[0]) then [h] + s
    else
      assert s == [s[0]] + s[1..];
      [s[0]] + Insert(h, s[1..])
  }

  /** `sorted` by the hit key. */
  function Sort(s: seq<Hit>): (r: seq<Hit>)
    ensures |r| == |s| && Ordered(r)
    ensures forall x :: x in r <==> x in s
  {
    if s == [] then []
    else
      assert s == [s[0]] + s[1..];
      Insert(s[0], Sort(s[1..]))
  }

  function Key(h: Hit): (nat, nat) { (h.path, h.ordinal) }

  predicate Distinct(hits: seq<Hit>) {
    forall i, j :: 0 <= i < j < |hits| ==> Key(hits[i]) != Key(hits[j])
  }

  predicate NewTo(hits: seq<Hit>, h: Hit) {
    forall x :: x in hits ==> Key(x) != Key(h)
  }

  lemma {:induction false} InsertDistinct(h: Hit, s: seq<Hit>)
    requires Distinct(s) && NewTo(s, h)
    ensures Distinct(Insert(h, s))
  {
    if s != [] && !NotAfter(h, s[0]) {
      InsertDistinct(h, s[1..]);
      var rest := Insert(h, s[1..]);
      forall j | 0 <= j < |rest| ensures Key(s[0]) != Key(rest[j]) {
        assert rest[j] in rest;
        assert s[0] in s;
        if rest[j] != h {
          var k :| 0 <= k < |s[1..]| && s[1..][k] == rest[j];
          assert s[k + 1] == rest[j];
        }
      }
    }
  }

  /** Sorting keeps the chosen segments distinct. */
  lemma {:induction false} SortDistinct(s: seq<Hit>)
    requires Distinct(s)
    ensures Distinct(Sort(s))
  {
    if s != [] {
      SortDistinct(s[1..]);
      InsertDistinct(s[0], Sort(s[1..]));
    }
  }

  // ---------------------------------------------------------------- text heuristics

  /** What line `n` (counting from 1) is worth as grounding. */
  function Worth(text: string, worth: string -> Option<int>, n: nat): Option<int>
    requires 1 <= n <= LineCount(text)
  {
    worth(Lines(text)[n - 1])
  }

  /** Line `n` is not worth more than line `best`, and a later line is worth less. */
  predicate NoBetter(text: string, worth: string -> Option<int>, n: nat, best: nat)
    requires 1 <= n <= LineCount(text) && 1 <= best <= LineCount(text) && Worth(text, worth, best).Some?
  {
    Worth(text, worth, n).Some? ==>
      var (w, b) := (Worth(text, worth, n).value, Worth(text, worth, best).value);
      if n > best then w < b else w <= b
  }

  /** `_substantive_line`: the last line of greatest worth in the range, if any line has worth. */
  method SubstantiveLine(text: string, first: nat, last: nat, worth: string -> Option<int>) returns (r: Option<nat>)
    requires 1 <= first && last <= LineCount(text)
    ensures r.None? ==> forall n :: first <= n <= last ==> Worth(text, worth, n).None?
    ensures r.Some? ==> first <= r.value <= last && Worth(text, worth, r.value).Some?
    ensures r.Some? ==> forall n :: first <= n <= last ==> NoBetter(text, worth, n, r.value)
  {
    r := None;
    var number := first;
    while number <= last
      invariant first <= number
      invariant r.None? ==> forall n :: first <= n < number && n <= last ==> Worth(text, worth, n).None?
      invariant r.Some? ==> first <= r.value <= last && r.value < number && Worth(text, worth, r.value).Some?
      invariant r.Some? ==> forall n :: first <= n < number && n <= last ==> NoBetter(text, worth, n, r.value)
    {
      var score := Worth(text, worth, number);
      if score.Some? && (r.None? || score.value >= Worth(text, worth, r.value).value) {
        forall n | first <= n < number && n <= last ensures NoBetter(text, worth, n, number) {
          assert r.Some? ==> NoBetter(text, worth, n, r.value);
        }
        r := Some(number);
      }
      number := number + 1;
    }
  }

  /** `_line_span` */
  function LineSpan(text: string, first: nat, last: nat): (span: string)
    ensures span != "" ==> 1 <= first <= last <= LineCount(text)
  {
    if first < 1 || last < first || last > LineCount(text) then "" else Join(Lines(text)[first - 1..last])
  }

  lemma SpanNonEmpty(text: string, first: nat, last: nat)
    requires 1 <= first <= last <= LineCount(text)
    ensures LineSpan(text, first, last) != ""
  {
    LineNonEmpty(text, first - 1);
    assert Lines(text)[first - 1..last][0] == Lines(text)[first - 1];
  }

  // ---------------------------------------------------------------- choosing

  predicate Usable(s: Segment) {
    s.retrievable && s.index.Some? && s.bundle.Some?
  }

  /** The score of a usable segment for a theme; zero means no candidate. */
  function ThemeScore(d: Draft, o: Oracle, s: Segment, theme: nat): nat {
    var source := Entry(d.sources, s.path);
    if Usable(s) && source.Some? then o.quota(theme, LineSpan(source.value.text, s.first, s.last)) else 0
  }

  /** Strictly before, in the order (-score, path, ordinal) of the theme candidates. */
  predicate Preferred(d: Draft, o: Oracle, theme: nat, s: Segment, b: Segment) {
    var (x, y) := (ThemeScore(d, o, s, theme), ThemeScore(d, o, b, theme));
    x > y || (x == y && (s.path < b.path || (s.path == b.path && s.ordinal < b.ordinal)))
  }

  /** The first of the theme candidates in that order, or none if no segment scores. */
  ghost predicate BestOf(d: Draft, o: Oracle, segments: seq<Segment>, theme: nat, best: Option<Segment>) {
    if best.Some? then
      && best.value in segments && ThemeScore(d, o, best.value, theme) > 0
      && forall s :: s in segments ==> !Preferred(d, o, theme, s, best.value)
    else forall s :: s in segments ==> ThemeScore(d, o, s, theme) == 0
  }

  lemma BestMore(d: Draft, o: Oracle, segments: seq<Segment>, theme: nat, best: Option<Segment>, s: Segment)
    requires BestOf(d, o, segments, theme, best)
    ensures BestOf(d, o, segments + [s], theme,
                   if ThemeScore(d, o, s, theme) > 0 && (best.None? || Preferred(d, o, theme, s, best.value)) then Some(s) else best)
  {
  }

  method BestForTheme(d: Draft, o: Oracle, segments: seq<Segment>, theme: nat) returns (best: Option<Segment>)
    ensures BestOf(d, o, segments, theme, best)
    ensures best.Some? ==> best.value in segments && Usable(best.value)
  {
    best := None;
    for i := 0 to |segments|
      invariant BestOf(d, o, segments[..i], theme, best)
    {
      var s := segments[i];
      assert segments[..i + 1] == segments[..i] + [s];
      BestMore(d, o, segments[..i], theme, best, s);
      if ThemeScore(d, o, s, theme) > 0 && (best.None? || Preferred(d, o, theme, s, best.value)) { best := Some(s); }
    }
    assert segments[..|segments|] == segments;
  }

  predicate Seen(hits: seq<Hit>, path: nat, ordinal: nat) {
    exists h :: h in hits && h.path == path && h.ordinal == ordinal
  }

  /** What every stage of the choice keeps. */
  ghost predicate Chosen(segments: seq<Segment>, hits: seq<Hit>) {
    |hits| <= GLOBAL_TOP && Distinct(hits) && AllGrounded(segments, hits)
  }

  lemma ChooseSegment(segments: seq<Segment>, hits: seq<Hit>, s: Segment, score: int, chunk: nat)
    requires Chosen(segments, hits) && |hits| < GLOBAL_TOP && s in segments && Usable(s) && score >= 1
    requires !Seen(hits, s.path, s.ordinal)
    ensures Chosen(segments, hits + [Hit(score, s.path, s.ordinal, 0, 1, chunk, s.index.value, s.bundle.value)])
  {
    var h := Hit(score, s.path, s.ordinal, 0, 1, chunk, s.index.value, s.bundle.value);
    assert Backs(s, h);
    assert NewTo(hits, h);
  }

  /** The hit that a theme's quota adds for a segment. */
  predicate ThemeHit(s: Segment, theme: nat, h: Hit) {
    Usable(s) && h == Hit(10_000, s.path, s.ordinal, 0, 1, theme, s.index.value, s.bundle.value)
  }

  /** Each hit is the quota of some theme for the first of its candidates, and the first
      candidate of every theme so far is there. */
  ghost predicate ThemesOk(d: Draft, o: Oracle, segments: seq<Segment>, hits: seq<Hit>, themes: nat) {
    && (forall h :: h in hits ==> FromTheme(d, o, segments, themes, h))
    && (forall theme, s :: 0 <= theme < themes && BestOf(d, o, segments, theme, Some(s)) ==> Seen(hits, s.path, s.ordinal))
  }

  ghost predicate FromTheme(d: Draft, o: Oracle, segments: seq<Segment>, themes: nat, h: Hit) {
    exists theme, s :: 0 <= theme < themes && BestOf(d, o, segments, theme, Some(s)) && ThemeHit(s, theme, h)
  }

  /** The first candidate is one segment. */
  lemma BestIsOne(d: Draft, o: Oracle, segments: seq<Segment>, theme: nat, a: Option<Segment>, b: Option<Segment>)
    requires BestOf(d, o, segments, theme, a) && BestOf(d, o, segments, theme, b)
    ensures a.Some? == b.Some? && (a.Some? ==> a.value.path == b.value.path && a.value.ordinal == b.value.ordinal)
  {
  }

  lemma ThemeMore(d: Draft, o: Oracle, segments: seq<Segment>, hits: seq<Hit>, more: seq<Hit>, theme: nat, best: Option<Segment>)
    requires ThemesOk(d, o, segments, hits, theme) && BestOf(d, o, segments, theme, best)
    requires more == hits || (best.Some? && exists h :: ThemeHit(best.value, theme, h) && more == hits + [h])
    requires best.Some? ==> Seen(more, best.value.path, best.value.ordinal)
    ensures ThemesOk(d, o, segments, more, theme + 1)
  {
    forall h | h in more ensures FromTheme(d, o, segments, theme + 1, h) {
      if h in hits { assert FromTheme(d, o, segments, theme, h); } else { assert ThemeHit(best.value, theme, h); }
    }
    forall k, s | 0 <= k < theme + 1 && BestOf(d, o, segments, k, Some(s)) ensures Seen(more, s.path, s.ordinal) {
      if k < theme {
        var h :| h in hits && h.path == s.path && h.ordinal == s.ordinal;
        assert h in more;
      } else {
        BestIsOne(d, o, segments, theme, best, Some(s));
      }
    }
  }

  /** The theme quotas: at most four hits. */
  method ChooseThemes(d: Draft, o: Oracle, segments: seq<Segment>) returns (hits: seq<Hit>)
    ensures Chosen(segments, hits) && |hits| <= 4 && ThemesOk(d, o, segments, hits, 4)
  {
    hits := [];
    for theme := 0 to 4
      invariant Chosen(segments, hits) && |hits| <= theme && ThemesOk(d, o, segments, hits, theme)
    {
      var best := BestForTheme(d, o, segments, theme);
      ghost var before := hits;
      if best.Some? && !Seen(hits, best.value.path, best.value.ordinal) {
        var s := best.value;
        var h := Hit(10_000, s.path, s.ordinal, 0, 1, theme, s.index.value, s.bundle.value);
        ChooseSegment(segments, hits, s, 10_000, theme);
        SeenMore(hits, h);
        assert ThemeHit(s, theme, h);
        hits := hits + [h];
      }
      ThemeMore(d, o, segments, before, hits, theme, best);
    }
  }

  /** `ranked` after `before` are lexical hits, each the first of its segment, and none that is
      left out comes before one that is chosen. */
  ghost predicate RankedOk(lexical: seq<Hit>, before: seq<Hit>, ranked: seq<Hit>) {
    && Ordered(ranked) && (forall h :: h in ranked ==> h in lexical)
    && (forall c, h :: c in ranked && h in lexical && (Key(h) == Key(c) || !Seen(before + ranked, h.path, h.ordinal)) ==> NotAfter(c, h))
    && (|before + ranked| < GLOBAL_TOP ==> forall h :: h in lexical ==> Seen(before + ranked, h.path, h.ordinal))
  }

  /** The state of the loop over the hits in order. */
  ghost predicate RankedTo(ordered: seq<Hit>, i: nat, before: seq<Hit>, ranked: seq<Hit>)
    requires i <= |ordered|
  {
    && Ordered(ranked) && (forall h :: h in ranked ==> h in ordered[..i])
    && (forall c, k :: c in ranked && 0 <= k < |ordered| && (Key(ordered[k]) == Key(c) || !Seen(before + ranked, ordered[k].path, ordered[k].ordinal)) ==>
          NotAfter(c, ordered[k]))
    && (|before + ranked| < GLOBAL_TOP ==> forall k :: 0 <= k < i ==> Seen(before + ranked, ordered[k].path, ordered[k].ordinal))
  }

  lemma RankedDone(lexical: seq<Hit>, ordered: seq<Hit>, before: seq<Hit>, ranked: seq<Hit>)
    requires RankedTo(ordered, |ordered|, before, ranked) && forall h :: h in ordered <==> h in lexical
    ensures RankedOk(lexical, before, ranked)
  {
    assert ordered[..|ordered|] == ordered;
    forall c, h | c in ranked && h in lexical && (Key(h) == Key(c) || !Seen(before + ranked, h.path, h.ordinal)) ensures NotAfter(c, h) {
      var k :| 0 <= k < |ordered| && ordered[k] == h;
    }
    if |before + ranked| < GLOBAL_TOP {
      forall h | h in lexical ensures Seen(before + ranked, h.path, h.ordinal) {
        var k :| 0 <= k < |ordered| && ordered[k] == h;
      }
    }
  }

  lemma NotAfterTransitive(a: Hit, b: Hit, c: Hit)
    requires NotAfter(a, b) && NotAfter(b, c)
    ensures NotAfter(a, c)
  {
  }

  lemma {:induction false} OrderedFar(hits: seq<Hit>, i: nat, j: nat)
    requires Ordered(hits) && i <= j < |hits|
    ensures NotAfter(hits[i], hits[j])
    decreases j
  {
    if i < j {
      var k: nat := j - 1;
      OrderedFar(hits, i, k);
      NotAfterTransitive(hits[i], hits[k], hits[j]);
    }
  }

  lemma SeenOver(hits: seq<Hit>, h: Hit)
    ensures forall p, n :: Seen(hits + [h], p, n) <==> Seen(hits, p, n) || (h.path == p && h.ordinal == n)
  {
    forall p, n ensures Seen(hits + [h], p, n) <==> Seen(hits, p, n) || (h.path == p && h.ordinal == n) {
      if Seen(hits, p, n) {
        var x :| x in hits && x.path == p && x.ordinal == n;
        assert x in hits + [h];
      }
      assert h in hits + [h];
    }
  }

  /** A hit that is seen already, or finds no room, changes nothing. */
  lemma RankedSkip(ordered: seq<Hit>, i: nat, before: seq<Hit>, ranked: seq<Hit>)
    requires i < |ordered| && RankedTo(ordered, i, before, ranked)
    requires |before + ranked| < GLOBAL_TOP ==> Seen(before + ranked, ordered[i].path, ordered[i].ordinal)
    ensures RankedTo(ordered, i + 1, before, ranked)
  {
    assert ordered[..i + 1] == ordered[..i] + [ordered[i]];
  }

  lemma BeforeNext(ordered: seq<Hit>, i: nat, ranked: seq<Hit>)
    requires i < |ordered| && Ordered(ordered) && Ordered(ranked) && forall h :: h in ranked ==> h in ordered[..i]
    ensures Ordered(ranked + [ordered[i]])
  {
    if ranked != [] {
      var last := ranked[|ranked| - 1];
      assert last in ordered[..i];
      var k :| 0 <= k < i && ordered[..i][k] == last;
      OrderedFar(ordered, k, i);
    }
  }

  /** A new hit is taken: all hits before it were seen, so none of them is of its segment. */
  lemma RankedTake(ordered: seq<Hit>, i: nat, before: seq<Hit>, ranked: seq<Hit>)
    requires i < |ordered| && Ordered(ordered) && RankedTo(ordered, i, before, ranked)
    requires |before + ranked| < GLOBAL_TOP && !Seen(before + ranked, ordered[i].path, ordered[i].ordinal)
    ensures RankedTo(ordered, i + 1, before, ranked + [ordered[i]])
  {
    var h, more := ordered[i], ranked + [ordered[i]];
    assert before + more == (before + ranked) + [h];
    SeenOver(before + ranked, h);
    BeforeNext(ordered, i, ranked);
    assert ordered[..i + 1] == ordered[..i] + [h];
    assert forall k :: 0 <= k < i ==> Seen(before + ranked, ordered[k].path, ordered[k].ordinal);
    forall k | 0 <= k < |ordered| && (Key(ordered[k]) == Key(h) || !Seen(before + more, ordered[k].path, ordered[k].ordinal))
      ensures NotAfter(h, ordered[k])
    {
      if i <= k { OrderedFar(ordered, i, k); }
    }
  }

  /** The best lexical hits, one for each segment, while there is room. */
  method ChooseLexical(segments: seq<Segment>, lexical: seq<Hit>, before: seq<Hit>) returns (hits: seq<Hit>)
    requires Chosen(segments, before) && AllGrounded(segments, lexical)
    ensures Chosen(segments, hits) && before <= hits && RankedOk(lexical, before, hits[|before|..])
  {
    var ordered := Sort(lexical);
    hits := before;
    for i := 0 to |ordered|
      invariant Chosen(segments, hits) && before <= hits && RankedTo(ordered, i, before, hits[|before|..])
    {
      var h := ordered[i];
      ghost var ranked := hits[|before|..];
      assert h in ordered && before + ranked == hits;
      if !Seen(hits, h.path, h.ordinal) && |hits| < GLOBAL_TOP {
        RankedTake(ordered, i, before, ranked);
        TakeChosen(segments, hits, h);
        assert (hits + [h])[|before|..] == ranked + [h];
        hits := hits + [h];
      } else {
        RankedSkip(ordered, i, before, ranked);
      }
    }
    RankedDone(lexical, ordered, before, hits[|before|..]);
  }

  lemma TakeChosen(segments: seq<Segment>, hits: seq<Hit>, h: Hit)
    requires Chosen(segments, hits) && |hits| < GLOBAL_TOP && !Seen(hits, h.path, h.ordinal) && Grounded(segments, h)
    ensures Chosen(segments, hits + [h])
  {
    assert NewTo(hits, h);
  }

  /** Some line of the segment is worth citing. */
  ghost predicate Relevant(d: Draft, o: Oracle, s: Segment) {
    && Inside(d, s)
    && var e := Entry(d.sources, s.path);
       exists n :: s.first <= n <= s.last && Worth(e.value.text, o.worth, n).Some?
  }

  predicate SeenSegment(hits: seq<Hit>, s: Segment) { Seen(hits, s.path, s.ordinal) }

  /** The hit that stands for a relevant block. */
  predicate BlockHit(s: Segment, h: Hit) {
    Usable(s) && h == Hit(1, s.path, s.ordinal, 0, 1, 4, s.index.value, s.bundle.value)
  }

  ghost predicate FromBlock(d: Draft, o: Oracle, segments: seq<Segment>, h: Hit) {
    exists s :: s in segments && Relevant(d, o, s) && BlockHit(s, h)
  }

  /** `blocks` after `before` stand for relevant blocks among the first `n`, and while there is
      room none of them is passed over. */
  ghost predicate BlocksTo(d: Draft, o: Oracle, segments: seq<Segment>, n: nat, before: seq<Hit>, blocks: seq<Hit>)
    requires n <= |segments|
  {
    && (forall h :: h in blocks ==> FromBlock(d, o, segments, h))
    && (|before + blocks| < GLOBAL_TOP ==>
          forall k :: 0 <= k < n && Usable(segments[k]) && Relevant(d, o, segments[k]) ==> SeenSegment(before + blocks, segments[k]))
    && (forall j, k :: 0 <= j < k < |segments| && SeenSegment(blocks, segments[k]) && Usable(segments[j]) && Relevant(d, o, segments[j]) ==>
          SeenSegment(before + blocks, segments[j]))
  }

  lemma BlockSkip(d: Draft, o: Oracle, segments: seq<Segment>, n: nat, before: seq<Hit>, blocks: seq<Hit>)
    requires n < |segments| && BlocksTo(d, o, segments, n, before, blocks)
    requires |before + blocks| < GLOBAL_TOP && Usable(segments[n]) && Relevant(d, o, segments[n]) ==> SeenSegment(before + blocks, segments[n])
    ensures BlocksTo(d, o, segments, n + 1, before, blocks)
  {
  }

  lemma BlockTake(d: Draft, o: Oracle, segments: seq<Segment>, n: nat, before: seq<Hit>, blocks: seq<Hit>, h: Hit)
    requires Unique(segments) && n < |segments| && BlocksTo(d, o, segments, n, before, blocks)
    requires |before + blocks| < GLOBAL_TOP && Relevant(d, o, segments[n]) && BlockHit(segments[n], h)
    ensures BlocksTo(d, o, segments, n + 1, before, blocks + [h])
  {
    assert before + (blocks + [h]) == (before + blocks) + [h];
    SeenOver(before + blocks, h);
    SeenOver(blocks, h);
    forall x | x in blocks + [h] ensures FromBlock(d, o, segments, x) { assert segments[n] in segments; }
    forall j, k | 0 <= j < k < |segments| && SeenSegment(blocks + [h], segments[k]) && Usable(segments[j]) && Relevant(d, o, segments[j])
      ensures SeenSegment(before + (blocks + [h]), segments[j])
    {
      if !SeenSegment(blocks, segments[k]) { assert k == n; }
    }
  }

  /** One turn of the block loop. */
  method ChooseBlock(d: Draft, o: Oracle, segments: seq<Segment>, n: nat, ghost before: seq<Hit>, chosen: seq<Hit>) returns (hits: seq<Hit>)
    requires Unique(segments) && n < |segments| && Chosen(segments, chosen) && Inside(d, segments[n])
    requires before <= chosen && BlocksTo(d, o, segments, n, before, chosen[|before|..])
    ensures Chosen(segments, hits) && before <= hits && BlocksTo(d, o, segments, n + 1, before, hits[|before|..])
  {
    hits := chosen;
    var s := segments[n];
    ghost var blocks := chosen[|before|..];
    assert before + blocks == chosen;
    if !Seen(hits, s.path, s.ordinal) && |hits| < GLOBAL_TOP && Usable(s) {
      var line := SubstantiveLine(Entry(d.sources, s.path).value.text, s.first, s.last, o.worth);
      if line.Some? {
        ChooseSegment(segments, hits, s, 1, 4);
        var h := Hit(1, s.path, s.ordinal, 0, 1, 4, s.index.value, s.bundle.value);
        BlockTake(d, o, segments, n, before, blocks, h);
        hits := hits + [h];
        assert hits[|before|..] == blocks + [h];
        return;
      }
    }
    BlockSkip(d, o, segments, n, before, blocks);
  }

  /** Relevant blocks that ranking passed over, in segment order, while there is room. */
  method ChooseBlocks(d: Draft, o: Oracle, segments: seq<Segment>, before: seq<Hit>) returns (hits: seq<Hit>)
    requires Unique(segments) && (forall s :: s in segments ==> Inside(d, s)) && Chosen(segments, before)
    ensures Chosen(segments, hits) && before <= hits && BlocksTo(d, o, segments, |segments|, before, hits[|before|..])
  {
    hits := before;
    for i := 0 to |segments|
      invariant Chosen(segments, hits) && before <= hits && BlocksTo(d, o, segments, i, before, hits[|before|..])
    {
      hits := ChooseBlock(d, o, segments, i, before, hits);
    }
  }

  lemma SeenMore(hits: seq<Hit>, h: Hit)
    ensures Seen(hits + [h], h.path, h.ordinal)
    ensures forall p, n :: Seen(hits, p, n) ==> Seen(hits + [h], p, n)
  {
    assert (hits + [h])[|hits|] == h;
    assert forall x :: x in hits ==> x in hits + [h];
  }

  /** The segment lies inside its source. */
  predicate Inside(d: Draft, s: Segment) {
    var e := Entry(d.sources, s.path);
    e.Some? && 1 <= s.first <= s.last <= LineCount(e.value.text)
  }

  lemma WellFormedLess(segments: seq<Segment>, n: nat)
    requires WellFormed(segments) && n < |segments|
    ensures WellFormed(segments[..n]) && 1 <= segments[n].first <= segments[n].last
  {
  }

  lemma InsideMore(d: Draft, most: seq<Segment>, s: Segment)
    requires (forall t :: t in most ==> Inside(d, t)) && Inside(d, s)
    ensures forall t :: t in most + [s] ==> Inside(d, t)
  {
  }

  lemma {:induction false} AllInside(d: Draft, segments: seq<Segment>)
    requires WellFormed(segments) && WalkOver(d, segments).Some?
    ensures forall s :: s in segments ==> Inside(d, s)
  {
    if segments != [] {
      var n := |segments| - 1;
      var most := segments[..n];
      WellFormedLess(segments, n);
      AllInside(d, most);
      StepInside(d, WalkOver(d, most).value, segments[n]);
      InsideMore(d, most, segments[n]);
      assert segments == most + [segments[n]];
    }
  }

  lemma StepInside(d: Draft, w: Walk, s: Segment)
    requires WalkStep(d, w, s).Some?
    ensures Entry(d.sources, s.path).Some? && s.last <= LineCount(Entry(d.sources, s.path).value.text)
  {
  }

  /** The hits of a result by what they were chosen for. */
  datatype Choice = Choice(themes: seq<Hit>, ranked: seq<Hit>, blocks: seq<Hit>)

  function AllOf(c: Choice): seq<Hit> { c.themes + c.ranked + c.blocks }

  /** Which hits a result has. For a local plan of a later version, first the best segment of each of
      the four themes. Then lexical hits: each the best of its segment, and while there is room
      none is left out, nor ever one that comes before a chosen one. Then, in a later version and
      only once no lexical hit is left out, the relevant blocks that are left, in segment order. */
  ghost predicate Selects(d: Draft, o: Oracle, segments: seq<Segment>, lexical: seq<Hit>, c: Choice) {
    && |AllOf(c)| <= GLOBAL_TOP && Distinct(AllOf(c))
    && (if d.version.WholeSegmentOnly? || !d.localPlan then c.themes == [] else ThemesOk(d, o, segments, c.themes, 4))
    && RankedOk(lexical, c.themes, c.ranked)
    && (if d.version.WholeSegmentOnly? then c.blocks == []
        else BlocksTo(d, o, segments, |segments|, c.themes + c.ranked, c.blocks))
  }

  lemma {:induction false} BestExists(d: Draft, o: Oracle, segments: seq<Segment>, theme: nat) returns (best: Option<Segment>)
    ensures BestOf(d, o, segments, theme, best)
  {
    best := None;
    if segments != [] {
      var n := |segments| - 1;
      var s := segments[n];
      best := BestExists(d, o, segments[..n], theme);
      assert segments == segments[..n] + [s];
      BestMore(d, o, segments[..n], theme, best, s);
      if ThemeScore(d, o, s, theme) > 0 && (best.None? || Preferred(d, o, theme, s, best.value)) { best := Some(s); }
    }
  }

  function TextOf(d: Draft, s: Segment): string
    requires Inside(d, s)
  {
    Join(Lines(Entry(d.sources, s.path).value.text)[s.first - 1..s.last])
  }

  /** A local plan gives every theme that some usable segment speaks to one of the segments that
      speak to it most, the first of them by path and ordinal. */
  lemma ThemeQuotaMet(d: Draft, o: Oracle, segments: seq<Segment>, lexical: seq<Hit>, c: Choice, theme: nat, s: Segment)
      returns (b: Segment)
    requires !d.version.WholeSegmentOnly? && d.localPlan && Selects(d, o, segments, lexical, c) && theme < 4
    requires forall t :: t in segments ==> Inside(d, t)
    requires s in segments && Usable(s) && o.quota(theme, TextOf(d, s)) > 0
    ensures b in segments && Usable(b) && Seen(c.themes, b.path, b.ordinal)
    ensures forall t :: t in segments && Usable(t) ==>
              var (x, y) := (o.quota(theme, TextOf(d, t)), o.quota(theme, TextOf(d, b)));
              x < y || (x == y && (b.path < t.path || (b.path == t.path && b.ordinal <= t.ordinal)))
  {
    var best := BestExists(d, o, segments, theme);
    assert ThemeScore(d, o, s, theme) > 0;
    b := best.value;
    forall t | t in segments && Usable(t) ensures ThemeScore(d, o, t, theme) == o.quota(theme, TextOf(d, t)) {}
    assert forall t :: t in segments ==> !Preferred(d, o, theme, t, b);
  }

  /** The hits of a result, in their final order. */
  method SelectHits(d: Draft, o: Oracle, g: Gathering) returns (hits: seq<Hit>, ghost choice: Choice)
    requires SegmentsAccepted(d, g.segments) && AllGrounded(g.segments, g.lexical)
    ensures Chosen(g.segments, hits) && Ordered(hits)
    ensures Selects(d, o, g.segments, g.lexical, choice)
    ensures |hits| == |AllOf(choice)| && forall h :: h in hits <==> h in AllOf(choice)
  {
    AllInside(d, g.segments);
    WalkUnique(d, g.segments);
    hits := [];
    if !d.version.WholeSegmentOnly? && d.localPlan { hits := ChooseThemes(d, o, g.segments); }
    ghost var themes := hits;
    hits := ChooseLexical(g.segments, g.lexical, hits);
    ghost var ranked := hits[|themes|..];
    ghost var before := hits;
    assert themes + ranked == hits;
    if !d.version.WholeSegmentOnly? { hits := ChooseBlocks(d, o, g.segments, hits); }
    choice := Choice(themes, ranked, hits[|before|..]);
    assert AllOf(choice) == hits;
    SortDistinct(hits);
    hits := Sort(hits);
  }
}
