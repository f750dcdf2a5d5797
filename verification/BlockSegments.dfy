/** Cutting at Markdown sections, paragraphs, bullets and table rows (`_segments_v2`). */
module BlockSegments {
  import opened MarkdownLines
  import opened Segments

  /** Whether a block must end before line `j` (counting from 0). */
  predicate Cut(lines: seq<string>, digit: char -> bool, items: bool, j: nat)
    requires 0 < j < |lines|
  {
    Opens(lines[j]) || (items && (Standalone(lines[j], digit) || Standalone(lines[j - 1], digit)))
  }

  /** The first `k` lines in blocks: a new block exactly where `Cut` says. */
  function Grouped(lines: seq<string>, digit: char -> bool, items: bool, k: nat): (g: seq<Chunk>)
    requires k <= |lines|
    ensures g == [] <==> k == 0
  {
    if k == 0 then []
    else
      var g := Grouped(lines, digit, items, k - 1);
      if k == 1 || Cut(lines, digit, items, k - 1) then g + [Chunk(lines[k - 1], k, k)]
      else g[..|g| - 1] + [Chunk(g[|g| - 1].value + lines[k - 1], g[|g| - 1].first, k)]
  }

  lemma GroupedLast(lines: seq<string>, digit: char -> bool, items: bool, k: nat)
    requires 0 < k <= |lines|
    ensures var g := Grouped(lines, digit, items, k); g[|g| - 1].last == k
  {
  }

  /** A section: its lines, where it starts, and that it starts nowhere else. */
  predicate Section(lines: seq<string>, b: Chunk) {
    && 0 < b.first <= b.last <= |lines|
    && b.value == Span(lines, b.first - 1, b.last)
    && (b.first > 1 ==> Opens(lines[b.first - 1]))
    && forall j {:trigger Opens(lines[j])} :: b.first <= j < b.last ==> !Opens(lines[j])
  }

  /** Sections that follow one another from the first line. */
  predicate Sectional(lines: seq<string>, g: seq<Chunk>) {
    && (forall i :: 0 <= i < |g| ==> Section(lines, g[i]))
    && (forall i, j :: 0 <= i < |g| && 0 <= j < |g| && j == i + 1 ==> g[j].first == g[i].last + 1)
    && (g != [] ==> g[0].first == 1)
  }

  lemma SectionStarts(lines: seq<string>, k: nat)
    requires k < |lines| && (k == 0 || Opens(lines[k]))
    ensures Section(lines, Chunk(lines[k], k + 1, k + 1))
  {
    SpanOne(lines, k);
  }

  lemma SpanOne(lines: seq<string>, k: nat)
    requires k < |lines|
    ensures Span(lines, k, k + 1) == lines[k]
  {
    assert Span(lines, k, k) == "";
  }

  lemma SectionGrows(lines: seq<string>, b: Chunk)
    requires Section(lines, b) && b.last < |lines| && !Opens(lines[b.last])
    ensures Section(lines, Chunk(b.value + lines[b.last], b.first, b.last + 1))
  {
  }

  lemma SectionalNext(lines: seq<string>, g: seq<Chunk>, b: Chunk)
    requires Sectional(lines, g) && Section(lines, b)
    requires b.first == if g == [] then 1 else g[|g| - 1].last + 1
    ensures Sectional(lines, g + [b])
  {
  }

  lemma SectionalInit(lines: seq<string>, g: seq<Chunk>)
    requires Sectional(lines, g) && g != []
    ensures Sectional(lines, g[..|g| - 1]) && Section(lines, g[|g| - 1])
    ensures g[|g| - 1].first == if |g| == 1 then 1 else g[|g| - 2].last + 1
  {
  }

  lemma SectionalStep(lines: seq<string>, g: seq<Chunk>, j: nat, cut: bool)
    requires Sectional(lines, g) && j < |lines| && (g == [] <==> j == 0) && (g != [] ==> g[|g| - 1].last == j)
    requires cut == (j == 0 || Opens(lines[j]))
    ensures Sectional(lines, if cut then g + [Chunk(lines[j], j + 1, j + 1)]
                             else g[..|g| - 1] + [Chunk(g[|g| - 1].value + lines[j], g[|g| - 1].first, j + 1)])
  {
    if cut {
      SectionStarts(lines, j);
      SectionalNext(lines, g, Chunk(lines[j], j + 1, j + 1));
    } else {
      var b := g[|g| - 1];
      SectionalInit(lines, g);
      SectionGrows(lines, b);
      SectionalNext(lines, g[..|g| - 1], Chunk(b.value + lines[j], b.first, j + 1));
    }
  }

  lemma {:induction false} Sectioned(lines: seq<string>, digit: char -> bool, k: nat)
    requires k <= |lines|
    ensures Sectional(lines, Grouped(lines, digit, false, k))
  {
    if k > 0 {
      var j: nat := k - 1;
      Sectioned(lines, digit, j);
      if j > 0 { GroupedLast(lines, digit, false, j); }
      SectionalStep(lines, Grouped(lines, digit, false, j), j, j == 0 || Opens(lines[j]));
    }
  }

  /** The sections before line `start`, and the one that is still growing at `index`. */
  ghost predicate Growing(lines: seq<string>, digit: char -> bool, blocks: seq<Chunk>, start: nat, index: nat)
    requires index <= |lines|
  {
    if index == 0 then start == 0 && blocks == []
    else
      start < index && Grouped(lines, digit, false, index) == blocks + [Chunk(Span(lines, start, index), start + 1, index)]
  }

  lemma GrowFirst(lines: seq<string>, digit: char -> bool)
    requires lines != []
    ensures Growing(lines, digit, [], 0, 1)
  {
    SpanOne(lines, 0);
  }

  lemma GrowMore(lines: seq<string>, digit: char -> bool, blocks: seq<Chunk>, start: nat, index: nat)
    requires 0 < index < |lines| && Growing(lines, digit, blocks, start, index) && !Opens(lines[index])
    ensures Growing(lines, digit, blocks, start, index + 1)
  {
    var g := Grouped(lines, digit, false, index);
    assert g[..|g| - 1] == blocks;
  }

  lemma GrowNew(lines: seq<string>, digit: char -> bool, blocks: seq<Chunk>, start: nat, index: nat)
    requires 0 < index < |lines| && Growing(lines, digit, blocks, start, index) && Opens(lines[index])
    ensures Growing(lines, digit, blocks + [Chunk(Span(lines, start, index), start + 1, index)], index, index + 1)
  {
    SpanOne(lines, index);
  }

  /** The first loop: sections and paragraphs. */
  method Sections(text: string, digit: char -> bool) returns (blocks: seq<Chunk>)
    requires text != ""
    ensures blocks == Grouped(Lines(text), digit, false, LineCount(text))
  {
    blocks := SectionsOf(Lines(text), digit);
  }

  lemma GrowStep(lines: seq<string>, digit: char -> bool, blocks: seq<Chunk>, start: nat, index: nat)
    requires index < |lines| && Growing(lines, digit, blocks, start, index)
    ensures start <= index
    ensures if index > start && Opens(lines[index])
            then Growing(lines, digit, blocks + [Chunk(Span(lines, start, index), start + 1, index)], index, index + 1)
            else Growing(lines, digit, blocks, start, index + 1)
  {
    if index == 0 {
      GrowFirst(lines, digit);
    } else if Opens(lines[index]) {
      GrowNew(lines, digit, blocks, start, index);
    } else {
      GrowMore(lines, digit, blocks, start, index);
    }
  }

  lemma GrowEnd(lines: seq<string>, digit: char -> bool, blocks: seq<Chunk>, start: nat)
    requires lines != [] && Growing(lines, digit, blocks, start, |lines|)
    ensures start < |lines| && blocks + [Chunk(Span(lines, start, |lines|), start + 1, |lines|)] == Grouped(lines, digit, false, |lines|)
  {
  }

  /** One turn of the first loop. */
  method TakeLine(lines: seq<string>, digit: char -> bool, before: seq<Chunk>, start: nat, index: nat)
      returns (blocks: seq<Chunk>, next: nat)
    requires index < |lines| && Growing(lines, digit, before, start, index)
    ensures Growing(lines, digit, blocks, next, index + 1)
  {
    GrowStep(lines, digit, before, start, index);
    blocks, next := before, start;
    if index > start && Opens(lines[index]) {
      SpanIsJoin(lines, start, index);
      blocks, next := before + [Chunk(Join(lines[start..index]), start + 1, index)], index;
    }
  }

  method SectionsOf(lines: seq<string>, digit: char -> bool) returns (blocks: seq<Chunk>)
    requires lines != []
    ensures blocks == Grouped(lines, digit, false, |lines|)
  {
    blocks := [];
    var start: nat := 0;
    for index := 0 to |lines|
      invariant Growing(lines, digit, blocks, start, index)
    {
      blocks, start := TakeLine(lines, digit, blocks, start, index);
    }
    GrowEnd(lines, digit, blocks, start);
    SpanIsJoin(lines, start, |lines|);
    assert lines[start..] == lines[start..|lines|];
    blocks := blocks + [Chunk(Join(lines[start..]), start + 1, |lines|)];
  }

  /** Everything gathered so far, with the unfinished block. */
  ghost predicate Gathered(lines: seq<string>, digit: char -> bool, k: nat, output: seq<Chunk>, pending: seq<string>, first: nat)
    requires k <= |lines|
  {
    if pending == [] then output == Grouped(lines, digit, true, k)
    else
      && 0 < k && !Standalone(lines[k - 1], digit)
      && output + [Chunk(Join(pending), first, k)] == Grouped(lines, digit, true, k)
  }

  lemma GatherItem(lines: seq<string>, digit: char -> bool, k: nat, output: seq<Chunk>, pending: seq<string>, first: nat)
    requires k < |lines| && Gathered(lines, digit, k, output, pending, first)
    requires Standalone(lines[k], digit)
    ensures (if pending == [] then output else output + [Chunk(Join(pending), first, k)]) + [Chunk(lines[k], k + 1, k + 1)]
            == Grouped(lines, digit, true, k + 1)
  {
  }

  lemma GatherLine(lines: seq<string>, digit: char -> bool, k: nat, output: seq<Chunk>, pending: seq<string>, first: nat)
    requires k < |lines| && Gathered(lines, digit, k, output, pending, first)
    requires !Standalone(lines[k], digit)
    requires pending == [] ==> k == 0 || Opens(lines[k]) || Standalone(lines[k - 1], digit)
    requires pending != [] ==> !Opens(lines[k])
    ensures Gathered(lines, digit, k + 1, output, pending + [lines[k]], if pending == [] then k + 1 else first)
  {
    JoinOne(pending, lines[k]);
    if pending == [] {
      assert pending + [lines[k]] == [lines[k]];
    } else {
      var g := Grouped(lines, digit, true, k);
      assert g[..|g| - 1] == output;
    }
  }

  /** Where a block may begin when nothing is pending, and where it may not when something is. */
  predicate MayGather(lines: seq<string>, digit: char -> bool, k: nat, pending: seq<string>)
    requires k <= |lines|
  {
    && (pending == [] && 0 < k < |lines| ==> Opens(lines[k]) || Standalone(lines[k - 1], digit))
    && (pending != [] && k < |lines| ==> !Opens(lines[k]))
  }

  /** Line `k` of the section, met after `pending`. */
  ghost predicate Reached(lines: seq<string>, digit: char -> bool, first: nat, k: nat, pending: seq<string>)
    requires k <= |lines|
  {
    if k == first then pending == []
    else first < k && (pending == [] <==> Standalone(lines[k - 1], digit))
  }

  /** Where the second loop stands in a section. */
  ghost predicate Standing(lines: seq<string>, digit: char -> bool, b: Chunk, k: nat, output: seq<Chunk>, pending: seq<string>, first: nat)
    requires 0 < b.first && k <= |lines|
  {
    Reached(lines, digit, b.first - 1, k, pending) && Gathered(lines, digit, k, output, pending, first)
  }

  lemma GatherWithin(lines: seq<string>, digit: char -> bool, b: Chunk, k: nat, pending: seq<string>)
    requires Section(lines, b) && b.first - 1 <= k < b.last
    requires Reached(lines, digit, b.first - 1, k, pending)
    ensures MayGather(lines, digit, k, pending)
  {
  }

  lemma ItemStands(lines: seq<string>, digit: char -> bool, b: Chunk, k: nat, output: seq<Chunk>, pending: seq<string>, first: nat)
    requires Section(lines, b) && b.first - 1 <= k < b.last && Standalone(lines[k], digit)
    requires Standing(lines, digit, b, k, output, pending, first)
    ensures Standing(lines, digit, b, k + 1,
                     (if pending == [] then output else output + [Chunk(Join(pending), first, k)]) + [Chunk(lines[k], k + 1, k + 1)],
                     [], first)
  {
    GatherItem(lines, digit, k, output, pending, first);
  }

  lemma LineStands(lines: seq<string>, digit: char -> bool, b: Chunk, k: nat, output: seq<Chunk>, pending: seq<string>, first: nat)
    requires Section(lines, b) && b.first - 1 <= k < b.last && !Standalone(lines[k], digit)
    requires Standing(lines, digit, b, k, output, pending, first)
    ensures Standing(lines, digit, b, k + 1, output, pending + [lines[k]], if pending == [] then k + 1 else first)
  {
    GatherWithin(lines, digit, b, k, pending);
    GatherLine(lines, digit, k, output, pending, first);
  }

  /** One line of the second loop. */
  method Item(line: string, digit: char -> bool, offset: nat, before: seq<Chunk>, pending: seq<string>, pendingFirst: nat,
              ghost lines: seq<string>, ghost b: Chunk)
      returns (output: seq<Chunk>, more: seq<string>, first: nat)
    requires Section(lines, b) && b.first <= offset <= b.last && line == lines[offset - 1]
    requires Standing(lines, digit, b, offset - 1, before, pending, pendingFirst)
    ensures Standing(lines, digit, b, offset, output, more, first)
  {
    output, more, first := before, pending, pendingFirst;
    if Standalone(line, digit) {
      ItemStands(lines, digit, b, offset - 1, before, pending, pendingFirst);
      if pending != [] {
        output := output + [Chunk(Join(pending), pendingFirst, offset - 1)];
        more := [];
      }
      output := output + [Chunk(line, offset, offset)];
    } else {
      LineStands(lines, digit, b, offset - 1, before, pending, pendingFirst);
      if pending == [] { first := offset; }
      more := more + [line];
    }
  }

  lemma SectionBegins(lines: seq<string>, digit: char -> bool, b: Chunk, before: seq<Chunk>)
    requires Section(lines, b) && before == Grouped(lines, digit, true, b.first - 1)
    ensures Standing(lines, digit, b, b.first - 1, before, [], b.first)
  {
  }

  lemma SectionEnds(lines: seq<string>, digit: char -> bool, b: Chunk, output: seq<Chunk>, pending: seq<string>, first: nat)
    requires Section(lines, b) && Standing(lines, digit, b, b.last, output, pending, first)
    ensures (if pending == [] then output else output + [Chunk(Join(pending), first, b.last)]) == Grouped(lines, digit, true, b.last)
  {
  }

  /** The second loop on one section: items stand alone, other lines gather. */
  method Items(b: Chunk, digit: char -> bool, before: seq<Chunk>, ghost lines: seq<string>) returns (output: seq<Chunk>)
    requires Section(lines, b) && Lines(b.value) == lines[b.first - 1..b.last]
    requires before == Grouped(lines, digit, true, b.first - 1)
    ensures output == Grouped(lines, digit, true, b.last)
  {
    SectionBegins(lines, digit, b, before);
    output := ItemsOf(Lines(b.value), digit, b, before, lines);
  }

  method ItemsOf(blockLines: seq<string>, digit: char -> bool, b: Chunk, before: seq<Chunk>, ghost lines: seq<string>)
      returns (output: seq<Chunk>)
    requires Section(lines, b) && blockLines == lines[b.first - 1..b.last]
    requires Standing(lines, digit, b, b.first - 1, before, [], b.first)
    ensures output == Grouped(lines, digit, true, b.last)
  {
    output := before;
    var offset := b.first;
    var pending: seq<string> := [];
    var pendingFirst := b.first;
    ghost var k: nat := offset - 1;
    for i := 0 to |blockLines|
      invariant offset == b.first + i == k + 1 <= b.last + 1
      invariant Standing(lines, digit, b, k, output, pending, pendingFirst)
    {
      output, pending, pendingFirst := Item(blockLines[i], digit, offset, output, pending, pendingFirst, lines, b);
      offset := offset + 1;
      k := k + 1;
    }
    SectionEnds(lines, digit, b, output, pending, pendingFirst);
    if pending != [] {
      output := output + [Chunk(Join(pending), pendingFirst, b.last)];
    }
  }

  // ---------------------------------------------------------------- where blocks begin and end

  /** None of the lines from `a` on and before `b` begins a block. */
  ghost predicate NoneStarts(lines: seq<string>, a: nat, b: nat)
    requires b <= |lines|
  {
    forall j :: a <= j < b ==> !StartsBlock(lines[j])
  }

  ghost predicate NoneAlone(lines: seq<string>, digit: char -> bool, a: nat, b: nat)
    requires b <= |lines|
  {
    forall j :: a <= j < b ==> !StandsAlone(lines[j], digit)
  }

  /** No line after the first begins a block, and a line that stands alone has the chunk to itself. */
  ghost predicate ChunkOk(lines: seq<string>, digit: char -> bool, c: Chunk) {
    && 0 < c.first <= c.last <= |lines|
    && NoneStarts(lines, c.first, c.last)
    && (c.first == c.last || NoneAlone(lines, digit, c.first - 1, c.last))
  }

  /** A block may end before line `k` (counting from 0). */
  ghost predicate Between(lines: seq<string>, digit: char -> bool, k: nat) {
    0 < k < |lines| && (StartsBlock(lines[k]) || StandsAlone(lines[k], digit) || StandsAlone(lines[k - 1], digit))
  }

  ghost predicate BlocksOk(lines: seq<string>, digit: char -> bool, g: seq<Chunk>) {
    && (forall i :: 0 <= i < |g| ==> ChunkOk(lines, digit, g[i]))
    && (forall i, j :: 0 <= i < |g| && 0 <= j < |g| && j == i + 1 ==> g[j].first == g[i].last + 1 && Between(lines, digit, g[i].last))
  }

  lemma CutMeans(lines: seq<string>, digit: char -> bool, k: nat)
    requires 0 < k < |lines|
    ensures Cut(lines, digit, true, k) <==> Between(lines, digit, k)
  {
    OpensMeans(lines[k]);
    StandaloneMeans(lines[k], digit);
    StandaloneMeans(lines[k - 1], digit);
  }

  lemma BlockGrows(lines: seq<string>, digit: char -> bool, b: Chunk, c: Chunk)
    requires ChunkOk(lines, digit, b) && b.last < |lines| && !Between(lines, digit, b.last)
    requires c.first == b.first && c.last == b.last + 1
    ensures ChunkOk(lines, digit, c)
  {
  }

  lemma BlocksNext(lines: seq<string>, digit: char -> bool, g: seq<Chunk>, c: Chunk)
    requires BlocksOk(lines, digit, g) && ChunkOk(lines, digit, c)
    requires g != [] ==> c.first == g[|g| - 1].last + 1 && Between(lines, digit, g[|g| - 1].last)
    ensures BlocksOk(lines, digit, g + [c])
  {
  }

  lemma BlocksInit(lines: seq<string>, digit: char -> bool, g: seq<Chunk>)
    requires BlocksOk(lines, digit, g) && g != []
    ensures BlocksOk(lines, digit, g[..|g| - 1]) && ChunkOk(lines, digit, g[|g| - 1])
    ensures |g| > 1 ==> g[|g| - 1].first == g[|g| - 2].last + 1 && Between(lines, digit, g[|g| - 2].last)
  {
  }

  lemma BlocksStep(lines: seq<string>, digit: char -> bool, g: seq<Chunk>, k: nat, line: string, cut: bool)
    requires BlocksOk(lines, digit, g) && k < |lines| && (g == [] <==> k == 0) && (g != [] ==> g[|g| - 1].last == k)
    requires cut == (k == 0 || Between(lines, digit, k))
    ensures BlocksOk(lines, digit, if cut then g + [Chunk(line, k + 1, k + 1)]
                                   else g[..|g| - 1] + [Chunk(g[|g| - 1].value + line, g[|g| - 1].first, k + 1)])
  {
    if cut {
      BlocksNext(lines, digit, g, Chunk(line, k + 1, k + 1));
    } else {
      var b := g[|g| - 1];
      BlocksInit(lines, digit, g);
      BlockGrows(lines, digit, b, Chunk(b.value + line, b.first, k + 1));
      BlocksNext(lines, digit, g[..|g| - 1], Chunk(b.value + line, b.first, k + 1));
    }
  }

  lemma {:induction false} GroupedOk(lines: seq<string>, digit: char -> bool, k: nat)
    requires k <= |lines|
    ensures BlocksOk(lines, digit, Grouped(lines, digit, true, k))
  {
    if k > 0 {
      var j: nat := k - 1;
      GroupedOk(lines, digit, j);
      if j > 0 {
        GroupedLast(lines, digit, true, j);
        CutMeans(lines, digit, j);
      }
      BlocksStep(lines, digit, Grouped(lines, digit, true, j), j, lines[j], j == 0 || Cut(lines, digit, true, j));
    }
  }

  /** The chunk could not have taken in one more character. */
  predicate Full(c: Chunk, e: Chunk) {
    e.value != "" && Size(c.value + [e.value[0]]) > CHUNK_LIMIT
  }

  /** The parts of a block: its line range in order, and each but the last full. */
  ghost predicate PartsOf(b: Chunk, parts: seq<Chunk>) {
    && parts != [] && parts[0].first == b.first && parts[|parts| - 1].last == b.last
    && (forall i :: 0 <= i < |parts| ==> b.first <= parts[i].first <= parts[i].last <= b.last)
    && (forall i, j :: 0 <= i < |parts| && 0 <= j < |parts| && j == i + 1 ==> Full(parts[i], parts[j]))
  }

  /** Chunks are cut exactly where blocks are, or where the limit is reached. */
  ghost predicate Blockwise(lines: seq<string>, digit: char -> bool, chunks: seq<Chunk>) {
    && (forall i :: 0 <= i < |chunks| ==> ChunkOk(lines, digit, chunks[i]))
    && (forall i, j :: 0 <= i < |chunks| && 0 <= j < |chunks| && j == i + 1 ==> Justified(lines, digit, chunks[i], chunks[j]))
  }

  ghost predicate Justified(lines: seq<string>, digit: char -> bool, c: Chunk, e: Chunk) {
    Full(c, e) || (e.first == c.last + 1 && Between(lines, digit, c.last))
  }

  lemma PartOk(lines: seq<string>, digit: char -> bool, b: Chunk, c: Chunk)
    requires ChunkOk(lines, digit, b) && b.first <= c.first <= c.last <= b.last
    ensures ChunkOk(lines, digit, c)
  {
  }

  lemma BlockwiseMore(lines: seq<string>, digit: char -> bool, chunks: seq<Chunk>, b: Chunk, parts: seq<Chunk>)
    requires Blockwise(lines, digit, chunks) && ChunkOk(lines, digit, b) && PartsOf(b, parts)
    requires chunks != [] ==> b.first == chunks[|chunks| - 1].last + 1 && Between(lines, digit, chunks[|chunks| - 1].last)
    ensures Blockwise(lines, digit, chunks + parts) && (chunks + parts)[|chunks + parts| - 1].last == b.last
  {
    var more := chunks + parts;
    forall i | 0 <= i < |more| ensures ChunkOk(lines, digit, more[i]) {
      if i >= |chunks| { PartOk(lines, digit, b, parts[i - |chunks|]); }
    }
    forall i, j | 0 <= i < |more| && 0 <= j < |more| && j == i + 1 ensures Justified(lines, digit, more[i], more[j]) {
      if i >= |chunks| { assert Full(parts[i - |chunks|], parts[j - |chunks|]); }
    }
  }

  /** Chunks that take in as much as fits are full, all but the last. */
  lemma {:induction false} GreedyFull(text: string, chunks: seq<Chunk>, end: nat)
    requires Located(text, chunks, end) && Greedy(text, chunks, end)
    ensures forall i, j :: 0 <= i < |chunks| && 0 <= j < |chunks| && j == i + 1 ==> Full(chunks[i], chunks[j])
  {
    if |chunks| > 1 {
      var n: nat := |chunks| - 1;
      var c, e := chunks[n - 1], chunks[n];
      var at: nat := end - |e.value|;
      GreedyFull(text, chunks[..n], at);
      assert chunks[..n][n - 1] == c;
      assert text[at - |c.value|..at + 1] == c.value + [e.value[0]];
    }
  }

  /** The parts of a block that is cut by length. */
  lemma ShiftedParts(b: Chunk, local: seq<Chunk>, count: nat)
    requires Walkable(local, count) && 0 < b.first && b.last == b.first + count - 1
    requires forall i, j :: 0 <= i < |local| && 0 <= j < |local| && j == i + 1 ==> Full(local[i], local[j])
    ensures PartsOf(b, Shift(local, b.first))
  {
    ShiftAt(local, b.first);
    ShiftedFull(local, b.first);
  }

  lemma ShiftedFull(local: seq<Chunk>, first: nat)
    requires first > 0 && forall i :: 0 <= i < |local| ==> 1 <= local[i].first
    requires forall i, j :: 0 <= i < |local| && 0 <= j < |local| && j == i + 1 ==> Full(local[i], local[j])
    ensures var parts := Shift(local, first);
            forall i, j :: 0 <= i < |parts| && 0 <= j < |parts| && j == i + 1 ==> Full(parts[i], parts[j])
  {
    ShiftAt(local, first);
    var parts := Shift(local, first);
    forall i, j | 0 <= i < |parts| && 0 <= j < |parts| && j == i + 1 ensures Full(parts[i], parts[j]) {
      assert Full(local[i], local[j]);
    }
  }

  lemma {:induction false} ShiftAt(parts: seq<Chunk>, first: nat)
    requires first > 0 && forall i :: 0 <= i < |parts| ==> 1 <= parts[i].first
    ensures |Shift(parts, first)| == |parts|
    ensures forall i :: 0 <= i < |parts| ==> Shift(parts, first)[i] == Moved(parts[i], first)
  {
    if parts != [] { ShiftAt(parts[..|parts| - 1], first); }
  }

  // ---------------------------------------------------------------- bounding

  /** The blocks, each kept whole when it fits and cut further when it does not. */
  ghost predicate Refined(blocks: seq<Chunk>, chunks: seq<Chunk>) {
    if blocks == [] then chunks == []
    else
      var b := blocks[|blocks| - 1];
      exists k :: 0 <= k <= |chunks| && Refined(blocks[..|blocks| - 1], chunks[..k])
                  && Join(Values(chunks[k..])) == b.value && (Size(b.value) <= CHUNK_LIMIT ==> chunks[k..] == [b])
  }

  lemma RefinedNext(blocks: seq<Chunk>, chunks: seq<Chunk>, b: Chunk, parts: seq<Chunk>)
    requires Refined(blocks, chunks) && Join(Values(parts)) == b.value
    requires Size(b.value) <= CHUNK_LIMIT ==> parts == [b]
    ensures Refined(blocks + [b], chunks + parts)
  {
    assert (blocks + [b])[..|blocks|] == blocks;
    assert (chunks + parts)[..|chunks|] == chunks;
    assert (chunks + parts)[|chunks|..] == parts;
  }

  /** A chunk of a piece that starts on line `first`. */
  function Moved(c: Chunk, first: nat): Chunk
    requires first > 0
  {
    Chunk(c.value, first + c.first - 1, first + c.last - 1)
  }

  function Shift(parts: seq<Chunk>, first: nat): seq<Chunk>
    requires first > 0
  {
    if parts == [] then [] else Shift(parts[..|parts| - 1], first) + [Moved(parts[|parts| - 1], first)]
  }

  /** `value` stands in the text at `from`. */
  ghost predicate PieceOf(text: string, from: nat, value: string) {
    from + |value| <= |text| && forall i, j :: from <= i < |text| && 0 <= j < |value| && i == from + j ==> text[i] == value[j]
  }

  lemma PieceSlice(text: string, from: nat, value: string, p: nat, q: nat)
    requires PieceOf(text, from, value) && p <= q <= |value|
    ensures text[from + p..from + q] == value[p..q]
  {
  }

  lemma PieceCount(text: string, from: nat, value: string, p: nat)
    requires PieceOf(text, from, value) && p < |value|
    ensures LineOf(text, from + p) == LineOf(text, from) + LineOf(value, p) - 1
  {
    var to := from + |value|;
    assert text[from..to] == value;
    CountShift(text, from, to, p);
  }

  lemma LastOf(value: string, parts: seq<Chunk>, c: Chunk, p: nat, q: nat, end: nat)
    requires Located(value, parts + [c], q) && q == end + 1 && (|c.value| > 0 ==> p + |c.value| == q)
    ensures p <= end < |value| && c == Chunk(value[p..q], LineOf(value, p), LineOf(value, end))
    ensures Located(value, parts, p)
  {
    assert (parts + [c])[..|parts|] == parts;
  }

  lemma ShiftLast(text: string, most: seq<Chunk>, from: nat, value: string, c: Chunk, p: nat, q: nat, end: nat, to: nat)
    requires PieceOf(text, from, value) && p <= end < q == end + 1 <= |value|
    requires c == Chunk(value[p..q], LineOf(value, p), LineOf(value, end)) && to == from + q
    requires Located(text, most, from + p)
    ensures Located(text, most + [Moved(c, LineOf(text, from))], to)
  {
    PieceSlice(text, from, value, p, q);
    PieceCount(text, from, value, p);
    PieceCount(text, from, value, end);
    LocatedNext(text, most, from + p, from + end, to, Moved(c, LineOf(text, from)));
  }

  lemma {:induction false} LocatedShift(text: string, prefix: seq<Chunk>, from: nat, value: string, parts: seq<Chunk>, q: nat, to: nat)
    requires PieceOf(text, from, value) && q <= |value| && to == from + q
    requires Located(text, prefix, from) && Located(value, parts, q)
    ensures Located(text, prefix + Shift(parts, LineOf(text, from)), to)
    decreases |parts|, 1
  {
    if parts == [] {
      assert prefix + [] == prefix;
    } else {
      var n := |parts| - 1;
      assert parts == parts[..n] + [parts[n]];
      ShiftMore(text, prefix, from, value, parts[..n], parts[n], q, to);
    }
  }

  lemma {:induction false} ShiftMore(text: string, prefix: seq<Chunk>, from: nat, value: string, most: seq<Chunk>, c: Chunk, q: nat, to: nat)
    requires PieceOf(text, from, value) && q <= |value| && to == from + q
    requires Located(text, prefix, from) && Located(value, most + [c], q)
    ensures Located(text, prefix + Shift(most + [c], LineOf(text, from)), to)
    decreases |most| + 1, 0
  {
    LocatedEnd(value, most, c, q);
    var p: nat, end: nat := q - |c.value|, q - 1;
    LastOf(value, most, c, p, q, end);
    LocatedShift(text, prefix, from, value, most, p, from + p);
    var first := LineOf(text, from);
    var moved := Shift(most, first);
    ShiftLast(text, prefix + moved, from, value, c, p, q, end, to);
    ShiftIs(most, c, first);
    Regroup(prefix, moved, [Moved(c, first)]);
  }

  lemma ShiftIs(most: seq<Chunk>, c: Chunk, first: nat)
    requires first > 0
    ensures Shift(most + [c], first) == Shift(most, first) + [Moved(c, first)]
  {
    assert (most + [c])[..|most|] == most;
  }

  lemma Regroup(a: seq<Chunk>, b: seq<Chunk>, c: seq<Chunk>)
    ensures a + b + c == a + (b + c)
  {
  }

  /** One line of the text is a chunk that knows its lines. */
  lemma LineLocated(text: string, k: nat, from: nat, to: nat, end: nat)
    requires k < LineCount(text) && from == Start(Lines(text), k) && to == Start(Lines(text), k + 1) && end + 1 == to
    ensures from <= end < |text| && Lines(text)[k] == text[from..to]
    ensures LineOf(text, from) == LineOf(text, end) == k + 1
  {
    LinesJoin(text);
    JoinAt(Lines(text), k, from, to);
    LineNonEmpty(text, k);
    LineAt(text, k, from, from);
    LineAt(text, k, end, from);
  }

  /** The last chunk takes in one more line. */
  lemma LocatedGrows(text: string, most: seq<Chunk>, b: Chunk, from: nat, last: nat, to: nat, line: string)
    requires Located(text, most + [b], from) && from <= last && to == last + 1 && to <= |text| && line == text[from..to]
    ensures Located(text, most + [Chunk(b.value + line, b.first, LineOf(text, last))], to)
  {
    LocatedEnd(text, most, b, from);
    var at, before: nat := from - |b.value|, from - 1;
    LastOf(text, most, b, at, from, before);
    assert b.value + line == text[at..to];
    LocatedNext(text, most, at, last, to, Chunk(text[at..to], b.first, LineOf(text, last)));
  }

  lemma LocatedEnd(text: string, most: seq<Chunk>, b: Chunk, end: nat)
    requires Located(text, most + [b], end)
    ensures 0 < |b.value| <= end
  {
  }

  lemma {:induction false} GroupedLocated(text: string, lines: seq<string>, digit: char -> bool, items: bool, k: nat, end: nat)
    requires lines == Lines(text) && k <= |lines| && end == Start(lines, k)
    ensures end <= |text| && Located(text, Grouped(lines, digit, items, k), end)
  {
    if k > 0 {
      var j: nat := k - 1;
      var from, line := Start(lines, j), lines[j];
      GroupedLocated(text, lines, digit, items, j, from);
      LineNonEmpty(text, j);
      var last: nat := end - 1;
      LineLocated(text, j, from, end, last);
      GroupLocated(text, Grouped(lines, digit, items, j), from, last, end, line, k, j == 0 || Cut(lines, digit, items, j));
    }
  }

  lemma GroupLocated(text: string, g: seq<Chunk>, from: nat, last: nat, to: nat, line: string, k: nat, cut: bool)
    requires Located(text, g, from) && from <= last && to == last + 1 && to <= |text| && line == text[from..to]
    requires LineOf(text, from) == LineOf(text, last) == k && (g == [] ==> cut)
    ensures Located(text, if cut then g + [Chunk(line, k, k)]
                          else g[..|g| - 1] + [Chunk(g[|g| - 1].value + line, g[|g| - 1].first, k)], to)
  {
    if cut {
      LocatedNext(text, g, from, last, to, Chunk(line, k, k));
    } else {
      assert g == g[..|g| - 1] + [g[|g| - 1]];
      LocatedGrows(text, g[..|g| - 1], g[|g| - 1], from, last, to, line);
    }
  }

  /** One block: kept whole when it fits, else cut by length. */
  method BoundedParts(text: string, b: Chunk, ghost before: seq<Chunk>, ghost from: nat, ghost to: nat) returns (parts: seq<Chunk>)
    requires from < to == from + |b.value| <= |text| && Located(text, before, from)
    requires b == Chunk(text[from..to], LineOf(text, from), LineOf(text, to - 1))
    ensures Located(text, before + parts, to) && Small(parts)
    ensures Join(Values(parts)) == b.value && (Size(b.value) <= CHUNK_LIMIT ==> parts == [b])
    ensures b.first <= b.last ==> PartsOf(b, parts)
  {
    if Size(b.value) <= CHUNK_LIMIT {
      parts := [b];
      LocatedNext(text, before, from, to - 1, to, b);
      JoinOne([], b.value);
      assert parts[..0] == [] && Values(parts) == [] + [b.value];
    } else {
      var local := SegmentsV1(b.value);
      CutLocated(text, b.value, before, from, to, local);
      parts := Shift(local, b.first);
      LastPart(text, b, before, from, to, local);
      GreedyFull(b.value, local, |b.value|);
      ShiftedParts(b, local, LineCount(b.value));
    }
  }

  lemma CutLocated(text: string, value: string, before: seq<Chunk>, from: nat, to: nat, parts: seq<Chunk>)
    requires from < to == from + |value| <= |text| && Located(text, before, from) && value == text[from..to]
    requires Located(value, parts, |value|) && Small(parts)
    ensures Located(text, before + Shift(parts, LineOf(text, from)), to)
    ensures Small(Shift(parts, LineOf(text, from))) && Join(Values(Shift(parts, LineOf(text, from)))) == value
  {
    WholeJoins(value, parts);
    LocatedShift(text, before, from, value, parts, |value|, to);
    SmallShift(parts, LineOf(text, from));
  }

  /** A block has as many lines as its range says. */
  lemma LastPart(text: string, b: Chunk, before: seq<Chunk>, from: nat, to: nat, local: seq<Chunk>)
    requires from < to == from + |b.value| <= |text| && b == Chunk(text[from..to], LineOf(text, from), LineOf(text, to - 1))
    requires Located(b.value, local, |b.value|) && Located(text, before + Shift(local, b.first), to)
    ensures Walkable(local, LineCount(b.value)) && b.last == b.first + LineCount(b.value) - 1
  {
    SegmentsPartition(b.value, local);
    ShiftAt(local, b.first);
    var parts := Shift(local, b.first);
    var n := |parts| - 1;
    assert (before + parts)[|before + parts| - 1] == parts[n];
  }

  lemma WholeJoins(value: string, parts: seq<Chunk>)
    requires Located(value, parts, |value|)
    ensures Join(Values(parts)) == value
  {
    LocatedJoins(value, parts, |value|);
    assert value[..|value|] == value;
  }

  lemma {:induction false} SmallShift(parts: seq<Chunk>, first: nat)
    requires Small(parts) && first > 0
    ensures Small(Shift(parts, first)) && Values(Shift(parts, first)) == Values(parts)
  {
    if parts != [] {
      var n := |parts| - 1;
      var s := Shift(parts[..n], first);
      SmallShift(parts[..n], first);
      assert parts[n] in parts;
      assert (s + [Moved(parts[n], first)])[..|s|] == s;
    }
  }

  /** The last loop: only a block over the limit is cut further. */
  method Bounded(text: string, blocks: seq<Chunk>, ghost lines: seq<string>, ghost digit: char -> bool) returns (bounded: seq<Chunk>)
    requires Located(text, blocks, |text|) && BlocksOk(lines, digit, blocks)
    ensures Located(text, bounded, |text|) && Small(bounded) && Refined(blocks, bounded) && Blockwise(lines, digit, bounded)
  {
    bounded := [];
    for i := 0 to |blocks|
      invariant BoundedTo(text, blocks, i, bounded) && BlockwiseTo(lines, digit, blocks, i, bounded)
    {
      bounded := BoundBlock(text, blocks, i, bounded, lines, digit);
    }
    assert blocks[..|blocks|] == blocks;
    PrefixLocated(text, blocks, |text|, |blocks|);
  }

  /** The first `i` blocks have been bounded. */
  ghost predicate BoundedTo(text: string, blocks: seq<Chunk>, i: nat, bounded: seq<Chunk>)
    requires i <= |blocks|
  {
    Located(text, bounded, Length(blocks[..i])) && Small(bounded) && Refined(blocks[..i], bounded)
  }

  ghost predicate BlockwiseTo(lines: seq<string>, digit: char -> bool, blocks: seq<Chunk>, i: nat, bounded: seq<Chunk>)
    requires i <= |blocks|
  {
    && Blockwise(lines, digit, bounded) && (bounded == [] <==> i == 0)
    && (i > 0 && bounded != [] ==> bounded[|bounded| - 1].last == blocks[i - 1].last)
  }

  /** One turn of the last loop. */
  method BoundBlock(text: string, blocks: seq<Chunk>, i: nat, before: seq<Chunk>, ghost lines: seq<string>, ghost digit: char -> bool)
      returns (bounded: seq<Chunk>)
    requires Located(text, blocks, |text|) && i < |blocks| && BoundedTo(text, blocks, i, before)
    requires BlocksOk(lines, digit, blocks) && BlockwiseTo(lines, digit, blocks, i, before)
    ensures BoundedTo(text, blocks, i + 1, bounded) && BlockwiseTo(lines, digit, blocks, i + 1, bounded)
  {
    ghost var from, to := Length(blocks[..i]), Length(blocks[..i + 1]);
    PrefixLocated(text, blocks, |text|, i + 1);
    assert blocks[..i + 1] == blocks[..i] + [blocks[i]];
    LocatedLast(text, blocks[..i], blocks[i], to);
    var parts := BoundedParts(text, blocks[i], before, from, to);
    RefinedNext(blocks[..i], before, blocks[i], parts);
    assert ChunkOk(lines, digit, blocks[i]);
    BlockwiseMore(lines, digit, before, blocks[i], parts);
    bounded := before + parts;
  }

  function Length(chunks: seq<Chunk>): nat {
    if chunks == [] then 0 else Length(chunks[..|chunks| - 1]) + |chunks[|chunks| - 1].value|
  }

  lemma LocatedLast(text: string, chunks: seq<Chunk>, c: Chunk, end: nat)
    requires Located(text, chunks + [c], end) && end == Length(chunks + [c])
    ensures Length(chunks) + |c.value| == end <= |text| && 0 < |c.value|
    ensures c == Chunk(text[Length(chunks)..end], LineOf(text, Length(chunks)), LineOf(text, end - 1))
  {
    assert (chunks + [c])[..|chunks|] == chunks;
  }

  lemma {:induction false} PrefixLocated(text: string, chunks: seq<Chunk>, end: nat, i: nat)
    requires Located(text, chunks, end) && i <= |chunks|
    ensures Located(text, chunks[..i], Length(chunks[..i])) && Length(chunks[..i]) <= end
    ensures i == |chunks| ==> Length(chunks[..i]) == end
  {
    if chunks != [] {
      var n := |chunks| - 1;
      if i == |chunks| {
        PrefixLocated(text, chunks[..n], end - |chunks[n].value|, n);
        assert chunks[..n][..n] == chunks[..n];
        assert chunks[..i] == chunks;
      } else {
        PrefixLocated(text, chunks[..n], end - |chunks[n].value|, i);
        assert chunks[..n][..i] == chunks[..i];
      }
    }
  }

  lemma SectionAt(text: string, lines: seq<string>, blocks: seq<Chunk>, i: nat)
    requires lines == Lines(text) && Sectional(lines, blocks) && i < |blocks|
    ensures Section(lines, blocks[i]) && Lines(blocks[i].value) == lines[blocks[i].first - 1..blocks[i].last]
    ensures blocks[i].first - 1 == if i == 0 then 0 else blocks[i - 1].last
  {
    var a, b: nat := blocks[i].first - 1, blocks[i].last;
    LinesOfLines(text, a, b);
    SpanIsJoin(lines, a, b);
  }

  /** The second loop over all sections. */
  method AllItems(blocks: seq<Chunk>, digit: char -> bool, ghost text: string, ghost lines: seq<string>) returns (output: seq<Chunk>)
    requires lines == Lines(text) && Sectional(lines, blocks) && blocks != []
    ensures blocks[|blocks| - 1].last <= |lines|
    ensures output == Grouped(lines, digit, true, blocks[|blocks| - 1].last)
  {
    output := [];
    ghost var k := 0;
    for i := 0 to |blocks|
      invariant k == if i == 0 then 0 else blocks[i - 1].last
      invariant k <= |lines| && output == Grouped(lines, digit, true, k)
    {
      SectionAt(text, lines, blocks, i);
      output := Items(blocks[i], digit, output, lines);
      k := blocks[i].last;
    }
  }

  /** The first two loops together. */
  method Blocks(text: string, digit: char -> bool) returns (output: seq<Chunk>)
    requires text != ""
    ensures output == Grouped(Lines(text), digit, true, LineCount(text))
  {
    var blocks := Sections(text, digit);
    Sectioned(Lines(text), digit, LineCount(text));
    output := AllItems(blocks, digit, text, Lines(text));
  }

  lemma BlocksLocated(text: string, digit: char -> bool)
    requires text != ""
    ensures Located(text, Grouped(Lines(text), digit, true, LineCount(text)), |text|)
  {
    var lines := Lines(text);
    var n: nat := |lines| - 1;
    var from := Start(lines, n);
    LinesJoin(text);
    JoinAt(lines, n, from, from + |lines[n]|);
    GroupedLocated(text, lines, digit, true, |lines|, |text|);
  }

  /** `_segments_v2`; `Blockwise` says on the lines of the text where the chunks are cut. */
  method SegmentsV2(text: string, digit: char -> bool) returns (bounded: seq<Chunk>)
    ensures Located(text, bounded, |text|) && Small(bounded) && Blockwise(Lines(text), digit, bounded)
    ensures Refined(Grouped(Lines(text), digit, true, LineCount(text)), bounded)
  {
    if text == "" { return []; }
    var output := Blocks(text, digit);
    BlocksLocated(text, digit);
    GroupedOk(Lines(text), digit, LineCount(text));
    bounded := Bounded(text, output, Lines(text), digit);
  }
}
