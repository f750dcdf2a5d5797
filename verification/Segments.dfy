/** Cutting a text into bounded chunks with line ranges (`_raw_lines`,
    `_line_for_offset`, `_segments`, `_segments_v2`). */
module Segments {
  import opened Wrappers

  const CHUNK_LIMIT: nat := 240 * 1024

  function Utf8Size(c: char): (n: nat)
    ensures 1 <= n <= 4
  {
    if c as int < 0x80 then 1 else if c as int < 0x800 then 2 else if c as int < 0x10000 then 3 else 4
  }

  function Size(s: string): nat {
    if s == "" then 0 else Size(s[..|s| - 1]) + Utf8Size(s[|s| - 1])
  }

  // ---------------------------------------------------------------- lines

  /** The separators of Python's `str.splitlines`. */
  predicate Separator(c: char) {
    var n := c as int;
    0x0A <= n <= 0x0D || 0x1C <= n <= 0x1E || n == 0x85 || n == 0x2028 || n == 0x2029
  }

  /** A line ends right after position `i`; a carriage return waits for its line feed. */
  predicate Breaks(text: string, i: nat)
    requires i < |text|
  {
    Separator(text[i]) && !(text[i] == '\r' && i + 1 < |text| && text[i + 1] == '\n')
  }

  function FirstEnd(text: string, i: nat := 0): (end: nat)
    requires i < |text|
    ensures i < end <= |text|
    ensures end < |text| ==> Breaks(text, end - 1)
    decreases |text| - i
  {
    if Breaks(text, i) || i + 1 == |text| then i + 1 else FirstEnd(text, i + 1)
  }

  lemma {:induction false} FirstEndIsFirst(text: string, i: nat, j: nat)
    requires i < |text| && i <= j < FirstEnd(text, i) - 1
    ensures !Breaks(text, j)
    decreases j - i
  {
    if i < j { FirstEndIsFirst(text, i + 1, j); }
  }

  /** `text.splitlines(keepends=True)` */
  function Lines(text: string): (lines: seq<string>)
    ensures text != "" <==> lines != []
  {
    if text == "" then [] else [text[..FirstEnd(text)]] + Lines(text[FirstEnd(text)..])
  }

  lemma {:induction false} LineNonEmpty(text: string, k: nat)
    requires k < |Lines(text)|
    ensures Lines(text)[k] != ""
  {
    if k > 0 { LineNonEmpty(text[FirstEnd(text)..], k - 1); }
  }

  function Join(lines: seq<string>): string {
    if lines == [] then "" else lines[0] + Join(lines[1..])
  }

  function LineCount(text: string): nat { |Lines(text)| }

  /** The positions before `p` where a line ends. */
  function BreaksBefore(text: string, p: nat): set<nat>
    requires p <= |text|
  {
    set i: nat | i < p && Breaks(text, i)
  }

  function Count(text: string, p: nat): nat
    requires p <= |text|
  {
    |BreaksBefore(text, p)|
  }

  /** The number of the line that position `p` lies on, without building any list of lines. */
  function LineOf(text: string, p: nat): nat
    requires p <= |text|
  {
    1 + Count(text, p)
  }

  lemma Associative(x: string, y: string, z: string)
    ensures x + (y + z) == (x + y) + z
  {
  }

  lemma {:induction false} JoinSplit(a: seq<string>, b: seq<string>)
    ensures Join(a + b) == Join(a) + Join(b)
  {
    if a == [] {
      assert a + b == b;
    } else {
      JoinSplit(a[1..], b);
      assert (a + b)[1..] == a[1..] + b;
      Associative(a[0], Join(a[1..]), Join(b));
    }
  }

  lemma JoinOne(lines: seq<string>, line: string)
    ensures Join(lines + [line]) == Join(lines) + line
    ensures Join([line]) == line
  {
    JoinSplit(lines, [line]);
  }

  /** Lines `a` up to `b`, joined. */
  function Span(lines: seq<string>, a: nat, b: nat): string
    requires a <= b <= |lines|
  {
    if a == b then "" else Span(lines, a, b - 1) + lines[b - 1]
  }

  lemma {:induction false} SpanIsJoin(lines: seq<string>, a: nat, b: nat)
    requires a <= b <= |lines|
    ensures Join(lines[a..b]) == Span(lines, a, b)
  {
    if a == b {
      assert lines[a..b] == [];
    } else {
      var c: nat := b - 1;
      SpanIsJoin(lines, a, c);
      assert lines[a..b] == lines[a..c] + [lines[c]];
      JoinOne(lines[a..c], lines[c]);
    }
  }

  lemma {:induction false} LinesJoin(text: string)
    ensures Join(Lines(text)) == text
  {
    if text != "" { LinesJoin(text[FirstEnd(text)..]); }
  }

  lemma CountStart(text: string)
    ensures Count(text, 0) == 0
  {
    assert BreaksBefore(text, 0) == {};
  }

  lemma CountNext(text: string, p: nat)
    requires p < |text|
    ensures Count(text, p + 1) == Count(text, p) + if Breaks(text, p) then 1 else 0
  {
    assert BreaksBefore(text, p + 1) == BreaksBefore(text, p) + if Breaks(text, p) then {p} else {};
  }

  /** Counting line ends inside a piece of the text. */
  lemma {:induction false} CountShift(text: string, from: nat, to: nat, p: nat)
    requires from + p <= to <= |text|
    requires from + p < to || to == |text|
    ensures Count(text, from + p) == Count(text, from) + Count(text[from..to], p)
  {
    var piece := text[from..to];
    if p == 0 {
      CountStart(piece);
    } else {
      var q: nat := p - 1;
      CountShift(text, from, to, q);
      CountNext(text, from + q);
      CountNext(piece, q);
      assert Breaks(text, from + q) == Breaks(piece, q);
    }
  }

  lemma {:induction false} NoBreaks(text: string, p: nat)
    requires text != "" && p < FirstEnd(text)
    ensures Count(text, p) == 0
  {
    if p == 0 {
      CountStart(text);
    } else {
      var q: nat := p - 1;
      NoBreaks(text, q);
      FirstEndIsFirst(text, 0, q);
      CountNext(text, q);
    }
  }

  /** Where line `k` starts. */
  function Start(lines: seq<string>, k: nat): nat
    requires k <= |lines|
  {
    if k == 0 then 0 else Start(lines, k - 1) + |lines[k - 1]|
  }

  lemma {:induction false} StartShift(line: string, lines: seq<string>, k: nat)
    requires k <= |lines|
    ensures Start([line] + lines, k + 1) == |line| + Start(lines, k)
  {
    if k > 0 { StartShift(line, lines, k - 1); }
  }

  /** Line `k` inside the joined lines. */
  lemma {:induction false} JoinAt(lines: seq<string>, k: nat, from: nat, to: nat)
    requires k < |lines| && from == Start(lines, k) && to == from + |lines[k]|
    ensures to <= |Join(lines)| && Join(lines)[from..to] == lines[k]
    ensures k + 1 == |lines| ==> to == |Join(lines)|
  {
    var rest := lines[1..];
    if k > 0 {
      assert lines == [lines[0]] + rest;
      var j: nat := k - 1;
      StartShift(lines[0], rest, j);
      var n := |lines[0]|;
      JoinAt(rest, j, from - n, to - n);
      SliceAfter(lines[0], Join(rest), from - n, to - n);
    } else if |lines| == 1 {
      assert rest == [];
    }
  }

  lemma SliceAfter(a: string, b: string, from: nat, to: nat)
    requires from <= to <= |b|
    ensures (a + b)[|a| + from..|a| + to] == b[from..to]
  {
  }

  /** The two descriptions of lines agree: every position of the k-th element of `splitlines` is on line k + 1. */
  lemma {:induction false} LineAt(text: string, k: nat, p: nat, from: nat)
    requires k < LineCount(text) && from == Start(Lines(text), k) <= p < from + |Lines(text)[k]|
    ensures p < |text| && LineOf(text, p) == k + 1
  {
    var e := FirstEnd(text);
    if k == 0 {
      NoBreaks(text, p);
    } else {
      var rest, j: nat := text[e..], k - 1;
      StartShift(text[..e], Lines(rest), j);
      var q: nat := p - e;
      LineAt(rest, j, q, from - e);
      CountRest(text, e, q);
    }
  }

  lemma CountRest(text: string, e: nat, q: nat)
    requires text != "" && e == FirstEnd(text) && e + q < |text|
    ensures Count(text, e + q) == 1 + Count(text[e..], q)
  {
    var rest, last: nat := text[e..|text|], e - 1;
    assert rest == text[e..];
    CountShift(text, e, |text|, q);
    NoBreaks(text, last);
    assert Breaks(text, last) && last + 1 == e;
    CountNext(text, last);
  }

  lemma SliceTail(x: string, r: seq<string>, a: nat, b: nat)
    requires 0 < a <= b <= |r| + 1
    ensures ([x] + r)[a..b] == r[a - 1..b - 1]
  {
  }

  lemma SliceHead(x: string, r: seq<string>, b: nat)
    requires 0 < b <= |r| + 1
    ensures ([x] + r)[0..b] == [x] + r[0..b - 1]
  {
  }

  lemma {:induction false} LinesOfFirst(text: string, b: nat)
    requires b <= LineCount(text)
    ensures Lines(Join(Lines(text)[0..b])) == Lines(text)[0..b]
  {
    if b == 0 {
      assert Lines(text)[0..0] == [];
    } else {
      var rest, c: nat := text[FirstEnd(text)..], b - 1;
      LinesOfFirst(rest, c);
      FirstLineThenRest(text, Lines(rest)[0..c]);
      SliceHead(text[..FirstEnd(text)], Lines(rest), b);
    }
  }

  /** Splitting whole lines that were joined gives the same lines back. */
  lemma {:induction false} LinesOfLines(text: string, a: nat, b: nat)
    requires a <= b <= LineCount(text)
    ensures Lines(Join(Lines(text)[a..b])) == Lines(text)[a..b]
  {
    if a == 0 {
      LinesOfFirst(text, b);
    } else {
      var rest := text[FirstEnd(text)..];
      LinesOfLines(rest, a - 1, b - 1);
      SliceTail(text[..FirstEnd(text)], Lines(rest), a, b);
    }
  }

  lemma FirstLineThenRest(text: string, more: seq<string>)
    requires text != "" && more <= Lines(text[FirstEnd(text)..])
    requires Lines(Join(more)) == more
    ensures Lines(text[..FirstEnd(text)] + Join(more)) == [text[..FirstEnd(text)]] + more
  {
    var e := FirstEnd(text);
    JoinPrefix(text[e..], more);
    var part := text[..e] + Join(more);
    assert part == text[..|part|];
    SameFirstEnd(text, part);
    assert part[e..] == Join(more) && part[..e] == text[..e];
  }

  lemma JoinPrefix(rest: string, more: seq<string>)
    requires more <= Lines(rest)
    ensures Join(more) <= rest
  {
    var after := Lines(rest)[|more|..];
    assert Lines(rest) == more + after;
    LinesJoin(rest);
    JoinSplit(more, after);
  }

  /** A prefix that reaches the first line end has the same first line. */
  lemma SameFirstEnd(text: string, part: string)
    requires part != "" && |part| <= |text| && part == text[..|part|] && FirstEnd(text) <= |part|
    ensures FirstEnd(part) == FirstEnd(text)
  {
    var e, f := FirstEnd(text), FirstEnd(part);
    if f < e { FirstEndIsFirst(text, 0, f - 1); }
    if e < f { FirstEndIsFirst(part, 0, e - 1); }
  }

  // ---------------------------------------------------------------- chunks

  datatype Chunk = Chunk(value: string, first: nat, last: nat)

  /** `chunks` is the text up to `end`, cut into non-empty pieces that know their lines. */
  predicate Located(text: string, chunks: seq<Chunk>, end: nat) {
    if chunks == [] then end == 0
    else
      var c := chunks[|chunks| - 1];
      && 0 < |c.value| <= end <= |text|
      && c.value == text[end - |c.value|..end]
      && c.first == LineOf(text, end - |c.value|)
      && c.last == LineOf(text, end - 1)
      && Located(text, chunks[..|chunks| - 1], end - |c.value|)
  }

  predicate Small(chunks: seq<Chunk>) {
    forall c :: c in chunks ==> Size(c.value) <= CHUNK_LIMIT
  }

  function Values(chunks: seq<Chunk>): seq<string> {
    if chunks == [] then [] else Values(chunks[..|chunks| - 1]) + [chunks[|chunks| - 1].value]
  }

  /** What the verifier asks of the line ranges of one source (its walk over the segments). */
  predicate Walkable(chunks: seq<Chunk>, lineCount: nat) {
    && chunks != []
    && chunks[0].first == 1
    && chunks[|chunks| - 1].last == lineCount
    && (forall i, j :: 0 <= i < |chunks| && 0 <= j < |chunks| && j == i + 1 ==> chunks[j].first == chunks[i].last || chunks[j].first == chunks[i].last + 1)
    && (forall i :: 0 <= i < |chunks| ==> 1 <= chunks[i].first <= chunks[i].last <= lineCount)
  }

  lemma {:induction false} CountMonotone(text: string, p: nat, q: nat)
    requires p <= q <= |text|
    ensures Count(text, p) <= Count(text, q)
  {
    if p < q {
      CountMonotone(text, p, q - 1);
      CountNext(text, q - 1);
    }
  }

  /** Cutting loses nothing. */
  lemma {:induction false} LocatedJoins(text: string, chunks: seq<Chunk>, end: nat)
    requires Located(text, chunks, end) && end <= |text|
    ensures Join(Values(chunks)) == text[..end]
  {
    if chunks != [] {
      var n := |chunks| - 1;
      LocatedJoins(text, chunks[..n], end - |chunks[n].value|);
      JoinOne(Values(chunks[..n]), chunks[n].value);
    }
  }

  /** The line ranges walk from the first line to the line where the cut ends. */
  lemma {:induction false} LocatedWalks(text: string, chunks: seq<Chunk>, end: nat)
    requires Located(text, chunks, end) && 0 < end
    ensures end <= |text| && Walkable(chunks, LineOf(text, end - 1))
  {
    var n := |chunks| - 1;
    var c := chunks[n];
    var start, last: nat := end - |c.value|, end - 1;
    CountMonotone(text, start, last);
    assert chunks == chunks[..n] + [c];
    if start == 0 {
      assert chunks[..n] == [];
      CountStart(text);
    } else {
      var before: nat := start - 1;
      LocatedWalks(text, chunks[..n], start);
      CountNext(text, before);
      WalkOn(chunks[..n], LineOf(text, before), c);
    }
  }

  lemma WalkOn(chunks: seq<Chunk>, reached: nat, c: Chunk)
    requires Walkable(chunks, reached)
    requires c.first == reached || c.first == reached + 1
    requires c.first <= c.last
    ensures Walkable(chunks + [c], c.last)
  {
  }

  lemma LastLine(text: string, end: nat)
    requires text != "" && end + 1 == |text|
    ensures LineOf(text, end) == LineCount(text)
  {
    var k: nat := LineCount(text) - 1;
    var from := Start(Lines(text), k);
    LinesJoin(text);
    LineNonEmpty(text, k);
    JoinAt(Lines(text), k, from, from + |Lines(text)[k]|);
    LineAt(text, k, end, from);
  }

  /** For a non-empty text the last line is the line count, so the verifier's walk accepts the whole cut. */
  lemma SegmentsPartition(text: string, chunks: seq<Chunk>)
    requires text != "" && Located(text, chunks, |text|)
    ensures Join(Values(chunks)) == text
    ensures Walkable(chunks, LineCount(text))
  {
    var last: nat := |text| - 1;
    LocatedJoins(text, chunks, |text|);
    assert text[..|text|] == text;
    LocatedWalks(text, chunks, |text|);
    LastLine(text, last);
  }

  // ---------------------------------------------------------------- version 1

  /** `_raw_lines`: the spans are the lines. */
  method RawLines(text: string) returns (spans: seq<(nat, nat)>)
    ensures |spans| == LineCount(text)
    ensures forall k :: 0 <= k < |spans| ==> spans[k] == (Start(Lines(text), k), Start(Lines(text), k + 1))
  {
    var lines := Lines(text);
    spans := [];
    var offset := 0;
    for i := 0 to |lines|
      invariant |spans| == i && offset == Start(lines, i)
      invariant forall k :: 0 <= k < i ==> spans[k] == (Start(lines, k), Start(lines, k + 1))
    {
      var end := offset + |lines[i]|;
      spans := spans + [(offset, end)];
      offset := end;
    }
  }

  /** `_line_for_offset`: the first span that holds the offset, else the last line. */
  method LineForOffset(lines: seq<(nat, nat)>, offset: nat) returns (number: nat)
    ensures 1 <= number
    ensures forall k :: 0 <= k < number - 1 && k < |lines| ==> !(lines[k].0 <= offset < lines[k].1)
    ensures (exists k :: 0 <= k < |lines| && lines[k].0 <= offset < lines[k].1) ==>
              number <= |lines| && lines[number - 1].0 <= offset < lines[number - 1].1
    ensures (forall k :: 0 <= k < |lines| ==> !(lines[k].0 <= offset < lines[k].1)) ==>
              number == if lines == [] then 1 else |lines|
  {
    for i := 0 to |lines|
      invariant forall k :: 0 <= k < i ==> !(lines[k].0 <= offset < lines[k].1)
    {
      if lines[i].0 <= offset < lines[i].1 { return i + 1; }
    }
    return if lines == [] then 1 else |lines|;
  }

  /** Some line holds every position before the end. */
  lemma {:induction false} SomeLine(lines: seq<string>, k: nat, p: nat) returns (i: nat)
    requires k <= |lines| && p < Start(lines, k)
    ensures i < k && Start(lines, i) <= p < Start(lines, i + 1)
  {
    if Start(lines, k - 1) <= p { i := k - 1; } else { i := SomeLine(lines, k - 1, p); }
  }

  lemma LineHolding(text: string, p: nat) returns (i: nat)
    requires p < |text|
    ensures i < LineCount(text) && Start(Lines(text), i) <= p < Start(Lines(text), i + 1)
  {
    var lines := Lines(text);
    var n: nat := |lines| - 1;
    LinesJoin(text);
    JoinAt(lines, n, Start(lines, n), Start(lines, n) + |lines[n]|);
    i := SomeLine(lines, |lines|, p);
  }

  method LineNumber(text: string, offset: nat) returns (number: nat)
    requires offset < |text|
    ensures number == LineOf(text, offset)
  {
    var spans := RawLines(text);
    number := LineForOffset(spans, offset);
    ghost var i := LineHolding(text, offset);
    assert spans[i].0 <= offset < spans[i].1;
    var k: nat := number - 1;
    assert spans[k].0 == Start(Lines(text), k) <= offset < Start(Lines(text), k + 1);
    LineAt(text, k, offset, Start(Lines(text), k));
  }

  /** Every chunk but the last is as long as the limit allows. */
  ghost predicate Greedy(text: string, chunks: seq<Chunk>, end: nat) {
    chunks != [] && end <= |text| && |chunks[|chunks| - 1].value| <= end ==>
      && Greedy(text, chunks[..|chunks| - 1], end - |chunks[|chunks| - 1].value|)
      && (end < |text| ==> Size(text[end - |chunks[|chunks| - 1].value|..end + 1]) > CHUNK_LIMIT)
  }

  /** The inner loop of `_segments`: characters are taken while they fit. */
  method NextCut(text: string, start: nat) returns (end: nat)
    requires start < |text|
    ensures start < end <= |text| && Size(text[start..end]) <= CHUNK_LIMIT
    ensures end < |text| ==> Size(text[start..end + 1]) > CHUNK_LIMIT
  {
    end := start;
    var used := 0;
    while end < |text|
      invariant start <= end <= |text| && used == Size(text[start..end]) <= CHUNK_LIMIT
    {
      var size := Utf8Size(text[end]);
      assert text[start..end + 1][..end - start] == text[start..end];
      if used + size > CHUNK_LIMIT && end > start { break; }
      used := used + size;
      end := end + 1;
    }
  }

  lemma LocatedNext(text: string, chunks: seq<Chunk>, start: nat, last: nat, end: nat, c: Chunk)
    requires Located(text, chunks, start) && start <= last < end == last + 1 <= |text|
    requires c == Chunk(text[start..end], LineOf(text, start), LineOf(text, last))
    ensures Located(text, chunks + [c], end)
  {
    assert (chunks + [c])[..|chunks|] == chunks;
  }

  lemma ChunkAdded(text: string, output: seq<Chunk>, start: nat, end: nat, c: Chunk)
    requires start < end <= |text| && Located(text, output, start) && Small(output) && Greedy(text, output, start)
    requires c == Chunk(text[start..end], LineOf(text, start), LineOf(text, end - 1))
    requires Size(c.value) <= CHUNK_LIMIT && (end < |text| ==> Size(text[start..end + 1]) > CHUNK_LIMIT)
    ensures Located(text, output + [c], end) && Small(output + [c]) && Greedy(text, output + [c], end)
  {
    var last: nat := end - 1;
    LocatedNext(text, output, start, last, end, c);
    assert (output + [c])[..|output|] == output;
  }

  /** `_segments` */
  method SegmentsV1(text: string) returns (output: seq<Chunk>)
    ensures Located(text, output, |text|) && Small(output)
    ensures Greedy(text, output, |text|)
  {
    output := [];
    var start := 0;
    while start < |text|
      invariant start <= |text| && Located(text, output, start) && Small(output) && Greedy(text, output, start)
    {
      var end := NextCut(text, start);
      var first := LineNumber(text, start);
      var last := LineNumber(text, end - 1);
      var c := Chunk(text[start..end], first, last);
      ChunkAdded(text, output, start, end, c);
      output := output + [c];
      start := end;
    }
  }
}
