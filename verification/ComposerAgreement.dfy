/** The composer and the validator agree: a composition passes exactly when no field holds
    marker text, it keeps the original, and it cannot be composed on again. */
module ComposerAgreement {
  import opened Segments
  import opened BlockSegments
  import opened MarkdownLines
  import opened Markers
  import opened Composer

  predicate Eol(eol: string) { eol == "\n" || eol == "\r\n" }

  // ---------------------------------------------------------------- separators

  lemma {:induction false} UnlinedLast(t: string)
    requires t != "" && t[|t| - 1] == '\n' && (|t| > 1 ==> t[|t| - 2] != '\r')
    ensures '\n' in Unlined(t)
  {
    if |t| > 1 {
      if t[0] == '\r' && t[1] == '\n' {
        UnlinedLast(t[2..]);
      } else {
        UnlinedLast(t[1..]);
      }
    }
  }

  /** Lines that all end alike: the text ends with some line end exactly when it ends with theirs. */
  lemma LineEndsAgree(text: string, eol: string)
    requires text != "" && !BareReturn(text) && !(HasPair(text) && '\n' in Unlined(text))
    requires eol == if HasPair(text) then "\r\n" else "\n"
    ensures EndsWith(text, eol) <==> text[|text| - 1] == '\n' || text[|text| - 1] == '\r'
  {
    var n: nat := |text| - 1;
    assert text[n] != '\r';
    if text[n] == '\n' {
      if eol == "\r\n" {
        if n == 0 || text[n - 1] != '\r' { UnlinedLast(text); }
        assert text[n - 1..] == [text[n - 1], text[n]];
      } else {
        assert text[n..] == [text[n]];
      }
    }
  }

  /** The composer looks for any line end, the validator for the chosen one: on every original
      that is accepted they choose the same separator. */
  lemma SeparatorsAgree(before: string)
    requires ValidateOriginal(before).Accepted?
    ensures var eol := ValidateOriginal(before).eol;
            Eol(eol) && SeparatorOf(before, eol) == if EndsWith(before, eol) then eol else eol + eol
  {
    var text, eol := Body(before), ValidateOriginal(before).eol;
    if text == "" {
      NoBody(before, eol);
    } else {
      LineEndsAgree(text, eol);
      BodyEnds(before, eol);
    }
  }

  lemma NoBody(data: string, eol: string)
    requires Body(data) == "" && Eol(eol)
    ensures data == "" || data == [BOM]
    ensures !EndsWith(data, eol)
  {
    if data != "" {
      assert data == [BOM] && data[|data| - 1..] == [BOM];
    }
  }

  lemma BodyEnds(data: string, eol: string)
    requires Body(data) != "" && Eol(eol)
    ensures data[|data| - 1] == Body(data)[|Body(data)| - 1]
    ensures EndsWith(data, eol) <==> EndsWith(Body(data), eol)
  {
    if data[0] == BOM {
      if |eol| < |data| { assert data[|data| - |eol|..] == data[1..][|data| - 1 - |eol|..]; }
      if |eol| == |data| { assert data[0] != eol[0]; }
    }
  }

  // ---------------------------------------------------------------- counting markers

  function SumCounts(lines: seq<string>, m: string): nat
    requires m != ""
  {
    if lines == [] then 0 else Markers.Count(lines[0], m) + SumCounts(lines[1..], m)
  }

  lemma {:induction false} SumOver(a: seq<string>, b: seq<string>, m: string)
    requires m != ""
    ensures SumCounts(a + b, m) == SumCounts(a, m) + SumCounts(b, m)
  {
    if a == [] {
      assert a + b == b;
    } else {
      SumOver(a[1..], b, m);
      assert (a + b)[1..] == a[1..] + b;
    }
  }

  lemma {:induction false} LinedCounts(eol: string, lines: seq<string>, m: string)
    requires MarkerLike(m) && Eol(eol)
    ensures Markers.Count(Lined(eol, lines), m) == SumCounts(lines, m)
  {
    if lines == [] {
      CountShort("", m);
    } else {
      LinedCounts(eol, lines[1..], m);
      CountSplit(lines[0], eol, Lined(eol, lines[1..]), m);
    }
  }

  lemma PlainCount(p: string, m: string)
    requires MarkerLike(m) && NoOpening(p)
    ensures Markers.Count(p, m) == 0
  {
    CountSkip(p, "", m);
    assert p + "" == p;
    CountShort("", m);
  }

  /** The inert fields, in the order in which the section shows them. */
  function CitationFields(t: Text, c: seq<Cited>): seq<string> {
    if c == [] then [] else CitationFields(t, c[..|c| - 1]) + [Inert(t, c[|c| - 1].preview), Inert(t, c[|c| - 1].path)]
  }

  function ConstraintFields(t: Text, c: seq<(string, string)>): seq<string> {
    if c == [] then [] else ConstraintFields(t, c[..|c| - 1]) + [Inert(t, c[|c| - 1].0), Inert(t, c[|c| - 1].1)]
  }

  function Fields(t: Text, r: Result): seq<string> {
    [Inert(t, r.task)] + CitationFields(t, r.citations) + ConstraintFields(t, r.constraints)
  }

  lemma {:induction false} DecimalPlain(n: nat)
    ensures NoOpening(Decimal(n)) && Harmless(Decimal(n))
  {
    if n >= 10 { DecimalPlain(n / 10); }
  }

  lemma PaddedPlain(n: nat)
    ensures NoOpening(Padded(n)) && Harmless(Padded(n))
  {
    DecimalPlain(n);
  }

  function CitationHead(c: Cited): string { "- [S" + Padded(c.id) + "] " }

  function CitationTail(c: Cited): string { ", lines " + Decimal(c.first) + "-" + Decimal(c.last) + ")" }

  lemma CitationParts(t: Text, c: Cited)
    ensures CitationLine(t, c) == CitationHead(c) + (Inert(t, c.preview) + " (" + (Inert(t, c.path) + CitationTail(c)))
    ensures NoOpening(CitationHead(c)) && Separates(CitationTail(c))
    ensures Harmless(CitationHead(c)) && Harmless(CitationTail(c))
  {
    PaddedPlain(c.id);
    DecimalPlain(c.first);
    DecimalPlain(c.last);
  }

  lemma FieldsCount(head: string, preview: string, path: string, tail: string, m: string)
    requires MarkerLike(m) && NoOpening(head) && Separates(tail)
    ensures Markers.Count(head + (preview + " (" + (path + tail)), m) == Markers.Count(preview, m) + Markers.Count(path, m)
  {
    CountSkip(head, preview + " (" + (path + tail), m);
    CountSplit(preview, " (", path + tail, m);
    CountSplit(path, tail, "", m);
    assert path + tail + "" == path + tail;
    CountShort("", m);
  }

  lemma CitationCounts(t: Text, c: Cited, m: string)
    requires MarkerLike(m)
    ensures Markers.Count(CitationLine(t, c), m) == Markers.Count(Inert(t, c.preview), m) + Markers.Count(Inert(t, c.path), m)
  {
    CitationParts(t, c);
    FieldsCount(CitationHead(c), Inert(t, c.preview), Inert(t, c.path), CitationTail(c), m);
  }

  lemma ConstraintCounts(t: Text, c: (string, string), m: string)
    requires MarkerLike(m)
    ensures Markers.Count(ConstraintLine(t, c), m) == Markers.Count(Inert(t, c.0), m) + Markers.Count(Inert(t, c.1), m)
  {
    var rest := Inert(t, c.0) + ": " + Inert(t, c.1);
    assert ConstraintLine(t, c) == "- " + rest;
    CountSkip("- ", rest, m);
    CountSplit(Inert(t, c.0), ": ", Inert(t, c.1), m);
  }

  lemma SumTwo(a: string, b: string, m: string)
    requires m != ""
    ensures SumCounts([a, b], m) == Markers.Count(a, m) + Markers.Count(b, m)
  {
    assert [a] + [b] == [a, b];
    SumOver([a], [b], m);
  }

  lemma SumOne(a: string, m: string)
    requires m != ""
    ensures SumCounts([a], m) == Markers.Count(a, m)
  {
  }

  lemma SumLast(lines: seq<string>, line: string, fields: seq<string>, a: string, b: string, m: string)
    requires m != "" && SumCounts(lines, m) == SumCounts(fields, m)
    requires Markers.Count(line, m) == Markers.Count(a, m) + Markers.Count(b, m)
    ensures SumCounts(lines + [line], m) == SumCounts(fields + [a, b], m)
  {
    SumOver(lines, [line], m);
    SumOne(line, m);
    SumOver(fields, [a, b], m);
    SumTwo(a, b, m);
  }

  lemma CitationStep(t: Text, most: seq<Cited>, last: Cited, m: string)
    requires MarkerLike(m) && SumCounts(CitationLines(t, most), m) == SumCounts(CitationFields(t, most), m)
    ensures SumCounts(CitationLines(t, most + [last]), m) == SumCounts(CitationFields(t, most + [last]), m)
  {
    var line := CitationLine(t, last);
    CitationCounts(t, last, m);
    SumLast(CitationLines(t, most), line, CitationFields(t, most), Inert(t, last.preview), Inert(t, last.path), m);
    assert CitationLines(t, most + [last]) == CitationLines(t, most) + [line];
    assert (most + [last])[..|most|] == most;
  }

  lemma {:induction false} CitationSums(t: Text, c: seq<Cited>, m: string)
    requires MarkerLike(m)
    ensures SumCounts(CitationLines(t, c), m) == SumCounts(CitationFields(t, c), m)
  {
    if c == [] {
      assert CitationLines(t, c) == [];
    } else {
      var most, last := c[..|c| - 1], c[|c| - 1];
      assert most + [last] == c;
      CitationSums(t, most, m);
      CitationStep(t, most, last, m);
    }
  }

  lemma ConstraintStep(t: Text, most: seq<(string, string)>, last: (string, string), m: string)
    requires MarkerLike(m) && SumCounts(ConstraintLines(t, most), m) == SumCounts(ConstraintFields(t, most), m)
    ensures SumCounts(ConstraintLines(t, most + [last]), m) == SumCounts(ConstraintFields(t, most + [last]), m)
  {
    var line := ConstraintLine(t, last);
    ConstraintCounts(t, last, m);
    SumLast(ConstraintLines(t, most), line, ConstraintFields(t, most), Inert(t, last.0), Inert(t, last.1), m);
    assert ConstraintLines(t, most + [last]) == ConstraintLines(t, most) + [line];
    assert (most + [last])[..|most|] == most;
  }

  lemma {:induction false} ConstraintSums(t: Text, c: seq<(string, string)>, m: string)
    requires MarkerLike(m)
    ensures SumCounts(ConstraintLines(t, c), m) == SumCounts(ConstraintFields(t, c), m)
  {
    if c == [] {
      assert ConstraintLines(t, c) == [];
    } else {
      var most, last := c[..|c| - 1], c[|c| - 1];
      assert most + [last] == c;
      ConstraintSums(t, most, m);
      ConstraintStep(t, most, last, m);
    }
  }

  lemma DeclaredSums(t: Text, c: seq<(string, string)>, m: string)
    requires MarkerLike(m)
    ensures SumCounts(DeclaredLines(t, c), m) == SumCounts(ConstraintFields(t, c), m)
  {
    if c != [] {
      ConstraintSums(t, c, m);
      TitlesCount(m);
      SumOver(["", DECLARED], ConstraintLines(t, c), m);
    }
  }

  lemma TitlesCount(m: string)
    requires MarkerLike(m)
    ensures SumCounts(["", DECLARED], m) == 0
  {
    SumTwo("", DECLARED, m);
    PlainCount("", m);
    PlainCount(DECLARED, m);
  }

  lemma HeadSums(t: Text, r: Result, m: string)
    requires MarkerLike(m)
    ensures SumCounts(HeadLines(t, r), m) == Markers.Count(Inert(t, r.task), m)
  {
    var task := "**Task:** " + Inert(t, r.task);
    CountSkip("**Task:** ", Inert(t, r.task), m);
    PlainCount(TITLE, m);
    PlainCount("", m);
    PlainCount(GROUNDED, m);
    SumOver([TITLE, ""], [task, "", GROUNDED], m);
    SumTwo(TITLE, "", m);
    SumOver([task], ["", GROUNDED], m);
    SumOne(task, m);
    SumTwo("", GROUNDED, m);
    assert HeadLines(t, r) == [TITLE, ""] + ([task] + ["", GROUNDED]);
    assert [task] + ["", GROUNDED] == [task, "", GROUNDED];
  }

  /** The lines between the markers hold as many markers as the fields do. */
  lemma MiddleSums(t: Text, r: Result, m: string)
    requires MarkerLike(m)
    ensures SumCounts(MiddleLines(t, r), m) == SumCounts(Fields(t, r), m)
  {
    HeadSums(t, r, m);
    CitationSums(t, r.citations, m);
    DeclaredSums(t, r.constraints, m);
    SumOver(HeadLines(t, r) + CitationLines(t, r.citations), DeclaredLines(t, r.constraints), m);
    SumOver(HeadLines(t, r), CitationLines(t, r.citations), m);
    SumOver([Inert(t, r.task)] + CitationFields(t, r.citations), ConstraintFields(t, r.constraints), m);
    SumOver([Inert(t, r.task)], CitationFields(t, r.citations), m);
    SumOne(Inert(t, r.task), m);
  }

  lemma {:induction false} CountSelf(m: string)
    requires MarkerLike(m)
    ensures Markers.Count(m, m) == 1
  {
    CountShort("", m);
    assert m[|m|..] == "";
  }

  /** The two markers are no part of each other. */
  lemma MarkersApart()
    ensures Markers.Count(END_MARKER, START_MARKER) == 0
    ensures Markers.Count(START_MARKER, END_MARKER) == 0
  {
    WordsAreInside();
    StartIsMarker();
    EndIsMarker();
    CountShort(END_MARKER, START_MARKER);
    assert START_MARKER[43] == 's' && END_MARKER[43] == 'e';
    assert NoOpening(START_MARKER[1..]);
    PlainCount(START_MARKER[1..], END_MARKER);
  }

  lemma SectionCounts(t: Text, r: Result, eol: string)
    requires Eol(eol)
    ensures var g := Lined(eol, SectionLines(t, r));
            && Markers.Count(g, START_MARKER) == 1 + SumCounts(Fields(t, r), START_MARKER)
            && Markers.Count(g, END_MARKER) == 1 + SumCounts(Fields(t, r), END_MARKER)
  {
    StartIsMarker();
    EndIsMarker();
    MarkersApart();
    OneSectionCount(t, r, eol, START_MARKER);
    OneSectionCount(t, r, eol, END_MARKER);
    CountSelf(START_MARKER);
    CountSelf(END_MARKER);
  }

  lemma OneSectionCount(t: Text, r: Result, eol: string, m: string)
    requires Eol(eol) && MarkerLike(m)
    ensures Markers.Count(Lined(eol, SectionLines(t, r)), m)
         == Markers.Count(START_MARKER, m) + SumCounts(Fields(t, r), m) + Markers.Count(END_MARKER, m)
  {
    LinedCounts(eol, SectionLines(t, r), m);
    SumOver([START_MARKER] + MiddleLines(t, r), [END_MARKER], m);
    SumOver([START_MARKER], MiddleLines(t, r), m);
    SumOne(START_MARKER, m);
    SumOne(END_MARKER, m);
    MiddleSums(t, r, m);
  }

  /** No inert field holds either marker. */
  ghost predicate MarkerFree(t: Text, r: Result) {
    forall f :: f in Fields(t, r) ==> !Contains(f, START_MARKER) && !Contains(f, END_MARKER)
  }

  lemma {:induction false} NoneContains(fields: seq<string>, m: string)
    requires m != ""
    ensures SumCounts(fields, m) == 0 <==> forall f :: f in fields ==> !Contains(f, m)
  {
    if fields != [] {
      NoneContains(fields[1..], m);
      CountZero(fields[0], m);
      assert fields == [fields[0]] + fields[1..];
    }
  }

  // ---------------------------------------------------------------- characters and line ends

  ghost predicate AllHarmless(lines: seq<string>) {
    forall l :: l in lines ==> Harmless(l)
  }

  lemma HeadHarmless(t: Text, r: Result)
    ensures AllHarmless(HeadLines(t, r))
  {
    InertHarmless(t, r.task);
    TitlesHarmless();
  }

  lemma TitlesHarmless()
    ensures Harmless(TITLE) && Harmless(GROUNDED) && Harmless("**Task:** ")
  {
    assert Harmless("## Task-driven ") && Harmless("update proposal");
    assert Harmless("### Source-") && Harmless("grounded statements");
  }

  lemma CitationsHarmless(t: Text, c: seq<Cited>)
    ensures AllHarmless(CitationLines(t, c))
  {
    forall i | 0 <= i < |c| ensures Harmless(CitationLines(t, c)[i]) { CitationHarmless(t, c[i]); }
  }

  lemma ConstraintHarmless(t: Text, c: (string, string))
    ensures Harmless(ConstraintLine(t, c))
  {
    InertHarmless(t, c.0);
    InertHarmless(t, c.1);
  }

  lemma DeclaredHarmless(t: Text, c: seq<(string, string)>)
    ensures AllHarmless(DeclaredLines(t, c))
  {
    forall i | 0 <= i < |c| ensures Harmless(ConstraintLines(t, c)[i]) { ConstraintHarmless(t, c[i]); }
  }

  lemma LinesHarmless(t: Text, r: Result)
    ensures AllHarmless(SectionLines(t, r))
  {
    MarkersHarmless();
    HeadHarmless(t, r);
    CitationsHarmless(t, r.citations);
    DeclaredHarmless(t, r.constraints);
  }

  lemma HarmlessOver(a: string, b: string)
    requires Harmless(a) && Harmless(b)
    ensures Harmless(a + b)
  {
  }

  lemma CitationHarmless(t: Text, c: Cited)
    ensures Harmless(CitationLine(t, c))
  {
    InertHarmless(t, c.preview);
    InertHarmless(t, c.path);
    CitationParts(t, c);
    var rest := Inert(t, c.path) + CitationTail(c);
    HarmlessOver(Inert(t, c.path), CitationTail(c));
    HarmlessOver(Inert(t, c.preview), " (");
    HarmlessOver(Inert(t, c.preview) + " (", rest);
    HarmlessOver(CitationHead(c), Inert(t, c.preview) + " (" + rest);
  }

  lemma MarkersHarmless()
    ensures Harmless(START_MARKER) && Harmless(END_MARKER)
  {
    StartIsMarker();
    EndIsMarker();
  }

  lemma {:induction false} LinedSafe(eol: string, lines: seq<string>)
    requires Eol(eol) && AllHarmless(lines)
    ensures forall c :: c in Lined(eol, lines) ==> !Unsafe(c) && c != BOM && (HarmlessChar(c) || c in eol)
  {
    if lines != [] {
      LinedSafe(eol, lines[1..]);
      assert lines[0] in lines;
      assert forall l :: l in lines[1..] ==> l in lines;
    }
  }

  lemma {:induction false} UnlinedLine(line: string, rest: string)
    requires Harmless(line)
    ensures Unlined(line + "\r\n" + rest) == line + Unlined(rest)
  {
    var t := line + "\r\n" + rest;
    if line == "" {
      assert t[2..] == rest;
    } else {
      UnlinedLine(line[1..], rest);
      assert t[1..] == line[1..] + "\r\n" + rest;
      assert t[0] == line[0];
    }
  }

  lemma {:induction false} LinedFits(lines: seq<string>)
    requires AllHarmless(lines)
    ensures Harmless(Unlined(Lined("\r\n", lines)))
  {
    if lines != [] {
      assert lines[0] in lines;
      assert forall l :: l in lines[1..] ==> l in lines;
      LinedFits(lines[1..]);
      UnlinedLine(lines[0], Lined("\r\n", lines[1..]));
    }
  }

  lemma NewlinesOk(eol: string, lines: seq<string>)
    requires Eol(eol) && AllHarmless(lines)
    ensures NewlinesFit(Lined(eol, lines), eol)
  {
    LinedSafe(eol, lines);
    LinedFits(lines);
  }

  // ---------------------------------------------------------------- shape

  /** The section starts with the start marker's line and ends with the end marker's. */
  lemma SectionShape(t: Text, r: Result, eol: string)
    requires Eol(eol)
    ensures var g := Lined(eol, SectionLines(t, r));
            StartsWith(g, START_MARKER + eol) && EndsWith(g, END_MARKER + eol) && !EndsWith(g, END_MARKER + eol + eol)
  {
    var middle := Lined(eol, MiddleLines(t, r));
    LinedOver(eol, [START_MARKER] + MiddleLines(t, r), [END_MARKER]);
    LinedOver(eol, [START_MARKER], MiddleLines(t, r));
    LinedOne(eol, START_MARKER);
    LinedOne(eol, END_MARKER);
    EndIsMarker();
    ShapeOf(START_MARKER + eol, middle, END_MARKER, eol);
  }

  lemma LinedOne(eol: string, line: string)
    ensures Lined(eol, [line]) == line + eol
  {
  }

  lemma ShapeOf(first: string, middle: string, marker: string, eol: string)
    requires Eol(eol) && MarkerLike(marker)
    ensures var g := first + middle + (marker + eol);
            StartsWith(g, first) && EndsWith(g, marker + eol) && !EndsWith(g, marker + eol + eol)
  {
    var g := first + middle + (marker + eol);
    var n := |g|;
    assert g[n - |marker + eol|..] == marker + eol;
    assert g[n - |eol| - 1] == '>';
    var long := marker + eol + eol;
    assert long[|long| - |eol| - 1] == eol[|eol| - 1];
    assert forall s: string :: |s| == |long| && s[|long| - |eol| - 1] != long[|long| - |eol| - 1] ==> s != long;
    if |long| <= n { assert g[n - |long|..][|long| - |eol| - 1] == g[n - |eol| - 1]; }
  }

  // ---------------------------------------------------------------- main results

  lemma GeneratedAgrees(t: Text, r: Result, eol: string)
    requires Eol(eol) && t.nfc(Lined(eol, SectionLines(t, r))) == Lined(eol, SectionLines(t, r))
    ensures GeneratedFits(t, Lined(eol, SectionLines(t, r)), eol) <==> MarkerFree(t, r)
  {
    SectionCounts(t, r, eol);
    NoneContains(Fields(t, r), START_MARKER);
    NoneContains(Fields(t, r), END_MARKER);
    LinesHarmless(t, r);
    LinedSafe(eol, SectionLines(t, r));
    NewlinesOk(eol, SectionLines(t, r));
    SectionShape(t, r, eol);
  }

  /** What the validator makes of an original, a separator and a generated part. */
  lemma AppendIs(t: Text, before: string, separator: string, g: string)
    requires ValidateOriginal(before).Accepted?
    requires var eol := ValidateOriginal(before).eol;
             separator == (if EndsWith(before, eol) then eol else eol + eol) && StartsWith(separator + g, separator + START_MARKER + eol)
    ensures var post := before + (separator + g);
            && post[..|before|] == before
            && (ValidAppend(t, post, |before|) <==> GeneratedFits(t, g, ValidateOriginal(before).eol))
  {
    var post := before + (separator + g);
    assert post[..|before|] == before && post[|before|..] == separator + g;
    assert (separator + g)[|separator|..] == g;
  }

  lemma AppendAgrees(t: Text, before: string, g: string)
    requires ValidateOriginal(before).Accepted? && StartsWith(g, START_MARKER + ValidateOriginal(before).eol)
    ensures var eol := ValidateOriginal(before).eol;
            var post := before + SeparatorOf(before, eol) + g;
            && post[..|before|] == before
            && (ValidAppend(t, post, |before|) <==> GeneratedFits(t, g, eol))
  {
    var eol := ValidateOriginal(before).eol;
    var separator := SeparatorOf(before, eol);
    SeparatorsAgree(before);
    StartsAfter(separator, START_MARKER + eol, g);
    Associate(separator, START_MARKER, eol);
    AppendIs(t, before, separator, g);
    Associate(before, separator, g);
  }

  lemma Associate(a: string, b: string, c: string)
    ensures a + (b + c) == a + b + c
  {
  }

  /** On an accepted original, a composition passes the validator exactly when no inert field
      holds marker text; either way its beginning is the original, unchanged. */
  lemma ComposerMeetsValidator(t: Text, before: string, r: Result)
    requires ValidateOriginal(before).Accepted?
    requires var g := Lined(ValidateOriginal(before).eol, SectionLines(t, r)); t.nfc(g) == g
    ensures var post := Composition(t, before, r, ValidateOriginal(before).eol);
            && post[..|before|] == before
            && (ValidAppend(t, post, |before|) <==> MarkerFree(t, r))
  {
    var eol := ValidateOriginal(before).eol;
    SectionShape(t, r, eol);
    GeneratedAgrees(t, r, eol);
    AppendAgrees(t, before, Lined(eol, SectionLines(t, r)));
  }

  lemma StartsAfter(s: string, m: string, g: string)
    requires StartsWith(g, m)
    ensures StartsWith(s + g, s + m)
  {
    assert (s + g)[..|s + m|] == s + g[..|m|];
  }

  /** A composition is never an acceptable original again. */
  lemma ComposedOnce(t: Text, before: string, r: Result)
    requires ValidateOriginal(before).Accepted?
    requires var g := Lined(ValidateOriginal(before).eol, SectionLines(t, r)); t.nfc(g) == g
    ensures ValidateOriginal(Composition(t, before, r, ValidateOriginal(before).eol)).Rejected?
  {
    var eol := ValidateOriginal(before).eol;
    var g := Lined(eol, SectionLines(t, r));
    var post := Composition(t, before, r, eol);
    SeparatorsAgree(before);
    SectionShape(t, r, eol);
    MarkerHasPrefix(g, eol);
    TailContains(before + SeparatorOf(before, eol), g, 5, MARKER_PREFIX);
  }

  lemma TailContains(a: string, g: string, k: nat, m: string)
    requires a != "" && k <= |g| && StartsWith(g[k..], m)
    ensures Contains(Body(a + g), m)
  {
    var text := Body(a + g);
    var at: nat := |text| - |g| + k;
    assert text[at..] == g[k..];
  }

  lemma MarkerHasPrefix(g: string, eol: string)
    requires StartsWith(g, START_MARKER + eol)
    ensures |g| >= 5 && StartsWith(g[5..], MARKER_PREFIX)
  {
    WordsAreInside();
    assert START_MARKER == "<!-- " + (MARKER_PREFIX + ":start -->");
    assert START_MARKER[5..] == MARKER_PREFIX + ":start -->";
    var n := |MARKER_PREFIX|;
    assert g[..|START_MARKER + eol|] == START_MARKER + eol;
    assert g[5..][..n] == (START_MARKER + eol)[5..][..n];
    assert (START_MARKER + eol)[5..][..n] == START_MARKER[5..][..n];
  }

  // ---------------------------------------------------------------- a composition that fails

  /** Text that normalisation and redaction leave alone. */
  const PLAIN: Text := Text(x => x, x => x)

  lemma {:induction false} EscapedSame(s: string)
    requires forall i :: 0 <= i < |s| ==> s[i] != '`' && s[i] != '\t' && s[i] != '\n'
    ensures Escaped(s) == s
  {
    if s != "" { EscapedSame(s[1..]); }
  }

  lemma CleanedSame(m: string)
    requires forall i :: 0 <= i < |m| ==> 32 <= m[i] as int < 127
    ensures Cleaned(m) == m
  {
    forall i | 0 <= i < |m| ensures Cleaned(m)[i] == m[i] {}
  }

  lemma MarkerPrints(m: string)
    requires MarkerLike(m)
    ensures forall i :: 0 <= i < |m| ==> 32 <= m[i] as int < 127 && m[i] != '`'
  {
  }

  /** A marker is inert already. */
  lemma MarkerInert(m: string)
    requires MarkerLike(m)
    ensures Inert(PLAIN, m) == m
  {
    MarkerPrints(m);
    CleanedSame(m);
    EscapedSame(m);
    assert Rstrip(m) == m && Lstrip(m) == m;
  }

  /** A task that reads like the start marker: the composer accepts it on every accepted
      original, and the validator refuses what it composes. */
  lemma MarkerTaskRefused(before: string)
    requires ValidateOriginal(before).Accepted?
    ensures var r := Result(START_MARKER, [Cited(1, "", "", 1, 1)], []);
            && r.citations != []
            && !ValidAppend(PLAIN, Composition(PLAIN, before, r, ValidateOriginal(before).eol), |before|)
  {
    var r := Result(START_MARKER, [Cited(1, "", "", 1, 1)], []);
    StartIsMarker();
    MarkerInert(START_MARKER);
    assert START_MARKER[0..] == START_MARKER && StartsWith(START_MARKER[0..], START_MARKER);
    assert Fields(PLAIN, r)[0] == START_MARKER;
    assert START_MARKER in Fields(PLAIN, r) && Contains(START_MARKER, START_MARKER);
    ComposerMeetsValidator(PLAIN, before, r);
  }
}
