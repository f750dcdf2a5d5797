/** What a reader can get back from the composed section: the numbers, the preview and the path of
    each citation. */
module ComposerReading {
  import opened MarkdownLines
  import opened Composer
  import opened ComposerAgreement

  predicate IsDigit(c: char) { '0' <= c <= '9' }

  predicate Digits(s: string) {
    forall i :: 0 <= i < |s| ==> IsDigit(s[i])
  }

  function Value(s: string): nat
    requires Digits(s)
  {
    if s == "" then 0 else 10 * Value(s[..|s| - 1]) + (s[|s| - 1] - '0') as nat
  }

  /** A decimal numeral of `n`, perhaps with leading zeros. */
  predicate Numeral(s: string, n: nat) {
    s != "" && Digits(s) && Value(s) == n
  }

  lemma {:induction false} DecimalIs(n: nat)
    ensures Numeral(Decimal(n), n)
  {
    if n >= 10 {
      DecimalIs(n / 10);
      assert Decimal(n)[..|Decimal(n)| - 1] == Decimal(n / 10);
    } else {
      assert Value([]) == 0 && Decimal(n)[..0] == [];
    }
  }

  lemma {:induction false} ZeroBefore(s: string)
    requires s != "" && Digits(s)
    ensures Digits("0" + s) && Value("0" + s) == Value(s)
  {
    var z := "0" + s;
    assert z[..|z| - 1] == "0" + s[..|s| - 1];
    if |s| > 1 { ZeroBefore(s[..|s| - 1]); } else { assert Value("0") == 0 by { assert "0"[..0] == ""; } assert "0" + s[..0] == "0"; }
  }

  lemma PaddedIs(n: nat)
    ensures Numeral(Padded(n), n) && |Padded(n)| >= 3
  {
    DecimalIs(n);
    ZeroBefore(Decimal(n));
    ZeroBefore("0" + Decimal(n));
    assert "00" + Decimal(n) == "0" + ("0" + Decimal(n));
    if n >= 10 { assert |Decimal(n / 10)| >= 1; }
    if n >= 100 { assert |Decimal(n / 10 / 10)| >= 1; }
  }

  // ---------------------------------------------------------------- one line, one reading

  function Leading(s: string): string {
    if s != "" && IsDigit(s[0]) then [s[0]] + Leading(s[1..]) else ""
  }

  function Trailing(s: string): string {
    if s != "" && IsDigit(s[|s| - 1]) then Trailing(s[..|s| - 1]) + [s[|s| - 1]] else ""
  }

  lemma {:induction false} LeadingIs(d: string, rest: string)
    requires Digits(d) && rest != "" && !IsDigit(rest[0])
    ensures Leading(d + rest) == d
  {
    if d == "" {
      assert d + rest == rest;
    } else {
      assert (d + rest)[1..] == d[1..] + rest;
      LeadingIs(d[1..], rest);
    }
  }

  lemma {:induction false} TrailingIs(front: string, d: string)
    requires Digits(d) && front != "" && !IsDigit(front[|front| - 1])
    ensures Trailing(front + d) == d
  {
    if d == "" {
      assert front + d == front;
    } else {
      assert (front + d)[..|front + d| - 1] == front + d[..|d| - 1];
      TrailingIs(front, d[..|d| - 1]);
    }
  }

  function Layout(id: string, text: string, first: string, last: string): string {
    "- [S" + id + ("] " + text + ", lines ") + first + "-" + last + ")"
  }

  /** The line can be read as a citation with this number, text and lines. */
  ghost predicate Says(line: string, id: nat, text: string, first: nat, last: nat) {
    exists i, f, l :: Numeral(i, id) && Numeral(f, first) && Numeral(l, last) && line == Layout(i, text, f, l)
  }

  /** Everything that is laid out can be found again. */
  lemma LayoutParts(line: string, i: string, text: string, f: string, l: string)
    requires Digits(i) && Digits(f) && Digits(l) && line == Layout(i, text, f, l)
    ensures 4 <= |line| && i == Leading(line[4..]) && l == Trailing(line[..|line| - 1])
    ensures |l| + 2 <= |line| && f == Trailing(line[..|line| - 2 - |l|])
    ensures |i| + |f| + |l| + 16 <= |line| && text == line[|i| + 6..|line| - |l| - |f| - 10]
  {
    var middle := "] " + text + ", lines ";
    assert line[4..] == i + (middle + f + "-" + l + ")");
    LeadingIs(i, middle + f + "-" + l + ")");
    assert line[..|line| - 1] == ("- [S" + i + middle + f + "-") + l;
    TrailingIs("- [S" + i + middle + f + "-", l);
    assert line[..|line| - 2 - |l|] == ("- [S" + i + middle) + f;
    TrailingIs("- [S" + i + middle, f);
  }

  lemma SaysParts(line: string, id: nat, text: string, first: nat, last: nat) returns (i: string, f: string, l: string)
    requires Says(line, id, text, first, last)
    ensures Numeral(i, id) && Numeral(f, first) && Numeral(l, last)
    ensures 4 <= |line| && i == Leading(line[4..]) && l == Trailing(line[..|line| - 1])
    ensures |l| + 2 <= |line| && f == Trailing(line[..|line| - 2 - |l|])
    ensures |i| + |f| + |l| + 16 <= |line| && text == line[|i| + 6..|line| - |l| - |f| - 10]
  {
    i, f, l :| Numeral(i, id) && Numeral(f, first) && Numeral(l, last) && line == Layout(i, text, f, l);
    LayoutParts(line, i, text, f, l);
  }

  lemma OneReading(line: string, id: nat, text: string, first: nat, last: nat, id': nat, text': string, first': nat, last': nat)
    requires Says(line, id, text, first, last) && Says(line, id', text', first', last')
    ensures id == id' && text == text' && first == first' && last == last'
  {
    var i, f, l := SaysParts(line, id, text, first, last);
    var i', f', l' := SaysParts(line, id', text', first', last');
    assert i == i' && l == l';
    assert f == f';
  }

  lemma CitationLineSays(t: Text, c: Cited, shown: string)
    requires shown == Inert(t, c.preview) + " (" + Inert(t, c.path)
    ensures Says(CitationLine(t, c), c.id, shown, c.first, c.last)
  {
    PaddedIs(c.id);
    DecimalIs(c.first);
    DecimalIs(c.last);
    CitationLineIs(t, c, shown);
  }

  lemma CitationLineIs(t: Text, c: Cited, shown: string)
    requires shown == Inert(t, c.preview) + " (" + Inert(t, c.path)
    ensures CitationLine(t, c) == Layout(Padded(c.id), shown, Decimal(c.first), Decimal(c.last))
  {
  }

  /** The line of a citation has exactly one reading: its own number and lines, and its preview and
      path as they are shown. */
  lemma CitationLineTells(t: Text, c: Cited, id: nat, text: string, first: nat, last: nat)
    ensures Says(CitationLine(t, c), id, text, first, last) <==>
              id == c.id && text == Inert(t, c.preview) + " (" + Inert(t, c.path) && first == c.first && last == c.last
  {
    var shown := Inert(t, c.preview) + " (" + Inert(t, c.path);
    CitationLineSays(t, c, shown);
    if Says(CitationLine(t, c), id, text, first, last) {
      OneReading(CitationLine(t, c), c.id, shown, c.first, c.last, id, text, first, last);
    }
  }

  lemma CitationAt(t: Text, r: Result, k: nat)
    requires k < |r.citations|
    ensures 6 + k < |SectionLines(t, r)| && SectionLines(t, r)[6 + k] == CitationLine(t, r.citations[k])
  {
  }

  /** The section has the citations in order, each on a line that says just what was cited. */
  lemma SectionTells(t: Text, r: Result, k: nat, id: nat, text: string, first: nat, last: nat)
    requires k < |r.citations|
    ensures 6 + k < |SectionLines(t, r)|
    ensures var c := r.citations[k];
            Says(SectionLines(t, r)[6 + k], id, text, first, last) <==>
              id == c.id && text == Inert(t, c.preview) + " (" + Inert(t, c.path) && first == c.first && last == c.last
  {
    CitationAt(t, r, k);
    CitationLineTells(t, r.citations[k], id, text, first, last);
  }

  // ---------------------------------------------------------------- what survives being made inert

  /** Nothing in the text calls for cleaning, escaping or stripping. */
  predicate Plain(s: string) {
    && Harmless(s) && (forall i :: 0 <= i < |s| ==> s[i] != '`' && s[i] != '\t')
    && (s != "" ==> !White(s[0]) && !White(s[|s| - 1]))
  }

  /** A plain text that normalisation and redaction leave alone is shown as it is. */
  lemma PlainSurvives(t: Text, s: string)
    requires Plain(s) && t.redact(t.nfc(s)) == s
    ensures Inert(t, s) == s
  {
    assert Cleaned(s) == s;
    EscapedSame(s);
  }
}
