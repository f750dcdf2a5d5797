/** Append-only proposals: the composer (`_compose`, `_section`, `_inert`) and the byte-level
    checks of the validator (`_validate`), over code points. A byte order mark is the code
    point U+FEFF, and sizes are UTF-8 sizes. */
module Composer {
  import opened Segments
  import opened BlockSegments
  import opened MarkdownLines
  import opened Markers

  const MAX_IMAGE: nat := 1_048_576
  const BOM: char := '\U{FEFF}'

  predicate Bidi(c: char) {
    var n := c as int;
    n == 0x061C || n == 0x200E || n == 0x200F || 0x202A <= n <= 0x202E || 0x2066 <= n <= 0x2069
  }

  predicate Unsafe(c: char) {
    Bidi(c) || (c as int < 32 && c != '\n' && c != '\r' && c != '\t') || 127 <= c as int <= 159
  }

  // ---------------------------------------------------------------- the original

  datatype Verdict = Accepted(eol: string) | Rejected(code: string)

  predicate BareReturn(t: string) {
    exists i :: 0 <= i < |t| && t[i] == '\r' && (i + 1 == |t| || t[i + 1] != '\n')
  }

  predicate HasPair(t: string) {
    exists i :: 0 <= i < |t| - 1 && t[i] == '\r' && t[i + 1] == '\n'
  }

  /** `text.replace("\r\n", "")` */
  function Unlined(t: string): string {
    if |t| < 2 then t else if t[0] == '\r' && t[1] == '\n' then Unlined(t[2..]) else [t[0]] + Unlined(t[1..])
  }

  function Body(data: string): string {
    if data != "" && data[0] == BOM then data[1..] else data
  }

  /** `_validate_original` on text that decodes. */
  function ValidateOriginal(data: string): Verdict {
    var text := Body(data);
    if Size(data) > MAX_IMAGE then Rejected("POST_IMAGE_LIMIT_EXCEEDED")
    else if exists i :: 0 < i < |data| && data[i] == BOM then Rejected("INVALID_BOM")
    else if Contains(text, MARKER_PREFIX) then Rejected("MANAGED_MARKER_PRESENT")
    else if exists i :: 0 <= i < |text| && Unsafe(text[i]) then Rejected("UNSAFE_ORIGINAL_TEXT")
    else if BareReturn(text) || (HasPair(text) && '\n' in Unlined(text)) then Rejected("MIXED_NEWLINES")
    else Accepted(if HasPair(text) then "\r\n" else "\n")
  }

  // ---------------------------------------------------------------- fields made inert

  function Cleaned(s: string): (r: string)
    ensures |r| == |s|
  {
    seq(|s|, i requires 0 <= i < |s| =>
      if Bidi(s[i]) || s[i] == BOM || (s[i] as int < 32 && s[i] != '\n' && s[i] != '\t') || 127 <= s[i] as int <= 159 then ' ' else s[i])
  }

  /** Backticks are escaped; tabs and line feeds become blanks. */
  function Escaped(s: string): string {
    if s == "" then ""
    else (if s[0] == '`' then "\\`" else if s[0] == '\t' || s[0] == '\n' then " " else [s[0]]) + Escaped(s[1..])
  }

  function Rstrip(s: string): string {
    if s != "" && White(s[|s| - 1]) then Rstrip(s[..|s| - 1]) else s
  }

  /** Normalisation and the redaction of local paths are parameters. */
  datatype Text = Text(nfc: string -> string, redact: string -> string)

  /** `_inert` */
  function Inert(t: Text, value: string): string {
    Lstrip(Rstrip(Escaped(Cleaned(t.redact(t.nfc(value))))))
  }

  predicate HarmlessChar(c: char) {
    !Unsafe(c) && c != BOM && c != '\r' && c != '\n'
  }

  predicate Harmless(s: string) {
    forall i :: 0 <= i < |s| ==> HarmlessChar(s[i])
  }

  lemma {:induction false} EscapedHarmless(s: string)
    requires forall i :: 0 <= i < |s| ==> HarmlessChar(s[i]) || s[i] == '\n'
    ensures Harmless(Escaped(s))
  {
    if s != "" { EscapedHarmless(s[1..]); }
  }

  lemma {:induction false} StripHarmless(s: string)
    requires Harmless(s)
    ensures Harmless(Rstrip(s)) && Harmless(Lstrip(s))
  {
    if s != "" {
      StripHarmless(s[..|s| - 1]);
      StripHarmless(s[1..]);
    }
  }

  /** Whatever the field said, nothing in its inert form can break a line or be refused. */
  lemma InertHarmless(t: Text, value: string)
    ensures Harmless(Inert(t, value))
  {
    var cleaned := Cleaned(t.redact(t.nfc(value)));
    EscapedHarmless(cleaned);
    StripHarmless(Escaped(cleaned));
    StripHarmless(Rstrip(Escaped(cleaned)));
  }

  // ---------------------------------------------------------------- the section

  datatype Cited = Cited(id: nat, preview: string, path: string, first: nat, last: nat)

  datatype Result = Result(task: string, citations: seq<Cited>, constraints: seq<(string, string)>)

  function Digit(n: nat): char
    requires n < 10
  {
    '0' + n as char
  }

  function Decimal(n: nat): string {
    if n < 10 then [Digit(n)] else Decimal(n / 10) + [Digit(n % 10)]
  }

  /** An identifier's number, with three digits at least. */
  function Padded(n: nat): string {
    if n < 10 then "00" + Decimal(n) else if n < 100 then "0" + Decimal(n) else Decimal(n)
  }

  function CitationLine(t: Text, c: Cited): string {
    "- [S" + Padded(c.id) + "] " + Inert(t, c.preview) + " (" + Inert(t, c.path)
    + (", lines " + Decimal(c.first) + "-" + Decimal(c.last) + ")")
  }

  function ConstraintLine(t: Text, c: (string, string)): string {
    "- " + Inert(t, c.0) + ": " + Inert(t, c.1)
  }

  function CitationLines(t: Text, c: seq<Cited>): (l: seq<string>)
    ensures |l| == |c|
  {
    seq(|c|, i requires 0 <= i < |c| => CitationLine(t, c[i]))
  }

  function ConstraintLines(t: Text, c: seq<(string, string)>): (l: seq<string>)
    ensures |l| == |c|
  {
    seq(|c|, i requires 0 <= i < |c| => ConstraintLine(t, c[i]))
  }

  // Joined from short literals, as in `Markers`.
  const TITLE: string := "## Task-driven " + "update proposal"
  const DECLARED: string := "### Declared constraints"
  const GROUNDED: string := "### Source-" + "grounded statements"

  function HeadLines(t: Text, r: Result): seq<string> {
    [TITLE, "", "**Task:** " + Inert(t, r.task), "", GROUNDED]
  }

  function DeclaredLines(t: Text, c: seq<(string, string)>): seq<string> {
    if c == [] then [] else ["", DECLARED] + ConstraintLines(t, c)
  }

  /** The lines between the two markers. */
  function MiddleLines(t: Text, r: Result): seq<string> {
    HeadLines(t, r) + CitationLines(t, r.citations) + DeclaredLines(t, r.constraints)
  }

  /** `eol.join(lines)` */
  function JoinedBy(eol: string, lines: seq<string>): string {
    if lines == [] then "" else if |lines| == 1 then lines[0] else lines[0] + eol + JoinedBy(eol, lines[1..])
  }

  /** Every line with its end. */
  function Lined(eol: string, lines: seq<string>): string {
    if lines == [] then "" else lines[0] + eol + Lined(eol, lines[1..])
  }

  lemma {:induction false} JoinedIsLined(eol: string, lines: seq<string>)
    ensures JoinedBy(eol, lines + [""]) == Lined(eol, lines)
  {
    if lines != [] {
      JoinedIsLined(eol, lines[1..]);
      assert (lines + [""])[1..] == lines[1..] + [""];
    }
  }

  lemma {:induction false} LinedOver(eol: string, a: seq<string>, b: seq<string>)
    ensures Lined(eol, a + b) == Lined(eol, a) + Lined(eol, b)
  {
    if a == [] {
      assert a + b == b;
    } else {
      LinedOver(eol, a[1..], b);
      assert (a + b)[1..] == a[1..] + b;
    }
  }

  function SectionLines(t: Text, r: Result): seq<string> {
    [START_MARKER] + MiddleLines(t, r) + [END_MARKER]
  }

  datatype Composed = Image(text: string) | Refused(code: string)

  lemma NextCitation(t: Text, c: seq<Cited>, i: nat)
    requires i < |c|
    ensures CitationLines(t, c)[..i + 1] == CitationLines(t, c)[..i] + [CitationLine(t, c[i])]
  {
  }

  method AddCitations(t: Text, before: seq<string>, c: seq<Cited>) returns (lines: seq<string>)
    ensures lines == before + CitationLines(t, c)
  {
    lines := before;
    for i := 0 to |c|
      invariant lines == before + CitationLines(t, c)[..i]
    {
      NextCitation(t, c, i);
      lines := lines + [CitationLine(t, c[i])];
    }
    assert CitationLines(t, c)[..|c|] == CitationLines(t, c);
  }

  method AddConstraints(t: Text, before: seq<string>, c: seq<(string, string)>) returns (lines: seq<string>)
    ensures lines == before + DeclaredLines(t, c)
  {
    lines := before;
    if c != [] {
      lines := lines + ["", DECLARED];
      ghost var head := lines;
      for i := 0 to |c|
        invariant lines == head + ConstraintLines(t, c)[..i]
      {
        lines := lines + [ConstraintLine(t, c[i])];
      }
      assert ConstraintLines(t, c)[..|c|] == ConstraintLines(t, c);
    }
  }

  lemma Regroup(a: seq<string>, b: seq<string>, c: seq<string>, d: seq<string>)
    ensures a + b + c + d == a + (b + c + d)
  {
  }

  /** `_section`; a result without citations is refused. */
  method Section(t: Text, r: Result, eol: string) returns (text: string, ok: bool)
    ensures ok == (r.citations != [])
    ensures ok ==> text == t.nfc(Lined(eol, SectionLines(t, r)))
  {
    if r.citations == [] { return "", false; }
    var lines := AddCitations(t, [START_MARKER] + HeadLines(t, r), r.citations);
    lines := AddConstraints(t, lines, r.constraints);
    Regroup([START_MARKER], HeadLines(t, r), CitationLines(t, r.citations), DeclaredLines(t, r.constraints));
    JoinedIsLined(eol, SectionLines(t, r));
    lines := lines + [END_MARKER] + [""];
    return t.nfc(JoinedBy(eol, lines)), true;
  }

  /** The composer's separator. */
  function SeparatorOf(before: string, eol: string): string {
    if before != "" && (before[|before| - 1] == '\n' || before[|before| - 1] == '\r') then eol else eol + eol
  }

  function Composition(t: Text, before: string, r: Result, eol: string): string {
    before + SeparatorOf(before, eol) + t.nfc(Lined(eol, SectionLines(t, r)))
  }

  /** `_compose` */
  method Compose(t: Text, before: string, r: Result) returns (c: Composed)
    ensures ValidateOriginal(before).Rejected? ==> c == Refused(ValidateOriginal(before).code)
    ensures ValidateOriginal(before).Accepted? && r.citations == [] ==> c == Refused("PROPOSAL_NOT_GROUNDED")
    ensures ValidateOriginal(before).Accepted? && r.citations != [] ==>
              var post := Composition(t, before, r, ValidateOriginal(before).eol);
              c == if Size(post) > MAX_IMAGE then Refused("POST_IMAGE_LIMIT_EXCEEDED") else Image(post)
  {
    var v := ValidateOriginal(before);
    if v.Rejected? { return Refused(v.code); }
    var appended, ok := Section(t, r, v.eol);
    if !ok { return Refused("PROPOSAL_NOT_GROUNDED"); }
    var post := before + SeparatorOf(before, v.eol) + appended;
    if Size(post) > MAX_IMAGE { return Refused("POST_IMAGE_LIMIT_EXCEEDED"); }
    return Image(post);
  }

  // ---------------------------------------------------------------- the validator

  predicate NewlinesFit(generated: string, eol: string) {
    && (eol == "\r\n" ==> forall c :: c in Unlined(generated) ==> c != '\r' && c != '\n')
    && (eol == "\n" ==> '\r' !in generated)
  }

  predicate GeneratedFits(t: Text, generated: string, eol: string) {
    && Markers.Count(generated, START_MARKER) == 1 && Markers.Count(generated, END_MARKER) == 1
    && EndsWith(generated, END_MARKER + eol) && !EndsWith(generated, END_MARKER + eol + eol)
    && BOM !in generated && t.nfc(generated) == generated && NewlinesFit(generated, eol)
    && forall c :: c in generated ==> !Unsafe(c)
  }

  /** `_validate`: its checks on the original part and the appended part of the post-image. */
  predicate ValidAppend(t: Text, post: string, offset: nat) {
    offset <= |post| &&
    var before, appended := post[..offset], post[offset..];
    var v := ValidateOriginal(before);
    v.Accepted? &&
    var separator := if EndsWith(before, v.eol) then v.eol else v.eol + v.eol;
    && StartsWith(appended, separator + START_MARKER + v.eol)
    && GeneratedFits(t, appended[|separator|..], v.eol)
  }
}
