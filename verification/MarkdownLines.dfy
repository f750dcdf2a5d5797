/** White space, and the kinds of Markdown lines at which a block begins or that stand alone. */
module MarkdownLines {
  /** Python's `str.isspace`, which is also `\s` of its regular expressions. */
  predicate White(c: char) {
    var n := c as int;
    || 0x09 <= n <= 0x0D || 0x1C <= n <= 0x20 || n == 0x85 || n == 0xA0 || n == 0x1680
    || 0x2000 <= n <= 0x200A || n == 0x2028 || n == 0x2029 || n == 0x202F || n == 0x205F || n == 0x3000
  }

  function Lstrip(s: string): string {
    if s != "" && White(s[0]) then Lstrip(s[1..]) else s
  }

  /** A heading or a blank line starts a new block. */
  predicate Opens(line: string) {
    var s := Lstrip(line);
    s == "" || s[0] == '#'
  }

  /** Digits, a full stop or bracket at `k`, and white space. */
  predicate Marks(s: string, k: nat, digit: char -> bool)
    requires k + 1 < |s|
  {
    (s[k] == '.' || s[k] == ')') && White(s[k + 1]) && forall j :: 0 <= j < k ==> digit(s[j])
  }

  /** A bullet, a numbered item or a table row. `digit` is Unicode's decimal digit class. */
  predicate Standalone(line: string, digit: char -> bool) {
    var s := Lstrip(line);
    && s != ""
    && (|| s[0] == '|'
        || ((s[0] == '-' || s[0] == '*' || s[0] == '+') && |s| > 1 && White(s[1]))
        || exists k :: 1 <= k < |s| - 1 && Marks(s, k, digit))
  }

  // ---------------------------------------------------------------- what the lines look like

  predicate Blank(line: string) {
    forall i :: 0 <= i < |line| ==> White(line[i])
  }

  /** The first character that is not white space. */
  predicate FirstInk(line: string, p: nat) {
    p < |line| && !White(line[p]) && forall i :: 0 <= i < p ==> White(line[i])
  }

  /** A blank line, or one whose first ink is a hash. */
  ghost predicate StartsBlock(line: string) {
    Blank(line) || exists p: nat :: FirstInk(line, p) && line[p] == '#'
  }

  /** From `p` on: a table row; a bullet and white space; or digits, a full stop or bracket, and white space. */
  ghost predicate ItemFrom(line: string, p: nat, digit: char -> bool)
    requires p < |line|
  {
    || line[p] == '|'
    || (line[p] in {'-', '*', '+'} && p + 1 < |line| && White(line[p + 1]))
    || exists q: nat :: p < q && NumberTo(line, p, q, digit)
  }

  predicate NumberTo(line: string, p: nat, q: nat, digit: char -> bool) {
    p <= q && q + 1 < |line| && line[q] in {'.', ')'} && White(line[q + 1]) && forall j :: p <= j < q ==> digit(line[j])
  }

  ghost predicate StandsAlone(line: string, digit: char -> bool) {
    exists p: nat :: FirstInk(line, p) && ItemFrom(line, p, digit)
  }

  lemma {:induction false} LstripIs(line: string) returns (p: nat)
    ensures p <= |line| && Lstrip(line) == line[p..] && forall i :: 0 <= i < p ==> White(line[i])
    ensures p < |line| ==> FirstInk(line, p)
  {
    if line != "" && White(line[0]) {
      var q := LstripIs(line[1..]);
      p := q + 1;
      assert line[1..][q..] == line[p..];
      forall i | 0 <= i < p ensures White(line[i]) {
        if i > 0 { assert line[1..][i - 1] == line[i]; }
      }
    } else {
      p := 0;
    }
  }

  lemma OneInk(line: string, p: nat, q: nat)
    requires FirstInk(line, p) && FirstInk(line, q)
    ensures p == q
  {
  }

  lemma OpensMeans(line: string)
    ensures Opens(line) <==> StartsBlock(line)
  {
    var p := LstripIs(line);
    if p < |line| {
      assert !Blank(line) && line[p..][0] == line[p];
      forall q: nat | FirstInk(line, q) ensures q == p { OneInk(line, p, q); }
      assert Opens(line) <==> line[p] == '#';
    } else {
      assert Blank(line) && Lstrip(line) == "";
    }
  }

  lemma NumberMeans(line: string, p: nat, digit: char -> bool)
    requires p < |line|
    ensures (exists k :: 1 <= k < |line[p..]| - 1 && Marks(line[p..], k, digit)) <==> exists q: nat :: p < q && NumberTo(line, p, q, digit)
  {
    var s := line[p..];
    if k :| 1 <= k < |s| - 1 && Marks(s, k, digit) {
      forall j | p <= j < p + k ensures digit(line[j]) { assert s[j - p] == line[j]; }
      assert NumberTo(line, p, p + k, digit);
    }
    if q: nat :| p < q && NumberTo(line, p, q, digit) {
      assert Marks(s, q - p, digit);
    }
  }

  lemma StandaloneMeans(line: string, digit: char -> bool)
    ensures Standalone(line, digit) <==> StandsAlone(line, digit)
  {
    var p := LstripIs(line);
    if p < |line| {
      forall q: nat | FirstInk(line, q) ensures q == p { OneInk(line, p, q); }
      NumberMeans(line, p, digit);
      assert Standalone(line, digit) <==> ItemFrom(line, p, digit);
    }
  }
}
