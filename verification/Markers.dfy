/** Counting marker text in composed lines, and the newline arithmetic of append-only proposals. */
module Markers {
  // The prefix is joined from two short literals so that the verifier sees each one's characters.
  const PREFIX_HEAD: string := "projecttown:managed-"
  const PREFIX_TAIL: string := "readme-section:v1"
  const MARKER_PREFIX: string := PREFIX_HEAD + PREFIX_TAIL
  const START_MARKER: string := "<!-- " + MARKER_PREFIX + ":start -->"
  const END_MARKER: string := "<!-- " + MARKER_PREFIX + ":end -->"

  predicate StartsWith(t: string, m: string) {
    |m| <= |t| && t[..|m|] == m
  }

  predicate EndsWith(t: string, m: string) {
    |m| <= |t| && t[|t| - |m|..] == m
  }

  predicate Contains(t: string, m: string) {
    exists i :: 0 <= i <= |t| && StartsWith(t[i..], m)
  }

  /** Python's `str.count`: occurrences that do not overlap. */
  function Count(t: string, m: string): nat
    requires m != ""
  {
    if |t| < |m| then 0
    else if StartsWith(t, m) then 1 + Count(t[|m|..], m)
    else Count(t[1..], m)
  }

  lemma {:induction false} CountZero(t: string, m: string)
    requires m != ""
    ensures Count(t, m) == 0 <==> !Contains(t, m)
  {
    if |t| >= |m| {
      assert t[0..] == t;
      if !StartsWith(t, m) {
        CountZero(t[1..], m);
        if Contains(t, m) {
          var i :| 0 <= i <= |t| && StartsWith(t[i..], m);
          assert t[1..][i - 1..] == t[i..];
        }
        if Contains(t[1..], m) {
          var i :| 0 <= i <= |t[1..]| && StartsWith(t[1..][i..], m);
          assert t[1..][i..] == t[i + 1..];
        }
      }
    }
  }

  /** The characters that a marker is made of, after its opening bracket. */
  predicate Inside(c: char) {
    c == '!' || c == '-' || c == ' ' || c == ':' || c == '>' || 'a' <= c <= 'z' || '0' <= c <= '9'
  }

  /** An opening bracket, then no other one; no colon followed by a blank; a closing bracket at the end. */
  predicate MarkerLike(m: string) {
    && |m| > 1 && m[0] == '<' && m[|m| - 1] == '>'
    && (forall i :: 0 < i < |m| ==> Inside(m[i]))
    && (forall i :: 0 < i < |m| - 1 && m[i] == ':' ==> m[i + 1] != ' ')
  }

  lemma WordsAreInside()
    ensures |PREFIX_HEAD| == 20 && |PREFIX_TAIL| == 17
    ensures forall i :: 0 <= i < 20 ==> Inside(PREFIX_HEAD[i])
    ensures forall i :: 0 <= i < 17 ==> Inside(PREFIX_TAIL[i])
    ensures forall i :: 0 <= i < 20 && PREFIX_HEAD[i] == ':' ==> i < 19 && PREFIX_HEAD[i + 1] == 'm'
    ensures forall i :: 0 <= i < 17 && PREFIX_TAIL[i] == ':' ==> i < 16 && PREFIX_TAIL[i + 1] == 'v'
  {
  }

  lemma StartIsMarker()
    ensures MarkerLike(START_MARKER)
  {
    WordsAreInside();
  }

  lemma EndIsMarker()
    ensures MarkerLike(END_MARKER)
  {
    WordsAreInside();
  }

  /** Text that no marker can run into: its first character is in no marker, or its first two
      follow one another in no marker; and no marker starts in it. */
  predicate Separates(s: string) {
    && s != ""
    && (!Inside(s[0]) || (|s| > 1 && s[0] == ' ' && !Inside(s[1])) || (|s| > 1 && s[0] == ':' && s[1] == ' '))
    && NoOpening(s)
  }

  predicate NoOpening(s: string) {
    forall i :: 0 <= i < |s| ==> s[i] != '<'
  }

  /** A marker cannot begin before a separator and end inside or after it. */
  lemma NoStraddle(x: string, s: string, z: string, m: string)
    requires MarkerLike(m) && Separates(s) && 0 < |x| < |m|
    ensures !StartsWith(x + s + z, m)
  {
    var t := x + s + z;
    assert t[|x|] == s[0];
    if |s| > 1 { assert t[|x| + 1] == s[1]; }
    assert forall k :: 0 <= k < |m| && k < |t| && t[k] != m[k] ==> !StartsWith(t, m);
  }

  lemma {:induction false} CountSkip(p: string, z: string, m: string)
    requires MarkerLike(m) && NoOpening(p)
    ensures Count(p + z, m) == Count(z, m)
  {
    if p == "" {
      assert p + z == z;
    } else {
      CountSkip(p[1..], z, m);
      assert (p + z)[1..] == p[1..] + z;
      assert (p + z)[0] == p[0];
      if |p + z| < |m| { CountShort(z, m); }
    }
  }

  /** Markers are counted separately on the two sides of a separator. */
  lemma {:induction false} CountSplit(x: string, s: string, z: string, m: string)
    requires MarkerLike(m) && Separates(s)
    ensures Count(x + s + z, m) == Count(x, m) + Count(z, m)
  {
    var t := x + s + z;
    if x == "" {
      assert t == s + z;
      CountSkip(s, z, m);
    } else if |x| >= |m| {
      assert StartsWith(t, m) == StartsWith(x, m) by { assert t[..|m|] == x[..|m|]; }
      var n := if StartsWith(x, m) then |m| else 1;
      assert t[n..] == x[n..] + s + z;
      CountSplit(x[n..], s, z, m);
    } else {
      NoStraddle(x, s, z, m);
      assert t[1..] == x[1..] + s + z;
      CountSplit(x[1..], s, z, m);
      if |t| < |m| { CountShort(z, m); }
    }
  }

  lemma CountShort(t: string, m: string)
    requires m != "" && |t| < |m|
    ensures Count(t, m) == 0
  {
  }
}
