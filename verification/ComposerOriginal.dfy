/** Which originals the composer accepts, and that a composition keeps their one kind of line end. */
module ComposerOriginal {
  import opened MarkdownLines
  import opened Segments
  import opened Markers
  import opened Composer
  import opened ComposerAgreement

  /** Every line ends with `eol` and there is no other carriage return or line feed. */
  predicate Uniform(t: string, eol: string) {
    if eol == "\n" then '\r' !in t
    else
      && (forall i :: 0 <= i < |t| && t[i] == '\r' ==> i + 1 < |t| && t[i + 1] == '\n')
      && (forall i :: 0 <= i < |t| && t[i] == '\n' ==> 0 < i && t[i - 1] == '\r')
  }

  /** Without the pairs a line feed is left exactly when some line feed has no return before it. */
  lemma {:induction false} UnlinedFeed(t: string)
    ensures '\n' in Unlined(t) <==> exists i :: 0 <= i < |t| && t[i] == '\n' && (i == 0 || t[i - 1] != '\r')
  {
    if |t| >= 2 {
      var cut: nat := if t[0] == '\r' && t[1] == '\n' then 2 else 1;
      var rest := t[cut..];
      UnlinedFeed(rest);
      forall i | 0 <= i < |rest| && rest[i] == '\n' && (i == 0 || rest[i - 1] != '\r')
        ensures t[i + cut] == '\n' && t[i + cut - 1] != '\r'
      {
      }
      forall i | cut <= i < |t| && t[i] == '\n' && t[i - 1] != '\r'
        ensures rest[i - cut] == '\n' && (i == cut || rest[i - cut - 1] != '\r')
      {
      }
      FeedsMove(t, rest, cut);
    }
  }

  lemma FeedsMove(t: string, rest: string, cut: nat)
    requires 0 < cut <= 2 <= |t| && rest == t[cut..] && (cut == 2 ==> t[0] == '\r' && t[1] == '\n') && (cut == 1 ==> t[0] != '\r' || t[1] != '\n')
    ensures (exists i :: 0 <= i < |t| && t[i] == '\n' && (i == 0 || t[i - 1] != '\r')) <==>
              (cut == 1 && t[0] == '\n') || exists i :: 0 <= i < |rest| && rest[i] == '\n' && (i == 0 || rest[i - 1] != '\r')
  {
    if i :| 0 <= i < |t| && t[i] == '\n' && (i == 0 || t[i - 1] != '\r') {
      if i >= cut { assert rest[i - cut] == '\n' && (i == cut || rest[i - cut - 1] == t[i - 1]); }
    }
    if i :| 0 <= i < |rest| && rest[i] == '\n' && (i == 0 || rest[i - 1] != '\r') {
      assert t[i + cut] == '\n' && t[i + cut - 1] != '\r';
    }
  }

  /** The three tests on line ends say that the text is uniform, with returns exactly for the pair. */
  lemma LineEndsMean(t: string)
    ensures !BareReturn(t) && !(HasPair(t) && '\n' in Unlined(t)) <==>
              if '\r' in t then Uniform(t, "\r\n") else Uniform(t, "\n")
    ensures !BareReturn(t) ==> (HasPair(t) <==> '\r' in t)
  {
    UnlinedFeed(t);
    if i :| 0 <= i < |t| && t[i] == '\r' {
      assert "\r\n" != "\n";
      assert !BareReturn(t) ==> t[i + 1] == '\n';
    }
  }

  /** An original is accepted exactly when it is small enough, has a byte order mark at most in
      front, and after it no marker text, no unsafe character, and one kind of line end; that kind is
      then the composer's. */
  lemma AcceptedExactly(data: string, eol: string)
    ensures ValidateOriginal(data) == Accepted(eol) <==>
              && Size(data) <= MAX_IMAGE
              && (forall i :: 0 < i < |data| ==> data[i] != BOM)
              && !Contains(Body(data), MARKER_PREFIX)
              && (forall i :: 0 <= i < |Body(data)| ==> !Unsafe(Body(data)[i]))
              && Uniform(Body(data), eol) && eol == if '\r' in Body(data) then "\r\n" else "\n"
  {
    LineEndsMean(Body(data));
  }

  lemma UniformOver(a: string, b: string, eol: string)
    requires Uniform(a, eol) && Uniform(b, eol)
    ensures Uniform(a + b, eol)
  {
    var t := a + b;
    if eol != "\n" {
      forall i | 0 <= i < |t| && t[i] == '\r' ensures i + 1 < |t| && t[i + 1] == '\n' {
        if i < |a| { assert a[i] == '\r'; } else { assert b[i - |a|] == '\r' && t[i + 1] == b[i + 1 - |a|]; }
      }
      forall i | 0 <= i < |t| && t[i] == '\n' ensures 0 < i && t[i - 1] == '\r' {
        if i < |a| { assert a[i] == '\n'; } else { assert b[i - |a|] == '\n' && t[i - 1] == b[i - 1 - |a|]; }
      }
    }
  }

  lemma EolUniform(eol: string)
    requires Eol(eol)
    ensures Uniform(eol, eol) && Uniform(eol + eol, eol)
  {
    UniformOver(eol, eol, eol);
  }

  lemma {:induction false} LinedUniform(eol: string, lines: seq<string>)
    requires Eol(eol) && AllHarmless(lines)
    ensures Uniform(Lined(eol, lines), eol)
  {
    if lines != [] {
      assert lines[0] in lines && forall l :: l in lines[1..] ==> l in lines;
      LinedUniform(eol, lines[1..]);
      assert Uniform(lines[0], eol);
      EolUniform(eol);
      UniformOver(lines[0], eol, eol);
      UniformOver(lines[0] + eol, Lined(eol, lines[1..]), eol);
    }
  }

  lemma BodyOver(before: string, rest: string)
    requires rest != "" && rest[0] != BOM
    ensures Body(before + rest) == Body(before) + rest
  {
    if before == "" { assert before + rest == rest; }
  }

  /** A composition on an accepted original has the original's line ends throughout. */
  lemma CompositionUniform(t: Text, before: string, r: Result)
    requires ValidateOriginal(before).Accepted?
    requires var g := Lined(ValidateOriginal(before).eol, SectionLines(t, r)); t.nfc(g) == g
    ensures var eol := ValidateOriginal(before).eol;
            Uniform(Body(Composition(t, before, r, eol)), eol) && '\n' in Composition(t, before, r, eol)
  {
    var eol := ValidateOriginal(before).eol;
    var separator, g := SeparatorOf(before, eol), Lined(eol, SectionLines(t, r));
    AcceptedExactly(before, eol);
    SeparatorsAgree(before);
    LinesHarmless(t, r);
    LinedUniform(eol, SectionLines(t, r));
    EolUniform(eol);
    UniformOver(separator, g, eol);
    UniformOver(Body(before), separator + g, eol);
    BodyOver(before, separator + g);
    assert before + (separator + g) == before + separator + g;
    assert eol[|eol| - 1] == '\n' && eol[|eol| - 1] in separator;
  }
}
