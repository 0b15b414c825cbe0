/**
 * The line normaliser of the DARF extractor: the extracted page text is split
 * into lines, each line's whitespace runs become single spaces, the line is
 * stripped, and the lines left empty are dropped.
 */
module Lines {
  import opened Text

  /** The characters at which `str.splitlines` ends a line ("\r\n" counts as one break). */
  predicate IsLineBreak(c: char) {
    || c == '\n' || c == '\r' || c == '\U{0B}' || c == '\U{0C}'
    || c == '\U{1C}' || c == '\U{1D}' || c == '\U{1E}' || c == '\U{85}'
    || c == '\U{2028}' || c == '\U{2029}'
  }

  predicate NoLineBreak(s: string) {
    forall k :: 0 <= k < |s| ==> !IsLineBreak(s[k])
  }

  /** Index of the first line break at or after `p`, or `|s|` when there is none. */
  function BreakIndex(s: string, p: nat): (k: nat)
    requires p <= |s|
    ensures p <= k <= |s| && (k == |s| || IsLineBreak(s[k]))
    ensures forall j :: p <= j < k ==> !IsLineBreak(s[j])
    decreases |s| - p
  {
    if p == |s| || IsLineBreak(s[p]) then p else BreakIndex(s, p + 1)
  }

  /** The lines of `s[p..]`, each without its break. */
  function SplitFrom(s: string, p: nat): (r: seq<string>)
    requires p <= |s|
    ensures forall k :: 0 <= k < |r| ==> NoLineBreak(r[k])
    ensures r == [] <==> p == |s|
    decreases |s| - p
  {
    if p == |s| then []
    else
      var k := BreakIndex(s, p);
      assert NoLineBreak(s[p..k]);
      if k == |s| then [s[p..]]
      else [s[p..k]] + SplitFrom(s, k + BreakWidth(s, k))
  }

  /** Length of the break at `k`: "\r\n" is one break of two characters. */
  function BreakWidth(s: string, k: nat): (w: nat)
    requires k < |s|
    ensures 1 <= w <= |s| - k
  {
    if s[k] == '\r' && k + 1 < |s| && s[k + 1] == '\n' then 2 else 1
  }

  /** `text.splitlines()`: the lines without their breaks, and no empty line after a final break. */
  function SplitLines(s: string): seq<string> {
    SplitFrom(s, 0)
  }

  /** Joins lines with "\n" between them. */
  function JoinLines(ls: seq<string>): string {
    if ls == [] then [] else if |ls| == 1 then ls[0] else ls[0] + "\n" + JoinLines(ls[1..])
  }

  /**
   * On a text whose only breaks are "\n" and that does not end with one,
   * joining the lines with "\n" gives the text back.
   */
  lemma SplitLinesJoin(s: string)
    requires forall k :: 0 <= k < |s| ==> IsLineBreak(s[k]) ==> s[k] == '\n'
    requires s == [] || s[|s| - 1] != '\n'
    ensures JoinLines(SplitLines(s)) == s
  {
    SplitFromJoin(s, 0);
  }

  lemma {:induction false} SplitFromJoin(s: string, p: nat)
    requires p <= |s|
    requires forall k :: 0 <= k < |s| ==> IsLineBreak(s[k]) ==> s[k] == '\n'
    requires s == [] || s[|s| - 1] != '\n'
    ensures JoinLines(SplitFrom(s, p)) == s[p..]
    decreases |s| - p
  {
    if p < |s| {
      var k := BreakIndex(s, p);
      if k == |s| {
        SplitLastLine(s, p);
      } else {
        assert s[k] == '\n';
        assert k + 1 < |s|;
        SplitFromJoin(s, k + 1);
        JoinAfterNewline(s, p, k);
      }
    } else {
      assert SplitFrom(s, p) == [];
    }
  }

  /** The lines from `p` join back to `s[p..]` when those after the first "\n" do. */
  lemma JoinAfterNewline(s: string, p: nat, k: nat)
    requires p <= k && k + 1 < |s| && k == BreakIndex(s, p) && s[k] == '\n'
    requires JoinLines(SplitFrom(s, k + 1)) == s[k + 1..]
    ensures JoinLines(SplitFrom(s, p)) == s[p..]
  {
    var rest := SplitFrom(s, k + 1);
    SplitAtNewline(s, p, k);
    JoinStep(s[p..k], rest);
    JoinAtNewline(s, p, k);
  }

  lemma SplitLastLine(s: string, p: nat)
    requires p < |s| && BreakIndex(s, p) == |s|
    ensures JoinLines(SplitFrom(s, p)) == s[p..]
  {
    assert SplitFrom(s, p) == [s[p..]];
  }

  lemma JoinAtNewline(s: string, p: nat, k: nat)
    requires p <= k < |s| && s[k] == '\n'
    ensures s[p..] == s[p..k] + "\n" + s[k + 1..]
  {
    assert s[p..] == s[p..k] + [s[k]] + s[k + 1..];
  }

  /** A "\n" that is the first break after `p` ends the line that starts at `p`. */
  lemma SplitAtNewline(s: string, p: nat, k: nat)
    requires p <= k < |s| && k == BreakIndex(s, p) && s[k] == '\n'
    ensures SplitFrom(s, p) == [s[p..k]] + SplitFrom(s, k + 1)
  {
    assert BreakWidth(s, k) == 1;
  }

  lemma JoinStep(x: string, rest: seq<string>)
    requires rest != []
    ensures JoinLines([x] + rest) == x + "\n" + JoinLines(rest)
  {
    assert ([x] + rest)[1..] == rest;
  }

  /** `re.sub(r"\s+", " ", s)`: every maximal run of whitespace becomes one space. */
  function Collapse(s: string): (r: string)
    ensures |r| <= |s|
    decreases |s|
  {
    if s == [] then []
    else if IsSpace(s[0]) then [' '] + Collapse(s[SpaceRun(s, 0)..])
    else [s[0]] + Collapse(s[1..])
  }

  /** `re.sub(r"\s+", " ", line).strip()` */
  function Normalize(line: string): string {
    Strip(Collapse(line))
  }

  /** No two whitespace characters in a row. */
  predicate NoDoubleSpace(t: string) {
    forall i :: 0 <= i < |t| - 1 ==> !(IsSpace(t[i]) && IsSpace(t[i + 1]))
  }

  /** The only whitespace character in `t` is the plain space. */
  predicate OnlyPlainSpaces(t: string) {
    forall i :: 0 <= i < |t| ==> IsSpace(t[i]) ==> t[i] == ' '
  }

  /** What every normalised line looks like. */
  predicate Clean(t: string) {
    && t != []
    && !IsSpace(t[0]) && !IsSpace(t[|t| - 1])
    && NoDoubleSpace(t)
    && OnlyPlainSpaces(t)
  }

  /** The text with its whitespace removed. */
  function NonSpace(s: string): (r: string)
    ensures forall i :: 0 <= i < |r| ==> !IsSpace(r[i])
  {
    if s == [] then [] else (if IsSpace(s[0]) then [] else [s[0]]) + NonSpace(s[1..])
  }

  lemma {:induction false} NonSpaceConcat(a: string, b: string)
    ensures NonSpace(a + b) == NonSpace(a) + NonSpace(b)
  {
    if a == [] {
      assert a + b == b;
    } else {
      assert (a + b)[1..] == a[1..] + b;
      NonSpaceConcat(a[1..], b);
    }
  }

  lemma {:induction false} NonSpaceOfSpace(s: string)
    requires AllSpace(s)
    ensures NonSpace(s) == []
  {
    if s != [] {
      NonSpaceOfSpace(s[1..]);
    }
  }

  /** A string loses nothing to `NonSpace` exactly when it is not all whitespace. */
  lemma {:induction false} NonSpaceEmptyIff(s: string)
    ensures NonSpace(s) == [] <==> AllSpace(s)
  {
    if s != [] {
      NonSpaceEmptyIff(s[1..]);
      if !IsSpace(s[0]) {
        assert NonSpace(s)[0] == s[0];
      } else {
        assert AllSpace(s) <==> AllSpace(s[1..]) by {
          if AllSpace(s[1..]) {
            forall i | 0 <= i < |s|
              ensures IsSpace(s[i])
            {
              if i > 0 {
                assert s[i] == s[1..][i - 1];
              }
            }
          }
        }
      }
    }
  }

  /** Collapsing keeps every non-whitespace character, in order. */
  lemma {:induction false} CollapseNonSpace(s: string)
    ensures NonSpace(Collapse(s)) == NonSpace(s)
    decreases |s|
  {
    if s != [] {
      if IsSpace(s[0]) {
        var n := SpaceRun(s, 0);
        CollapseNonSpace(s[n..]);
        assert s == s[..n] + s[n..];
        NonSpaceConcat(s[..n], s[n..]);
        NonSpaceOfSpace(s[..n]);
        NonSpaceConcat([' '], Collapse(s[n..]));
      } else {
        CollapseNonSpace(s[1..]);
        NonSpaceConcat([s[0]], Collapse(s[1..]));
      }
    }
  }

  /** Collapsing starts where the text starts: with its first character, or a space. */
  lemma CollapseHead(s: string)
    requires s != []
    ensures Collapse(s) != []
    ensures Collapse(s)[0] == (if IsSpace(s[0]) then ' ' else s[0])
  {
  }

  /** After collapsing, whitespace comes one plain space at a time. */
  lemma {:induction false} CollapseSpaces(s: string)
    ensures NoDoubleSpace(Collapse(s)) && OnlyPlainSpaces(Collapse(s))
    decreases |s|
  {
    if s != [] {
      if IsSpace(s[0]) {
        var rest := s[SpaceRun(s, 0)..];
        CollapseSpaces(rest);
        if rest != [] {
          CollapseHead(rest);
        }
        PrependKeepsClean(' ', Collapse(rest));
      } else {
        CollapseSpaces(s[1..]);
        PrependKeepsClean(s[0], Collapse(s[1..]));
      }
    }
  }

  lemma PrependKeepsClean(c: char, t: string)
    requires NoDoubleSpace(t) && OnlyPlainSpaces(t)
    requires IsSpace(c) ==> c == ' ' && (t == [] || !IsSpace(t[0]))
    ensures NoDoubleSpace([c] + t) && OnlyPlainSpaces([c] + t)
  {
    var u := [c] + t;
    forall i | 0 <= i < |u| - 1
      ensures !(IsSpace(u[i]) && IsSpace(u[i + 1]))
    {
      if i > 0 {
        assert u[i] == t[i - 1] && u[i + 1] == t[i];
      }
    }
  }

  /** A slice of a string keeps its whitespace discipline. */
  lemma SliceKeepsSpaces(t: string, a: nat, b: nat)
    requires a <= b <= |t| && NoDoubleSpace(t) && OnlyPlainSpaces(t)
    ensures NoDoubleSpace(t[a..b]) && OnlyPlainSpaces(t[a..b])
  {
    var u := t[a..b];
    forall i | 0 <= i < |u| - 1
      ensures !(IsSpace(u[i]) && IsSpace(u[i + 1]))
    {
      assert u[i] == t[a + i] && u[i + 1] == t[a + i + 1];
    }
  }

  /** Normalising keeps every non-whitespace character, in order. */
  lemma NormalizeNonSpace(line: string)
    ensures NonSpace(Normalize(line)) == NonSpace(line)
  {
    var c := Collapse(line);
    CollapseNonSpace(line);
    StripDecompose(c);
    var a := LeadingSpace(c);
    NonSpaceOfPadded(c[..a], Strip(c), c[a + |Strip(c)|..]);
  }

  /** Whitespace around a string adds nothing to its non-whitespace characters. */
  lemma NonSpaceOfPadded(pre: string, m: string, post: string)
    requires AllSpace(pre) && AllSpace(post)
    ensures NonSpace(pre + m + post) == NonSpace(m)
  {
    NonSpaceConcat(pre + m, post);
    NonSpaceConcat(pre, m);
    NonSpaceOfSpace(pre);
    NonSpaceOfSpace(post);
  }

  /**
   * A normalised line is empty exactly when the raw line is all whitespace, and
   * otherwise it is clean: no outer whitespace and single plain spaces inside.
   */
  lemma NormalizeClean(line: string)
    ensures Normalize(line) == [] <==> AllSpace(line)
    ensures Normalize(line) != [] ==> Clean(Normalize(line))
  {
    var c := Collapse(line);
    var t := Normalize(line);
    NormalizeNonSpace(line);
    NonSpaceEmptyIff(line);
    StripIsSlice(c);
    if t != [] {
      assert NonSpace(t)[0] == t[0];
      StrippedCollapseClean(line);
    }
  }

  /** A non-empty normalised line is clean. */
  lemma StrippedCollapseClean(line: string)
    requires Normalize(line) != []
    ensures Clean(Normalize(line))
  {
    var c := Collapse(line);
    StripIsSlice(c);
    CollapseSpaces(line);
    SliceKeepsSpaces(c, LeadingSpace(c), LeadingSpace(c) + |Strip(c)|);
  }

  /** Indices of the lines that are not all whitespace, in increasing order. */
  function NonBlankIndices(raw: seq<string>): (ix: seq<nat>)
    ensures forall t :: 0 <= t < |ix| ==> ix[t] < |raw| && !AllSpace(raw[ix[t]])
    ensures forall t, u :: 0 <= t < u < |ix| ==> ix[t] < ix[u]
    ensures forall k :: 0 <= k < |raw| && !AllSpace(raw[k]) ==> k in ix
  {
    if raw == [] then []
    else
      var n := |raw| - 1;
      NonBlankIndices(raw[..n]) + (if AllSpace(raw[n]) then [] else [n])
  }

  /** The normalised lines at the given indices. */
  function Pick(raw: seq<string>, ix: seq<nat>): (r: seq<string>)
    requires forall t :: 0 <= t < |ix| ==> ix[t] < |raw|
    ensures |r| == |ix|
  {
    seq(|ix|, t requires 0 <= t < |ix| => Normalize(raw[ix[t]]))
  }

  /** One more raw line adds its normalised form when it is not blank. */
  lemma PickStep(raw: seq<string>, i: nat)
    requires i < |raw|
    ensures Pick(raw, NonBlankIndices(raw[..i + 1])) ==
            Pick(raw, NonBlankIndices(raw[..i])) + (if AllSpace(raw[i]) then [] else [Normalize(raw[i])])
  {
    assert raw[..i + 1][..i] == raw[..i];
  }

  /** The normalised, non-blank lines of a page text, in order. */
  function PageLines(text: string): seq<string> {
    var raw := SplitLines(text);
    Pick(raw, NonBlankIndices(raw))
  }

  /** The picked lines of non-blank raw lines are all clean. */
  lemma PickClean(raw: seq<string>)
    ensures var ix := NonBlankIndices(raw);
            forall k :: 0 <= k < |ix| ==> Clean(Pick(raw, ix)[k])
  {
    var ix := NonBlankIndices(raw);
    forall k | 0 <= k < |ix|
      ensures Clean(Pick(raw, ix)[k])
    {
      NormalizeClean(raw[ix[k]]);
    }
  }

  /** The lines of `carregar_linhas_pdf` after extraction: lines 94-101. */
  method NormalizeLines(text: string) returns (lines: seq<string>)
    ensures var raw := SplitLines(text);
            var ix := NonBlankIndices(raw);
            |lines| == |ix| && forall t :: 0 <= t < |ix| ==> lines[t] == Normalize(raw[ix[t]])
    ensures forall k :: 0 <= k < |lines| ==> Clean(lines[k])
    ensures lines == PageLines(text)
  {
    var rawLines := SplitLines(text);
    lines := [];
    for i := 0 to |rawLines|
      invariant lines == Pick(rawLines, NonBlankIndices(rawLines[..i]))
    {
      var norm := Normalize(rawLines[i]);
      NormalizeClean(rawLines[i]);
      PickStep(rawLines, i);
      if norm != [] {
        lines := lines + [norm];
      }
    }
    assert rawLines[..|rawLines|] == rawLines;
    PickClean(rawLines);
  }
}
