/**
 Whitespace and clipping helpers (src/agents/core/recommendations.py: `_normalize_text`,
 `_clip_text`).  Texts are sequences of characters.
 */
module TextClip {
  import opened Basics

  // str.isspace for one character.
  predicate Space(c: char) {
    var n := c as int;
    || 9 <= n <= 13 || 28 <= n <= 32 || n == 0x85 || n == 0xA0 || n == 0x1680
    || 0x2000 <= n <= 0x200A || n == 0x2028 || n == 0x2029 || n == 0x202F || n == 0x205F || n == 0x3000
  }

  function RStrip(s: string): (r: string)
    ensures |r| <= |s| && r == s[..|r|] && (r == "" || !Space(r[|r| - 1]))
  {
    if s != "" && Space(s[|s| - 1]) then RStrip(s[..|s| - 1]) else s
  }

  function LStrip(s: string): (r: string)
    ensures |r| <= |s| && (r == "" || !Space(r[0]))
  {
    if s != "" && Space(s[0]) then LStrip(s[1..]) else s
  }

  function Strip(s: string): string { LStrip(RStrip(s)) }

  // value[:k], where a negative k counts from the end.
  function SliceTo(s: string, k: int): string {
    if k >= 0 then s[..Min(k, |s|)] else s[..Max(0, |s| + k)]
  }

  const ELLIPSIS: string := ['.', '.', '.']

  function ClipText(s: string, maxChars: int): string {
    if maxChars <= 0 || |s| <= maxChars then s
    else RStrip(SliceTo(s, maxChars - 3)) + ELLIPSIS
  }

  // The clip respects its limit exactly from 3 on, or when there is nothing to clip: for 1
  // and 2 the slice counts from the end, and 0 means no limit.
  lemma ClipLengthIff(s: string, maxChars: nat)
    ensures |ClipText(s, maxChars)| <= maxChars <==> maxChars >= 3 || |s| <= maxChars
    ensures |s| <= maxChars || maxChars == 0 ==> ClipText(s, maxChars) == s
  {}

  // Where a clip cuts.
  function Cut(length: nat, maxChars: nat): (k: nat)
    requires 0 < maxChars < length
    ensures k <= length
  {
    if maxChars >= 3 then maxChars - 3 else Max(0, length + maxChars - 3)
  }

  lemma ClipIs(s: string, maxChars: nat)
    requires 0 < maxChars < |s|
    ensures ClipText(s, maxChars) == RStrip(s[..Cut(|s|, maxChars)]) + ELLIPSIS
    ensures |ClipText(s, maxChars)| == |RStrip(s[..Cut(|s|, maxChars)])| + 3
  {}

  // ---------------------------------------------------------------- stripping prefixes

  lemma RStripNext(p: string, j: nat)
    requires j < |p|
    ensures RStrip(p[..j + 1]) == if Space(p[j]) then RStrip(p[..j]) else p[..j + 1]
  {
    assert p[..j + 1][..j] == p[..j];
  }

  // A longer prefix strips to a text at least as long.
  lemma {:induction false} RStripMonotone(p: string, i: nat, j: nat)
    requires i <= j <= |p|
    ensures |RStrip(p[..i])| <= |RStrip(p[..j])|
    decreases j - i
  {
    if i < j {
      RStripMonotone(p, i, j - 1);
      RStripNext(p, j - 1);
    }
  }

  // What is stripped away makes no difference.
  lemma {:induction false} RStripShorter(p: string, i: nat, j: nat)
    requires i <= j <= |p| && |RStrip(p[..j])| <= i
    ensures RStrip(p[..i]) == RStrip(p[..j])
    decreases j - i
  {
    if i < j {
      RStripNext(p, j - 1);
      RStripShorter(p, i, j - 1);
    }
  }

  // ---------------------------------------------------------------- normalising

  function Word(s: string): (w: string)
    ensures |w| <= |s| && w == s[..|w|] && forall i :: 0 <= i < |w| ==> !Space(w[i])
    ensures |w| < |s| ==> Space(s[|w|])
  {
    if s == "" || Space(s[0]) then "" else [s[0]] + Word(s[1..])
  }

  // " ".join(s.split())
  function NormalizeText(s: string): string
    decreases |s|
  {
    var t := LStrip(s);
    if t == "" then ""
    else
      var w := Word(t);
      assert w != "";
      var rest := NormalizeText(t[|w|..]);
      if rest == "" then w else w + " " + rest
  }

  // No whitespace at either end and no two whitespace characters in a row.
  predicate Tidy(s: string) {
    && (s != "" ==> !Space(s[0]) && !Space(s[|s| - 1]))
    && forall i :: 0 <= i < |s| - 1 ==> !(Space(s[i]) && Space(s[i + 1]))
  }

  lemma TidyAppend(a: string, b: string)
    requires Tidy(a) && Tidy(b)
    ensures Tidy(a + b)
  {}

  lemma TidySpace(a: string, b: string)
    requires Tidy(a) && Tidy(b) && a != "" && b != ""
    ensures Tidy(a + " " + b)
  {
    var s := a + " " + b;
    forall i | 0 <= i < |s| - 1 ensures !(Space(s[i]) && Space(s[i + 1])) {
      if i > |a| { assert s[i] == b[i - |a| - 1] && s[i + 1] == b[i - |a|]; }
    }
  }

  lemma {:induction false} NormalizeIsTidy(s: string)
    ensures Tidy(NormalizeText(s))
    decreases |s|
  {
    var t := LStrip(s);
    if t != "" {
      var w := Word(t);
      NormalizeIsTidy(t[|w|..]);
      if NormalizeText(t[|w|..]) != "" { TidySpace(w, NormalizeText(t[|w|..])); }
    }
  }

  // Normalising changes nothing that is tidy and uses plain spaces, so twice is once.
  predicate PlainSpaces(s: string) { forall i :: 0 <= i < |s| && Space(s[i]) ==> s[i] == ' ' }

  lemma {:induction false} NormalizeFixpoint(s: string)
    requires Tidy(s) && PlainSpaces(s)
    ensures NormalizeText(s) == s
    decreases |s|
  {
    if s != "" {
      var w := Word(s);
      assert LStrip(s) == s;
      if |w| == |s| {
        assert s[|w|..] == "" && w == s;
        assert NormalizeText("") == "";
      } else {
        var rest := s[|w| + 1..];
        AfterWord(s);
        NormalizeFixpoint(rest);
        SkipOneSpace(s[|w|..], rest);
      }
    }
  }

  lemma AfterWord(s: string)
    requires Tidy(s) && PlainSpaces(s) && |Word(s)| < |s|
    ensures var w, rest := Word(s), s[|Word(s)| + 1..];
            && s[|w|..] == " " + rest && rest != "" && !Space(rest[0]) && s == w + " " + rest
            && Tidy(rest) && PlainSpaces(rest)
  {
    var k := |Word(s)|;
    assert s[k] == ' ' && Space(s[k]);
    assert Space(s[|s| - 1]) == false;
    assert k + 1 < |s| && !Space(s[k + 1]);
    TidyTail(s, k + 1);
    SplitAtSpace(s, k);
  }

  lemma SplitAtSpace(s: string, k: nat)
    requires k < |s| && s[k] == ' '
    ensures s[k..] == " " + s[k + 1..] && s == s[..k] + " " + s[k + 1..]
  {}

  lemma TidyTail(s: string, k: nat)
    requires Tidy(s) && PlainSpaces(s) && k < |s| && !Space(s[k])
    ensures Tidy(s[k..]) && PlainSpaces(s[k..])
  {
    var r := s[k..];
    assert forall i :: 0 <= i < |r| ==> r[i] == s[i + k];
  }

  lemma SkipOneSpace(s: string, rest: string)
    requires s == " " + rest && rest != "" && !Space(rest[0])
    ensures NormalizeText(s) == NormalizeText(rest)
  {
    assert s[1..] == rest;
    assert LStrip(s) == LStrip(rest) == rest;
  }

  lemma {:induction false} NormalizePlain(s: string)
    ensures PlainSpaces(NormalizeText(s))
    decreases |s|
  {
    var t := LStrip(s);
    if t != "" { NormalizePlain(t[|Word(t)|..]); }
  }

  lemma NormalizeIdempotent(s: string)
    ensures NormalizeText(NormalizeText(s)) == NormalizeText(s)
  {
    NormalizeIsTidy(s);
    NormalizePlain(s);
    NormalizeFixpoint(NormalizeText(s));
  }

  lemma RStripTidyIsTidy(s: string, k: nat)
    requires Tidy(s) && k <= |s|
    ensures Tidy(RStrip(s[..k]))
  {}

  lemma ClipTidyIsTidy(s: string, maxChars: nat)
    requires Tidy(s) && maxChars >= 3
    ensures Tidy(ClipText(s, maxChars))
  {
    if |s| > maxChars {
      RStripTidyIsTidy(s, maxChars - 3);
      TidyAppend(RStrip(s[..maxChars - 3]), ELLIPSIS);
    }
  }

  lemma StripTidy(s: string)
    requires Tidy(s)
    ensures Strip(s) == s
  {}
}
