/**
 Skill names (frontend/src/utils/skillFilters.ts, `sanitizeSkillName`), over UTF-16 code units.
 */
module SkillName {
  type CodeUnit = c: int | 0 <= c < 0x10000
  type Name = seq<CodeUnit>

  const DASH: CodeUnit := 45
  const UNNAMED: Name := [117, 110, 110, 97, 109, 101, 100, 45, 115, 107, 105, 108, 108]

  // A word character, a CJK, kana or hangul code unit, a dash or a dot.
  predicate Allowed(c: CodeUnit) {
    || 65 <= c <= 90 || 97 <= c <= 122 || 48 <= c <= 57 || c == 95
    || 0x4e00 <= c <= 0x9fff || 0x3040 <= c <= 0x309f || 0x30a0 <= c <= 0x30ff || 0xac00 <= c <= 0xd7af
    || c == DASH || c == 46
  }

  // Of ASCII that is exactly letters, digits and three marks, and beyond it exactly three
  // stretches: kana, CJK ideographs and hangul syllables.
  lemma WhatIsAllowed(c: CodeUnit)
    ensures c < 0x80 ==>
              var ch := c as char;
              Allowed(c) <==> 'A' <= ch <= 'Z' || 'a' <= ch <= 'z' || '0' <= ch <= '9' || ch in {'_', '-', '.'}
    ensures c >= 0x80 ==> (Allowed(c) <==> 0x3040 <= c < 0x3100 || 0x4E00 <= c < 0xA000 || 0xAC00 <= c < 0xD7B0)
  {}

  // First pass: every other code unit becomes a dash.
  function ReplaceOthers(s: Name): Name {
    if s == [] then [] else [if Allowed(s[0]) then s[0] else DASH] + ReplaceOthers(s[1..])
  }

  // Second pass: a run of dashes becomes one.
  function CollapseDashes(s: Name): Name {
    if s == [] then []
    else if |s| >= 2 && s[0] == DASH && s[1] == DASH then CollapseDashes(s[1..])
    else [s[0]] + CollapseDashes(s[1..])
  }

  // Third pass: dashes at both ends go.
  function TrimStart(s: Name): Name { if s != [] && s[0] == DASH then TrimStart(s[1..]) else s }

  function TrimEnd(s: Name): Name { if s != [] && s[|s| - 1] == DASH then TrimEnd(s[..|s| - 1]) else s }

  function SanitizeSkillName(name: Name): Name {
    var trimmed := TrimEnd(TrimStart(CollapseDashes(ReplaceOthers(name))));
    if trimmed == [] then UNNAMED else trimmed
  }

  predicate AllAllowed(s: Name) { forall i :: 0 <= i < |s| ==> Allowed(s[i]) }

  predicate NoDoubleDash(s: Name) { forall i :: 0 <= i < |s| - 1 ==> !(s[i] == DASH && s[i + 1] == DASH) }

  predicate NormalForm(s: Name) {
    s != [] && AllAllowed(s) && NoDoubleDash(s) && s[0] != DASH && s[|s| - 1] != DASH
  }

  // The code units that carry a name: allowed ones other than dashes.
  function Core(s: Name): Name {
    if s == [] then [] else (if Allowed(s[0]) && s[0] != DASH then [s[0]] else []) + Core(s[1..])
  }

  lemma {:induction false} ReplaceFacts(s: Name)
    ensures AllAllowed(ReplaceOthers(s)) && Core(ReplaceOthers(s)) == Core(s)
    ensures AllAllowed(s) ==> ReplaceOthers(s) == s
  {
    if s != [] {
      ReplaceFacts(s[1..]);
      assert ReplaceOthers(s)[1..] == ReplaceOthers(s[1..]);
      if AllAllowed(s) { assert AllAllowed(s[1..]) && s == [s[0]] + s[1..]; }
    }
  }

  lemma {:induction false} CollapseFacts(s: Name)
    requires AllAllowed(s)
    ensures AllAllowed(CollapseDashes(s)) && NoDoubleDash(CollapseDashes(s)) && Core(CollapseDashes(s)) == Core(s)
    ensures s != [] ==> CollapseDashes(s) != [] && CollapseDashes(s)[0] == s[0]
    ensures NoDoubleDash(s) ==> CollapseDashes(s) == s
  {
    if s != [] {
      CollapseFacts(s[1..]);
      if !(|s| >= 2 && s[0] == DASH && s[1] == DASH) {
        assert CollapseDashes(s)[1..] == CollapseDashes(s[1..]);
        assert s == [s[0]] + s[1..];
        if NoDoubleDash(s) {
          assert forall i :: 0 <= i < |s[1..]| ==> s[1..][i] == s[i + 1];
        }
      }
    }
  }

  lemma {:induction false} TrimStartFacts(s: Name)
    requires AllAllowed(s) && NoDoubleDash(s)
    ensures var t := TrimStart(s);
            AllAllowed(t) && NoDoubleDash(t) && (t != [] ==> t[0] != DASH) && Core(t) == Core(s)
  {
    if s != [] && s[0] == DASH {
      assert forall i :: 0 <= i < |s[1..]| ==> s[1..][i] == s[i + 1];
      TrimStartFacts(s[1..]);
    }
  }

  lemma {:induction false} CoreSnoc(s: Name, c: CodeUnit)
    ensures Core(s + [c]) == Core(s) + (if Allowed(c) && c != DASH then [c] else [])
  {
    if s == [] {
      assert s + [c] == [c];
    } else {
      assert (s + [c])[1..] == s[1..] + [c];
      CoreSnoc(s[1..], c);
    }
  }

  lemma {:induction false} TrimEndFacts(s: Name)
    requires AllAllowed(s) && NoDoubleDash(s) && (s != [] ==> s[0] != DASH)
    ensures var t := TrimEnd(s);
            AllAllowed(t) && NoDoubleDash(t) && (t != [] ==> t[0] != DASH && t[|t| - 1] != DASH) && Core(t) == Core(s)
  {
    if s != [] && s[|s| - 1] == DASH {
      assert s == s[..|s| - 1] + [DASH];
      CoreSnoc(s[..|s| - 1], DASH);
      TrimEndFacts(s[..|s| - 1]);
    }
  }

  lemma UnnamedIsNormal()
    ensures NormalForm(UNNAMED)
  {}

  // A normal form has a core.
  lemma NormalHasCore(s: Name)
    requires s != [] && Allowed(s[0]) && s[0] != DASH
    ensures Core(s) != []
  {}

  // The output is a normal form; it keeps the letters of the name, in order, and is the
  // fallback name exactly when there are none.
  lemma SanitizedIsNormal(name: Name)
    ensures NormalForm(SanitizeSkillName(name))
    ensures Core(name) != [] ==> Core(SanitizeSkillName(name)) == Core(name)
    ensures Core(name) == [] ==> SanitizeSkillName(name) == UNNAMED
  {
    ReplaceFacts(name);
    CollapseFacts(ReplaceOthers(name));
    TrimStartFacts(CollapseDashes(ReplaceOthers(name)));
    TrimEndFacts(TrimStart(CollapseDashes(ReplaceOthers(name))));
    UnnamedIsNormal();
    var t := TrimEnd(TrimStart(CollapseDashes(ReplaceOthers(name))));
    if t != [] { NormalHasCore(t); }
  }

  // Sanitising changes nothing exactly on normal forms; in particular twice is once.
  lemma UnchangedIffNormal(name: Name)
    ensures SanitizeSkillName(name) == name <==> NormalForm(name)
  {
    SanitizedIsNormal(name);
    if NormalForm(name) {
      ReplaceFacts(name);
      CollapseFacts(name);
    }
  }

  lemma SanitizeIdempotent(name: Name)
    ensures SanitizeSkillName(SanitizeSkillName(name)) == SanitizeSkillName(name)
  {
    SanitizedIsNormal(name);
    UnchangedIffNormal(SanitizeSkillName(name));
  }
}
