/**
 The upload URL printer and parser (src/agents/core/node_utils.py: `_attachment_url_from_key`,
 `_upload_key_from_image_url`), with the parts of `urlsplit`, `quote` and `unquote` they use
 (sections 2.1 and 3 of RFC 3986).  A text is its UTF-8 octets, written as characters.
 */
module UploadUrl {
  import opened Basics

  type Octet = c: char | c as int < 256 witness 'a'
  type Text = seq<Octet>

  const MARKER: Text := ['/', 'a', 'p', 'i', '/', 'u', 'p', 'l', 'o', 'a', 'd', '/', 'f', 'i', 'l', 'e', '/']

  // ---------------------------------------------------------------- percent encoding

  predicate Unreserved(c: Octet) {
    'a' <= c <= 'z' || 'A' <= c <= 'Z' || '0' <= c <= '9' || c == '_' || c == '.' || c == '-' || c == '~'
  }

  function HexDigit(n: nat): (c: Octet)
    requires n < 16
  {
    HexChar(n, 'A')
  }

  function HexValue(c: Octet): (n: int)
    ensures -1 <= n < 16
  {
    if '0' <= c <= '9' then c as int - '0' as int
    else if 'A' <= c <= 'F' then c as int - 'A' as int + 10
    else if 'a' <= c <= 'f' then c as int - 'a' as int + 10
    else -1
  }

  function QuoteOctet(c: Octet): Text {
    if Unreserved(c) || c == '/' then [c] else ['%', HexDigit(c as int / 16), HexDigit(c as int % 16)]
  }

  // quote(s, safe="/")
  function Quote(s: Text): Text { if s == [] then [] else QuoteOctet(s[0]) + Quote(s[1..]) }

  predicate EscapeAt(s: Text) { |s| >= 3 && s[0] == '%' && HexValue(s[1]) >= 0 && HexValue(s[2]) >= 0 }

  // unquote: a percent sign without two hexadecimal digits stands for itself.
  function Unquote(s: Text): Text
    decreases |s|
  {
    if s == [] then []
    else if EscapeAt(s) then [(16 * HexValue(s[1]) + HexValue(s[2])) as char] + Unquote(s[3..])
    else [s[0]] + Unquote(s[1..])
  }

  lemma HexRoundTrip(n: nat)
    requires n < 16
    ensures HexValue(HexDigit(n)) == n
  {}

  // An escape stands for its octet, whichever case its letters have.
  lemma UnquoteAnyCase(c: Octet, high: char, low: char, rest: Text)
    requires high in {'a', 'A'} && low in {'a', 'A'}
    ensures Unquote(['%', HexChar(c as int / 16, high), HexChar(c as int % 16, low)] + rest) == [c] + Unquote(rest)
  {
    var escape: Text := ['%', HexChar(c as int / 16, high), HexChar(c as int % 16, low)];
    assert HexValue(escape[1]) == c as int / 16 && HexValue(escape[2]) == c as int % 16;
    assert (escape + rest)[3..] == rest;
  }

  lemma UnquoteOctet(c: Octet, rest: Text)
    ensures Unquote(QuoteOctet(c) + rest) == [c] + Unquote(rest)
  {
    var s := QuoteOctet(c) + rest;
    if Unreserved(c) || c == '/' {
      assert s[0] == c && s[1..] == rest;
    } else {
      HexRoundTrip(c as int / 16);
      HexRoundTrip(c as int % 16);
      assert s[3..] == rest;
    }
  }

  lemma {:induction false} UnquoteQuote(s: Text)
    ensures Unquote(Quote(s)) == s
  {
    if s != [] {
      UnquoteOctet(s[0], Quote(s[1..]));
      UnquoteQuote(s[1..]);
    }
  }

  lemma EscapeAppend(p: Text, x: Text)
    requires p != [] && x != [] && HexValue(x[0]) < 0
    ensures EscapeAt(p + x) == EscapeAt(p)
  {
    if |p| == 1 {
      assert (p + x)[1] == x[0];
    } else if |p| == 2 {
      assert (p + x)[2] == x[0] && (p + x)[1] == p[1];
    } else {
      assert (p + x)[1] == p[1] && (p + x)[2] == p[2];
    }
  }

  // Decoding goes piece by piece where the second piece cannot complete an escape.
  lemma {:induction false} UnquoteAppend(p: Text, x: Text)
    requires x != [] && HexValue(x[0]) < 0
    ensures Unquote(p + x) == Unquote(p) + Unquote(x)
    decreases |p|
  {
    if p == [] {
      assert p + x == x;
    } else {
      EscapeAppend(p, x);
      if EscapeAt(p) {
        assert (p + x)[3..] == p[3..] + x;
        UnquoteAppend(p[3..], x);
      } else {
        assert (p + x)[1..] == p[1..] + x;
        UnquoteAppend(p[1..], x);
      }
    }
  }

  predicate Lacks(s: Text, c: char) { forall i :: 0 <= i < |s| ==> s[i] != c }

  lemma {:induction false} UnquotePlain(m: Text, x: Text)
    requires Lacks(m, '%')
    ensures Unquote(m + x) == m + Unquote(x)
  {
    if m == [] {
      assert m + x == x;
    } else {
      assert (m + x)[1..] == m[1..] + x;
      UnquotePlain(m[1..], x);
      assert m == [m[0]] + m[1..];
    }
  }

  // ---------------------------------------------------------------- urlsplit

  function LStripSlash(s: Text): (r: Text)
    ensures |r| <= |s| && (r == [] || r[0] != '/')
  {
    if s != [] && s[0] == '/' then LStripSlash(s[1..]) else s
  }

  function RStripSlash(s: Text): (r: Text)
    ensures |r| <= |s| && r == s[..|r|] && (r == [] || r[|r| - 1] != '/')
  {
    if s != [] && s[|s| - 1] == '/' then RStripSlash(s[..|s| - 1]) else s
  }

  // Leading control characters and blanks go, and so do tabs and line ends anywhere.
  function LStripControl(s: Text): Text {
    if s != [] && s[0] as int <= 32 then LStripControl(s[1..]) else s
  }

  // Exactly the controls and blanks in front go.
  lemma {:induction false} LeadingGo(s: Text)
    ensures var r := LStripControl(s);
            && |r| <= |s| && r == s[|s| - |r|..] && (r == [] || r[0] as int > 32)
            && forall i :: 0 <= i < |s| - |r| ==> s[i] as int <= 32
  {
    if s != [] && s[0] as int <= 32 {
      LeadingGo(s[1..]);
      assert forall i :: 0 < i < |s| ==> s[i] == s[1..][i - 1];
    }
  }

  predicate LineChar(c: Octet) { c == '\t' || c == '\r' || c == '\n' }

  function DropLines(s: Text): Text {
    if s == [] then [] else (if LineChar(s[0]) then [] else [s[0]]) + DropLines(s[1..])
  }

  function Cleaned(url: Text): Text { DropLines(LStripControl(url)) }

  // The position of the first occurrence of one of the characters, or the length.
  function Find(s: Text, cs: set<char>): (i: nat)
    ensures i <= |s| && (i < |s| ==> s[i] in cs) && forall j :: 0 <= j < i ==> s[j] !in cs
  {
    if s == [] || s[0] in cs then 0 else 1 + Find(s[1..], cs)
  }

  predicate Letter(c: Octet) { 'a' <= c <= 'z' || 'A' <= c <= 'Z' }

  predicate SchemeChar(c: Octet) { Letter(c) || '0' <= c <= '9' || c == '+' || c == '-' || c == '.' }

  function AfterScheme(s: Text): Text {
    var i := Find(s, {':'});
    if 0 < i < |s| && Letter(s[0]) && forall j :: 0 <= j < i ==> SchemeChar(s[j]) then s[i + 1..] else s
  }

  // A letter, further scheme characters and a colon.
  ghost predicate SchemeOf(s: Text, n: nat) {
    0 < n < |s| && s[n] == ':' && Letter(s[0]) && forall j :: 0 <= j < n ==> SchemeChar(s[j])
  }

  // Exactly a scheme and its colon go; without one the text stays.
  lemma SchemeGoes(s: Text, n: nat)
    ensures SchemeOf(s, n) ==> AfterScheme(s) == s[n + 1..]
    ensures AfterScheme(s) != s ==> SchemeOf(s, |s| - |AfterScheme(s)| - 1)
  {
    var i := Find(s, {':'});
    if SchemeOf(s, n) {
      assert i <= n;
      assert i < n ==> SchemeChar(s[i]);
    }
  }

  predicate HasNetloc(s: Text) { |s| >= 2 && s[0] == '/' && s[1] == '/' }

  function NetlocEnd(s: Text): (i: nat)
    requires HasNetloc(s)
    ensures 2 <= i <= |s|
  {
    2 + Find(s[2..], {'/', '?', '#'})
  }

  function Netloc(s: Text): Text { if HasNetloc(s) then s[2..NetlocEnd(s)] else [] }

  function AfterNetloc(s: Text): Text { if HasNetloc(s) then s[NetlocEnd(s)..] else s }

  function BeforeQuery(s: Text): Text {
    var t := s[..Find(s, {'#'})];
    t[..Find(t, {'?'})]
  }

  // urlsplit(url).path; None where urlsplit rejects the authority (its bracket and
  // normalisation checks are the parameter).
  function UrlPath(url: Text, accepts: Text -> bool): Option<Text> {
    var s := AfterScheme(Cleaned(url));
    if !accepts(Netloc(s)) then None else Some(BeforeQuery(AfterNetloc(s)))
  }

  // ---------------------------------------------------------------- printer and parser

  function AttachmentUrlFromKey(key: Text, baseUrl: Text): Text {
    RStripSlash(baseUrl) + (MARKER + Quote(LStripSlash(key)))
  }

  predicate StartsAt(s: Text, m: Text, i: nat) { i + |m| <= |s| && s[i..i + |m|] == m }

  // str.find, as far as it is needed: the first occurrence of m at or after i.
  function FirstAt(s: Text, m: Text, i: nat): (r: Option<nat>)
    ensures r.Some? ==> i <= r.value && StartsAt(s, m, r.value) && forall j :: i <= j < r.value ==> !StartsAt(s, m, j)
    ensures r.None? ==> forall j :: i <= j ==> !StartsAt(s, m, j)
    decreases |s| - i
  {
    if i + |m| > |s| then None else if StartsAt(s, m, i) then Some(i) else FirstAt(s, m, i + 1)
  }

  predicate IsData(url: Text) { |url| >= 5 && url[..5] == ['d', 'a', 't', 'a', ':'] }

  datatype Parsed = ValueError | NoKey | Key(key: Text)

  function KeyInPath(path: Text): Parsed {
    match FirstAt(path, MARKER, 0)
    case None => NoKey
    case Some(i) =>
      var key := LStripSlash(path[i + |MARKER|..]);
      if key == [] then NoKey else Key(key)
  }

  function UploadKeyFromImageUrl(url: Text, accepts: Text -> bool): Parsed {
    if IsData(url) then NoKey
    else
      match UrlPath(url, accepts)
      case None => ValueError
      case Some(path) => KeyInPath(Unquote(if path == [] then url else path))
  }

  // ---------------------------------------------------------------- what is appended to a base

  // Appended text that starts with a slash and another character, and holds nothing that
  // urlsplit reacts to.
  ghost predicate Tail(x: Text) {
    && |x| >= 2 && x[0] == '/' && x[1] != '/'
    && Lacks(x, ':') && Lacks(x, '?') && Lacks(x, '#') && forall i :: 0 <= i < |x| ==> !LineChar(x[i])
  }

  lemma {:induction false} QuoteIsPlain(s: Text)
    ensures Lacks(Quote(s), ':') && Lacks(Quote(s), '?') && Lacks(Quote(s), '#')
    ensures forall i :: 0 <= i < |Quote(s)| ==> !LineChar(Quote(s)[i])
  {
    if s != [] {
      QuoteIsPlain(s[1..]);
      QuotedOctetIsPlain(s[0]);
    }
  }

  lemma QuotedOctetIsPlain(c: Octet)
    ensures forall i :: 0 <= i < |QuoteOctet(c)| ==>
              var d := QuoteOctet(c)[i]; d != ':' && d != '?' && d != '#' && !LineChar(d)
  {}

  lemma MarkerTail(key: Text)
    ensures Tail(MARKER + Quote(key))
  {
    QuoteIsPlain(key);
  }

  lemma {:induction false} LStripControlAppend(c: Text, x: Text)
    requires x != [] && x[0] as int > 32
    ensures LStripControl(c + x) == LStripControl(c) + x
  {
    if c == [] {
      assert c + x == x;
    } else if c[0] as int <= 32 {
      assert (c + x)[1..] == c[1..] + x;
      LStripControlAppend(c[1..], x);
    }
  }

  lemma {:induction false} DropLinesNone(x: Text)
    requires forall i :: 0 <= i < |x| ==> !LineChar(x[i])
    ensures DropLines(x) == x
  {
    if x != [] { DropLinesNone(x[1..]); }
  }

  lemma {:induction false} DropLinesAppend(c: Text, x: Text)
    ensures DropLines(c + x) == DropLines(c) + DropLines(x)
  {
    if c == [] {
      assert c + x == x;
    } else {
      assert (c + x)[1..] == c[1..] + x;
      DropLinesAppend(c[1..], x);
    }
  }

  lemma CleanedAppend(c: Text, x: Text)
    requires Tail(x)
    ensures Cleaned(c + x) == Cleaned(c) + x
  {
    LStripControlAppend(c, x);
    DropLinesAppend(LStripControl(c), x);
    DropLinesNone(x);
  }

  lemma {:induction false} FindAppend(s: Text, x: Text, cs: set<char>)
    requires x != []
    ensures Find(s + x, cs) == if Find(s, cs) < |s| then Find(s, cs) else |s| + Find(x, cs)
  {
    if s == [] {
      assert s + x == x;
    } else {
      assert (s + x)[1..] == s[1..] + x;
      if s[0] !in cs { FindAppend(s[1..], x, cs); }
    }
  }

  lemma FindLacks(x: Text, c: char)
    requires Lacks(x, c)
    ensures Find(x, {c}) == |x|
  {
    var i := Find(x, {c});
    if i < |x| { assert x[i] == c; }
  }

  lemma AfterSchemeAppend(s: Text, x: Text)
    requires Tail(x)
    ensures AfterScheme(s + x) == AfterScheme(s) + x
  {
    FindAppend(s, x, {':'});
    FindLacks(x, ':');
    var i := Find(s, {':'});
    if i < |s| {
      assert forall j :: 0 <= j <= i ==> (s + x)[j] == s[j];
      assert (s + x)[i + 1..] == s[i + 1..] + x;
    }
  }

  lemma NetlocAppend(s: Text, x: Text)
    requires Tail(x) && s != ['/']
    ensures Netloc(s + x) == Netloc(s) && AfterNetloc(s + x) == AfterNetloc(s) + x
  {
    if HasNetloc(s) { AuthorityAppend(s, x); } else { NoAuthority(s, x); }
  }

  lemma AuthorityAppend(s: Text, x: Text)
    requires Tail(x) && HasNetloc(s)
    ensures Netloc(s + x) == Netloc(s) && AfterNetloc(s + x) == AfterNetloc(s) + x
  {
    var i := NetlocEnd(s);
    assert (s + x)[2..] == s[2..] + x;
    FindAppend(s[2..], x, {'/', '?', '#'});
    assert Find(x, {'/', '?', '#'}) == 0;
    assert NetlocEnd(s + x) == i;
    assert (s + x)[2..i] == s[2..i] && (s + x)[i..] == s[i..] + x;
  }

  lemma NoAuthority(s: Text, x: Text)
    requires Tail(x) && !HasNetloc(s) && s != ['/']
    ensures !HasNetloc(s + x)
  {
    if s == [] {
      assert s + x == x;
    } else if |s| == 1 {
      assert (s + x)[0] == s[0];
    } else {
      assert (s + x)[0] == s[0] && (s + x)[1] == s[1];
    }
  }

  lemma NoQuery(s: Text)
    requires Lacks(s, '?') && Lacks(s, '#')
    ensures BeforeQuery(s) == s
  {
    FindLacks(s, '#');
    FindLacks(s, '?');
  }

  lemma BeforeQueryAppend(s: Text, x: Text)
    requires Tail(x) && Lacks(s, '?') && Lacks(s, '#')
    ensures BeforeQuery(s) == s && BeforeQuery(s + x) == s + x
  {
    NoQuery(s);
    NoQuery(s + x);
  }

  lemma {:induction false} StrippedLacks(s: Text, c: char)
    requires Lacks(s, c)
    ensures Lacks(LStripControl(s), c) && Lacks(DropLines(s), c)
  {
    if s != [] { StrippedLacks(s[1..], c); }
  }

  function BasePath(c: Text): Text { AfterNetloc(AfterScheme(Cleaned(c))) }

  lemma BasePathLacks(base: Text, c: char)
    requires Lacks(base, c)
    ensures Lacks(BasePath(base), c)
  {
    StrippedLacks(base, c);
    StrippedLacks(LStripControl(base), c);
    var s := AfterScheme(Cleaned(base));
    assert Lacks(s, c);
  }

  // A base URL without query and fragment whose authority is accepted.
  ghost predicate GoodBase(c: Text, accepts: Text -> bool) {
    Lacks(c, '?') && Lacks(c, '#') && accepts(Netloc(AfterScheme(Cleaned(c))))
  }

  // A base that cleaning reduces to a lone slash, after its scheme: the first segment of
  // what is appended would become an authority.
  predicate LoneSlash(c: Text) { AfterScheme(Cleaned(c)) == ['/'] }

  lemma PathAppend(c: Text, x: Text, accepts: Text -> bool)
    requires GoodBase(c, accepts) && !LoneSlash(c) && Tail(x)
    ensures UrlPath(c + x, accepts) == Some(BasePath(c) + x)
  {
    CleanedAppend(c, x);
    AfterSchemeAppend(Cleaned(c), x);
    NetlocAppend(AfterScheme(Cleaned(c)), x);
    BasePathLacks(c, '?');
    BasePathLacks(c, '#');
    BeforeQueryAppend(BasePath(c), x);
  }

  // ---------------------------------------------------------------- finding the marker

  // An occurrence of the marker that starts inside u: all of it, or all but its last
  // slash at the very end.
  predicate EarlierMarker(u: Text) {
    || (exists i :: 0 <= i < |u| && StartsAt(u, MARKER, i))
    || (|u| >= 16 && u[|u| - 16..] == MARKER[..16])
  }

  // The marker overlaps itself only in one slash.
  lemma MarkerOverlap(m: nat)
    requires 0 < m < 16
    ensures MARKER[m..] != MARKER[..17 - m]
  {
    if MARKER[m] == '/' {
      assert MARKER[m..][1] != MARKER[..17 - m][1];
    } else {
      assert MARKER[m..][0] != MARKER[..17 - m][0];
    }
  }

  lemma MarkerWithin(u: Text, k: Text, i: nat)
    requires i < |u| && StartsAt(u + (MARKER + k), MARKER, i)
    ensures StartsAt(u, MARKER, i) || (i + 16 == |u| && u[i..] == MARKER[..16])
  {
    var s := u + (MARKER + k);
    var n := |u| - i;
    forall j | 0 <= j < 17 ensures MARKER[j] == s[i + j] {
      assert s[i..i + 17][j] == s[i + j];
    }
    if n >= 17 {
      assert u[i..i + 17] == MARKER;
    } else {
      forall j | 0 <= j < n ensures u[i..][j] == MARKER[..n][j] {
        assert u[i..][j] == u[i + j] == s[i + j];
      }
      assert u[i..] == MARKER[..n];
      if n < 16 {
        forall j | 0 <= j < 17 - n ensures MARKER[n..][j] == MARKER[..17 - n][j] {
          assert MARKER[n + j] == s[i + (n + j)] == s[|u| + j] == MARKER[j];
        }
        assert MARKER[n..] == MARKER[..17 - n];
        MarkerOverlap(n);
      }
    }
  }

  // Where the marker occurs, its slices say so.
  lemma MarkerAfter(u: Text, k: Text)
    ensures StartsAt(u + (MARKER + k), MARKER, |u|)
  {
    var s := u + (MARKER + k);
    assert s[|u|..|u| + 17] == MARKER;
  }

  lemma MarkerEarly(u: Text, k: Text, i: nat)
    requires StartsAt(u, MARKER, i)
    ensures StartsAt(u + (MARKER + k), MARKER, i)
  {
    var s := u + (MARKER + k);
    assert s[i..i + 17] == u[i..i + 17];
  }

  lemma MarkerShared(u: Text, k: Text)
    requires |u| >= 16 && u[|u| - 16..] == MARKER[..16]
    ensures StartsAt(u + (MARKER + k), MARKER, |u| - 16)
  {
    var s, i := u + (MARKER + k), |u| - 16;
    assert s[i..i + 17] == u[i..] + [MARKER[0]];
    assert MARKER[..16] + [MARKER[0]] == MARKER;
  }

  lemma FirstMarker(u: Text, k: Text)
    ensures FirstAt(u + (MARKER + k), MARKER, 0).Some?
    ensures FirstAt(u + (MARKER + k), MARKER, 0).value == |u| <==> !EarlierMarker(u)
    ensures FirstAt(u + (MARKER + k), MARKER, 0).value <= |u|
    ensures FirstAt(u + (MARKER + k), MARKER, 0).value < |u| ==> FirstAt(u + (MARKER + k), MARKER, 0).value + 16 <= |u|
  {
    MarkerAfter(u, k);
    var r := FirstAt(u + (MARKER + k), MARKER, 0).value;
    if r < |u| { MarkerWithin(u, k, r); }
    if EarlierMarker(u) {
      if i :| 0 <= i < |u| && StartsAt(u, MARKER, i) {
        MarkerEarly(u, k, i);
      } else {
        MarkerShared(u, k);
      }
    }
  }

  lemma {:induction false} LStripKeeps(s: Text, i: nat)
    requires i < |s| && s[i] != '/'
    ensures |LStripSlash(s)| >= |s| - i
  {
    if s[0] == '/' { LStripKeeps(s[1..], i - 1); }
  }

  // The key found behind the marker is k exactly when no marker starts earlier.
  lemma KeyFound(u: Text, k: Text)
    requires k != [] && k[0] != '/'
    ensures KeyInPath(u + (MARKER + k)) == Key(k) <==> !EarlierMarker(u)
  {
    var s := u + (MARKER + k);
    FirstMarker(u, k);
    var r := FirstAt(s, MARKER, 0).value;
    if r == |u| {
      assert s[r + 17..] == k;
    } else {
      var rest := s[r + 17..];
      // The character before the slash that ends the marker lies in the rest.
      var i := |u| + 15 - (r + 17);
      assert rest[i] == s[|u| + 15] == MARKER[15];
      LStripKeeps(rest, i);
    }
  }

  lemma DataIsOfBase(c: Text, x: Text)
    requires x != [] && x[0] == '/'
    ensures IsData(c + x) <==> IsData(c)
  {
    if |c| < 5 && |c + x| >= 5 { assert (c + x)[..5][|c|] == '/'; }
    if |c| >= 5 { assert (c + x)[..5] == c[..5]; }
  }

  lemma UnquotedPath(p: Text, k: Text)
    ensures Unquote(p + (MARKER + Quote(k))) == Unquote(p) + (MARKER + k)
  {
    UnquoteAppend(p, MARKER + Quote(k));
    UnquotePlain(MARKER, Quote(k));
    UnquoteQuote(k);
  }

  lemma ParsePrinted(c: Text, k: Text, accepts: Text -> bool)
    requires GoodBase(c, accepts) && !LoneSlash(c) && !IsData(c)
    ensures UploadKeyFromImageUrl(c + (MARKER + Quote(k)), accepts) == KeyInPath(Unquote(BasePath(c)) + (MARKER + k))
  {
    var x := MARKER + Quote(k);
    MarkerTail(k);
    DataIsOfBase(c, x);
    PathAppend(c, x, accepts);
    UnquotedPath(BasePath(c), k);
  }

  lemma TooShortForKey(t: Text, k: Text)
    requires |t| < 17 + |k|
    ensures KeyInPath(t) != Key(k)
  {}

  lemma SwallowedPath(k: Text)
    ensures var path := AfterNetloc(['/'] + (MARKER + Quote(k)));
            BeforeQuery(path) == path && path != [] && |Unquote(path)| == 13 + |k|
  {
    var tail := MARKER[4..] + Quote(k);
    SwallowedSegment(Quote(k));
    QuoteIsPlain(k);
    NoQuery(tail);
    UnquotePlain(MARKER[4..], Quote(k));
    UnquoteQuote(k);
  }

  // Behind a lone slash the marker loses its first segment, and what is left of the path
  // is too short to hold the whole key behind a marker.
  lemma LoneSlashLosesKey(c: Text, k: Text, accepts: Text -> bool)
    requires GoodBase(c, accepts) && LoneSlash(c)
    ensures UploadKeyFromImageUrl(c + (MARKER + Quote(k)), accepts) != Key(k)
  {
    var x := MARKER + Quote(k);
    MarkerTail(k);
    CleanedAppend(c, x);
    AfterSchemeAppend(Cleaned(c), x);
    SwallowedPath(k);
    TooShortForKey(Unquote(AfterNetloc(['/'] + x)), k);
  }

  lemma SwallowedSegment(q: Text)
    ensures HasNetloc(['/'] + (MARKER + q)) && AfterNetloc(['/'] + (MARKER + q)) == MARKER[4..] + q
  {
    var s := ['/'] + (MARKER + q);
    assert s[2..] == ['a', 'p', 'i'] + (MARKER[4..] + q);
    FindAppend(['a', 'p', 'i'], MARKER[4..] + q, {'/', '?', '#'});
    assert (MARKER[4..] + q)[0] == '/';
    assert Find(['a', 'p', 'i'], {'/', '?', '#'}) == 3;
    assert s[5..] == MARKER[4..] + q;
  }

  // Parsing the URL printed for a key gives the key without its leading slashes, exactly
  // when the base is no data URL, is not a lone slash and holds no earlier marker.
  lemma ParseUndoesPrint(key: Text, baseUrl: Text, accepts: Text -> bool)
    requires LStripSlash(key) != []
    ensures
      var c := RStripSlash(baseUrl);
      GoodBase(c, accepts) ==>
        (UploadKeyFromImageUrl(AttachmentUrlFromKey(key, baseUrl), accepts) == Key(LStripSlash(key))
         <==> !IsData(c) && !LoneSlash(c) && !EarlierMarker(Unquote(BasePath(c))))
  {
    var c, k := RStripSlash(baseUrl), LStripSlash(key);
    DataIsOfBase(c, MARKER + Quote(k));
    if GoodBase(c, accepts) && !IsData(c) {
      if LoneSlash(c) {
        LoneSlashLosesKey(c, k, accepts);
      } else {
        ParsePrinted(c, k, accepts);
        KeyFound(Unquote(BasePath(c)), k);
      }
    }
  }

  // A key of slashes only has no remainder: its URL ends in the marker and names no key.
  lemma EmptyKeyHasNone(key: Text, baseUrl: Text, accepts: Text -> bool)
    requires LStripSlash(key) == []
    requires GoodBase(RStripSlash(baseUrl), accepts) && !LoneSlash(RStripSlash(baseUrl))
    requires !EarlierMarker(Unquote(BasePath(RStripSlash(baseUrl))))
    ensures UploadKeyFromImageUrl(AttachmentUrlFromKey(key, baseUrl), accepts) == NoKey
  {
    var c := RStripSlash(baseUrl);
    DataIsOfBase(c, MARKER + Quote([]));
    if !IsData(c) {
      ParsePrinted(c, [], accepts);
      var u := Unquote(BasePath(c));
      FirstMarker(u, []);
      assert (u + (MARKER + []))[|u| + 17..] == [];
    }
  }
}
