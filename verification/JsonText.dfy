/**
 JSON texts as the delivery pipeline writes and reads them (src/infra/websocket.py): the
 ASCII-escaped form of the delivery envelope, the non-escaped form sent to sockets, and the
 decoder between them (section 7 of RFC 8259).  A text is a sequence of code points and, as
 in Python, may contain surrogates on their own.
 */
module JsonText {
  import opened Basics

  type CodePoint = c: int | 0 <= c <= 0x10FFFF
  type Text = seq<CodePoint>

  datatype Json = Null | True | False | Num(token: Text) | Str(text: Text) | Arr(items: Items) | Obj(members: Members)
  datatype Items = Nil | Cons(head: Json, tail: Items)
  datatype Members = End | Member(key: Text, value: Json, rest: Members)

  // The code points of a text without surrogates.
  function Codes(s: string): (t: Text)
    ensures |t| == |s|
  {
    seq(|s|, i requires 0 <= i < |s| => s[i] as int)
  }

  const QUOTE: CodePoint := 34
  const BACKSLASH: CodePoint := 92
  const COMMA: CodePoint := 44
  const COLON: CodePoint := 58
  const SPACE: CodePoint := 32
  const OPEN_LIST: CodePoint := 91
  const CLOSE_LIST: CodePoint := 93
  const OPEN_DICT: CodePoint := 123
  const CLOSE_DICT: CodePoint := 125
  const NULL: Text := [110, 117, 108, 108]
  const TRUE: Text := [116, 114, 117, 101]
  const FALSE: Text := [102, 97, 108, 115, 101]

  predicate High(c: CodePoint) { 0xD800 <= c <= 0xDBFF }

  predicate Low(c: CodePoint) { 0xDC00 <= c <= 0xDFFF }

  predicate Surrogate(c: CodePoint) { High(c) || Low(c) }

  // Digits, signs, point and exponent letters: a number is kept as its token.
  predicate NumberChar(c: CodePoint) { 48 <= c <= 57 || c == 43 || c == 45 || c == 46 || c == 69 || c == 101 }

  predicate IsToken(t: Text) { t != [] && forall i :: 0 <= i < |t| ==> NumberChar(t[i]) }

  predicate ValidJson(v: Json) {
    match v
    case Num(token) => IsToken(token)
    case Arr(items) => ValidItems(items)
    case Obj(members) => ValidMembers(members)
    case _ => true
  }

  predicate ValidItems(items: Items) { items.Nil? || (ValidJson(items.head) && ValidItems(items.tail)) }

  predicate ValidMembers(ms: Members) { ms.End? || (ValidJson(ms.value) && ValidMembers(ms.rest)) }

  // ---------------------------------------------------------------- writing

  function HexDigit(n: int): CodePoint
    requires 0 <= n < 16
  {
    HexChar(n, 'a') as int
  }

  function HexEscape(n: int): Text
    requires 0 <= n < 0x10000
  {
    [BACKSLASH, 117, HexDigit(n / 0x1000), HexDigit(n / 0x100 % 0x10), HexDigit(n / 0x10 % 0x10), HexDigit(n % 0x10)]
  }

  // The two-character escapes: quote, backslash, \n, \r, \t, \f, \b.
  predicate HasShortEscape(c: CodePoint) { c == 34 || c == 92 || c == 10 || c == 13 || c == 9 || c == 12 || c == 8 }

  function ShortEscape(c: CodePoint): CodePoint
    requires HasShortEscape(c)
  {
    if c == 10 then 110 else if c == 13 then 114 else if c == 9 then 116
    else if c == 12 then 102 else if c == 8 then 98 else c
  }

  function HighHalf(c: CodePoint): CodePoint
    requires c >= 0x10000
  {
    0xD800 + (c - 0x10000) / 0x400
  }

  function LowHalf(c: CodePoint): CodePoint
    requires c >= 0x10000
  {
    0xDC00 + (c - 0x10000) % 0x400
  }

  // ensure_ascii: everything outside printable ASCII is escaped, in UTF-16 halves.
  function Escape(c: CodePoint, ascii: bool): Text {
    if HasShortEscape(c) then [BACKSLASH, ShortEscape(c)]
    else if 32 <= c <= 126 then [c]
    else if !ascii && c >= 32 then [c]
    else if c < 0x10000 then HexEscape(c)
    else HexEscape(HighHalf(c)) + HexEscape(LowHalf(c))
  }

  // With ensure_ascii everything is printable ASCII.
  lemma {:induction false} EscapedIsPrintable(t: Text)
    ensures forall i :: 0 <= i < |EscapeAll(t, true)| ==> 32 <= EscapeAll(t, true)[i] <= 126
  {
    if t != [] { EscapedIsPrintable(t[1..]); }
  }

  // Without ensure_ascii an escape adds ASCII characters only, and at most five of them.
  lemma RawEscapeFacts(c: CodePoint)
    requires !Surrogate(c)
    ensures var r := Escape(c, false); 1 <= |r| <= 6 && forall i :: 0 <= i < |r| ==> !Surrogate(r[i])
  {}

  function EscapeAll(t: Text, ascii: bool): Text {
    if t == [] then [] else Escape(t[0], ascii) + EscapeAll(t[1..], ascii)
  }

  function Quoted(t: Text, ascii: bool): Text { [QUOTE] + (EscapeAll(t, ascii) + [QUOTE]) }

  function Dumps(v: Json, ascii: bool): Text
    decreases v, 0
  {
    match v
    case Null => NULL
    case True => TRUE
    case False => FALSE
    case Num(token) => token
    case Str(t) => Quoted(t, ascii)
    case Arr(items) => [OPEN_LIST] + (DumpItems(items, ascii) + [CLOSE_LIST])
    case Obj(members) => [OPEN_DICT] + (DumpMembers(members, ascii) + [CLOSE_DICT])
  }

  function DumpItems(items: Items, ascii: bool): Text
    decreases items, 0
  {
    match items
    case Nil => []
    case Cons(v, Nil) => Dumps(v, ascii)
    case Cons(v, rest) => Dumps(v, ascii) + ([COMMA, SPACE] + DumpItems(rest, ascii))
  }

  function DumpMember(key: Text, v: Json, ascii: bool): Text
    decreases v, 1
  {
    Quoted(key, ascii) + ([COLON, SPACE] + Dumps(v, ascii))
  }

  function DumpMembers(ms: Members, ascii: bool): Text
    decreases ms, 0
  {
    match ms
    case End => []
    case Member(k, v, End) => DumpMember(k, v, ascii)
    case Member(k, v, rest) => DumpMember(k, v, ascii) + ([COMMA, SPACE] + DumpMembers(rest, ascii))
  }

  // ---------------------------------------------------------------- sizes

  // Octets of one code point in UTF-8 (section 3 of RFC 3629).
  function Utf8Length(c: CodePoint): nat {
    if c < 0x80 then 1 else if c < 0x800 then 2 else if c < 0x10000 then 3 else 4
  }

  function Utf8Size(t: Text): nat { if t == [] then 0 else Utf8Length(t[0]) + Utf8Size(t[1..]) }

  // The octets themselves, and reading them back.
  function Utf8(c: CodePoint): (octets: seq<nat>)
    ensures |octets| == Utf8Length(c) && forall i :: 0 <= i < |octets| ==> octets[i] < 256
  {
    if c < 0x80 then [c]
    else if c < 0x800 then [0xC0 + c / 0x40, 0x80 + c % 0x40]
    else if c < 0x10000 then [0xE0 + c / 0x1000, 0x80 + c / 0x40 % 0x40, 0x80 + c % 0x40]
    else [0xF0 + c / 0x40000, 0x80 + c / 0x1000 % 0x40, 0x80 + c / 0x40 % 0x40, 0x80 + c % 0x40]
  }

  // The code point that starts a sequence of octets, by its first one, and the octets it takes.
  function FromUtf8(octets: seq<nat>): Option<(nat, nat)> {
    if |octets| >= 1 && octets[0] < 0x80 then Some((octets[0], 1))
    else if |octets| >= 2 && 0xC0 <= octets[0] < 0xE0 && octets[1] >= 0x80
    then Some(((octets[0] - 0xC0) * 0x40 + (octets[1] - 0x80), 2))
    else if |octets| >= 3 && 0xE0 <= octets[0] < 0xF0 && octets[1] >= 0x80 && octets[2] >= 0x80
    then Some(((octets[0] - 0xE0) * 0x1000 + (octets[1] - 0x80) * 0x40 + (octets[2] - 0x80), 3))
    else if |octets| >= 4 && 0xF0 <= octets[0] < 0xF8 && octets[1] >= 0x80 && octets[2] >= 0x80 && octets[3] >= 0x80
    then Some(((octets[0] - 0xF0) * 0x40000 + (octets[1] - 0x80) * 0x1000 + (octets[2] - 0x80) * 0x40 + (octets[3] - 0x80), 4))
    else None
  }

  // What Utf8Length counts are octets from which the code point comes back.
  lemma Utf8RoundTrip(c: CodePoint, rest: seq<nat>)
    ensures FromUtf8(Utf8(c) + rest) == Some((c, Utf8Length(c)))
  {
    FirstOctets(Utf8(c), rest);
    DecodesAlone(c);
  }

  lemma SixBits(c: CodePoint)
    ensures c == 0x40 * (c / 0x40) + c % 0x40 && c / 0x40 == 0x40 * (c / 0x1000) + c / 0x40 % 0x40
    ensures c / 0x1000 == 0x40 * (c / 0x40000) + c / 0x1000 % 0x40
  {}

  lemma DecodesAlone(c: CodePoint)
    ensures FromUtf8(Utf8(c)) == Some((c, Utf8Length(c)))
  {
    SixBits(c);
  }

  // What follows makes no difference.
  lemma FirstOctets(octets: seq<nat>, rest: seq<nat>)
    ensures FromUtf8(octets).Some? ==> FromUtf8(octets + rest) == FromUtf8(octets)
  {
    assert forall i :: 0 <= i < |octets| ==> (octets + rest)[i] == octets[i];
  }

  lemma {:induction false} Utf8SizeAppend(a: Text, b: Text)
    ensures Utf8Size(a + b) == Utf8Size(a) + Utf8Size(b)
  {
    if a == [] {
      assert a + b == b;
    } else {
      assert (a + b)[1..] == a[1..] + b;
      Utf8SizeAppend(a[1..], b);
    }
  }

  predicate Ascii(t: Text) { forall i :: 0 <= i < |t| ==> t[i] < 0x80 }

  lemma {:induction false} AsciiSize(t: Text)
    requires Ascii(t)
    ensures Utf8Size(t) == |t|
  {
    if t != [] { AsciiSize(t[1..]); }
  }

  // One code point never takes more octets raw than characters escaped.
  lemma EscapeSizes(c: CodePoint)
    ensures Ascii(Escape(c, true)) && Utf8Size(Escape(c, false)) <= |Escape(c, true)|
  {
    var raw := Escape(c, false);
    if |raw| == 1 {
      assert raw[1..] == [];
    } else {
      assert raw == Escape(c, true);
      AsciiSize(raw);
    }
  }

  lemma {:induction false} QuotedSizes(t: Text)
    ensures Ascii(EscapeAll(t, true)) && Utf8Size(EscapeAll(t, false)) <= |EscapeAll(t, true)|
    ensures Ascii(Quoted(t, true)) && Utf8Size(Quoted(t, false)) <= |Quoted(t, true)|
  {
    if t != [] {
      EscapeSizes(t[0]);
      QuotedSizes(t[1..]);
      Utf8SizeAppend(Escape(t[0], false), EscapeAll(t[1..], false));
    }
    Utf8SizeAppend(EscapeAll(t, false), [QUOTE]);
    Utf8SizeAppend([QUOTE], EscapeAll(t, false) + [QUOTE]);
    AsciiSize([QUOTE]);
  }

  // The ASCII form is ASCII, and the raw form of every value is no longer in octets.
  lemma {:induction false} DumpsSizes(v: Json)
    requires ValidJson(v)
    ensures Ascii(Dumps(v, true)) && Utf8Size(Dumps(v, false)) <= |Dumps(v, true)|
  {
    match v
    case Null => AsciiSize(NULL);
    case True => AsciiSize(TRUE);
    case False => AsciiSize(FALSE);
    case Num(token) => AsciiSize(token);
    case Str(t) => QuotedSizes(t);
    case Arr(items) =>
      ItemsSizes(items);
      BracketSizes(OPEN_LIST, DumpItems(items, true), DumpItems(items, false), CLOSE_LIST);
    case Obj(members) =>
      MembersSizes(members);
      BracketSizes(OPEN_DICT, DumpMembers(members, true), DumpMembers(members, false), CLOSE_DICT);
  }

  lemma BracketSizes(open: CodePoint, a: Text, r: Text, close: CodePoint)
    requires open < 0x80 && close < 0x80 && Ascii(a) && Utf8Size(r) <= |a|
    ensures Ascii([open] + (a + [close])) && Utf8Size([open] + (r + [close])) <= |[open] + (a + [close])|
  {
    Utf8SizeAppend(r, [close]);
    Utf8SizeAppend([open], r + [close]);
    AsciiSize([open]);
    AsciiSize([close]);
  }

  lemma SeparatedSizes(a1: Text, r1: Text, sep: Text, a2: Text, r2: Text)
    requires Ascii(sep) && Ascii(a1) && Ascii(a2) && Utf8Size(r1) <= |a1| && Utf8Size(r2) <= |a2|
    ensures Ascii(a1 + (sep + a2)) && Utf8Size(r1 + (sep + r2)) <= |a1 + (sep + a2)|
  {
    AsciiSize(sep);
    Utf8SizeAppend(sep, r2);
    Utf8SizeAppend(r1, sep + r2);
  }

  lemma {:induction false} ItemsSizes(items: Items)
    requires ValidItems(items)
    ensures Ascii(DumpItems(items, true)) && Utf8Size(DumpItems(items, false)) <= |DumpItems(items, true)|
  {
    if items.Cons? {
      DumpsSizes(items.head);
      ItemsSizes(items.tail);
      SeparatedSizes(Dumps(items.head, true), Dumps(items.head, false), [COMMA, SPACE],
                     DumpItems(items.tail, true), DumpItems(items.tail, false));
    }
  }

  lemma {:induction false} MembersSizes(ms: Members)
    requires ValidMembers(ms)
    ensures Ascii(DumpMembers(ms, true)) && Utf8Size(DumpMembers(ms, false)) <= |DumpMembers(ms, true)|
  {
    if ms.Member? {
      QuotedSizes(ms.key);
      DumpsSizes(ms.value);
      SeparatedSizes(Quoted(ms.key, true), Quoted(ms.key, false), [COLON, SPACE],
                     Dumps(ms.value, true), Dumps(ms.value, false));
      MembersSizes(ms.rest);
      SeparatedSizes(DumpMember(ms.key, ms.value, true), DumpMember(ms.key, ms.value, false), [COMMA, SPACE],
                     DumpMembers(ms.rest, true), DumpMembers(ms.rest, false));
    }
  }

  // ---------------------------------------------------------------- reading

  predicate IsHex(c: CodePoint) { 48 <= c <= 57 || 97 <= c <= 102 || 65 <= c <= 70 }

  function HexValue(c: CodePoint): (n: int)
    requires IsHex(c)
    ensures 0 <= n < 16
  {
    if c <= 57 then c - 48 else if c >= 97 then c - 87 else c - 55
  }

  // Four hexadecimal digits at the start of s.
  function HexFour(s: Text): (n: Option<int>)
    ensures n.Some? ==> |s| >= 4 && 0 <= n.value < 0x10000
  {
    if |s| >= 4 && IsHex(s[0]) && IsHex(s[1]) && IsHex(s[2]) && IsHex(s[3])
    then Some(0x1000 * HexValue(s[0]) + 0x100 * HexValue(s[1]) + 0x10 * HexValue(s[2]) + HexValue(s[3]))
    else None
  }

  function ShortValue(c: CodePoint): Option<CodePoint> {
    if c == 110 then Some(10) else if c == 114 then Some(13) else if c == 116 then Some(9)
    else if c == 102 then Some(12) else if c == 98 then Some(8)
    else if c == 34 || c == 92 || c == 47 then Some(c) else None
  }

  function Combined(high: CodePoint, low: CodePoint): CodePoint
    requires High(high) && Low(low)
  {
    0x10000 + (high - 0xD800) * 0x400 + (low - 0xDC00)
  }

  datatype Parsed<T> = Fail | Got(value: T, rest: Text)

  // The low half escaped at the start of s, if there is one.
  function LowEscape(s: Text): Option<CodePoint> {
    if |s| >= 2 && s[0] == BACKSLASH && s[1] == 117 && HexFour(s[2..]).Some? && Low(HexFour(s[2..]).value)
    then Some(HexFour(s[2..]).value) else None
  }

  function Prefixed(c: CodePoint, p: Parsed<Text>): Parsed<Text> {
    if p.Got? then Got([c] + p.value, p.rest) else Fail
  }

  // The rest of a string after its opening quote.  An escaped high half directly followed
  // by an escaped low half is one code point.
  function ScanString(s: Text): (p: Parsed<Text>)
    ensures p.Got? ==> |p.rest| < |s|
    decreases |s|
  {
    if s == [] then Fail
    else if s[0] == QUOTE then Got([], s[1..])
    else if s[0] < 32 then Fail
    else if s[0] != BACKSLASH then Prefixed(s[0], ScanString(s[1..]))
    else if |s| < 2 then Fail
    else if s[1] != 117 then
      (var c := ShortValue(s[1]);
       if c.None? then Fail else Prefixed(c.value, ScanString(s[2..])))
    else
      var n := HexFour(s[2..]);
      if n.None? then Fail
      else if High(n.value) && LowEscape(s[6..]).Some?
      then Prefixed(Combined(n.value, LowEscape(s[6..]).value), ScanString(s[12..]))
      else Prefixed(n.value, ScanString(s[6..]))
  }

  function SkipSpace(s: Text): (r: Text)
    ensures |r| <= |s|
  {
    if s != [] && (s[0] == 32 || s[0] == 9 || s[0] == 10 || s[0] == 13) then SkipSpace(s[1..]) else s
  }

  predicate Blank(c: CodePoint) { c in {0x20, 0x09, 0x0A, 0x0D} }

  // Exactly the blanks in front go (section 2 of RFC 8259).
  lemma {:induction false} BlanksGo(s: Text)
    ensures var r := SkipSpace(s);
            && r == s[|s| - |r|..] && (r == [] || !Blank(r[0]))
            && forall i :: 0 <= i < |s| - |r| ==> Blank(s[i])
  {
    if s != [] && Blank(s[0]) {
      BlanksGo(s[1..]);
      assert forall i :: 0 < i < |s| ==> s[i] == s[1..][i - 1];
    }
  }

  // Escapes that a reader accepts although the printer does not write them: letters of
  // either case as digits, and an escaped slash.
  lemma OtherEscapes(n: nat, tail: Text)
    requires n < 16
    ensures HexValue(HexChar(n, 'A') as int) == n && HexValue(HexChar(n, 'a') as int) == n
    ensures ScanString([BACKSLASH, 0x2F] + tail) == Prefixed(0x2F, ScanString(tail))
  {
    var s := [BACKSLASH, 0x2F] + tail;
    assert s[2..] == tail && s[0] == BACKSLASH && s[1] == 0x2F;
  }

  function TokenLength(s: Text): (n: nat)
    ensures n <= |s|
  {
    if s != [] && NumberChar(s[0]) then 1 + TokenLength(s[1..]) else 0
  }

  function ParseValue(s: Text): (p: Parsed<Json>)
    ensures p.Got? ==> |p.rest| < |s|
    decreases |s|, 0
  {
    if s == [] then Fail
    else if s[0] == QUOTE then
      var p := ScanString(s[1..]);
      if p.Got? then Got(Str(p.value), p.rest) else Fail
    else if s[0] == OPEN_LIST then
      var r := SkipSpace(s[1..]);
      if r != [] && r[0] == CLOSE_LIST then Got(Arr(Nil), r[1..])
      else
        var p := ParseItems(r);
        if p.Got? then Got(Arr(p.value), p.rest) else Fail
    else if s[0] == OPEN_DICT then
      var r := SkipSpace(s[1..]);
      if r != [] && r[0] == CLOSE_DICT then Got(Obj(End), r[1..])
      else
        var p := ParseMembers(r);
        if p.Got? then Got(Obj(p.value), p.rest) else Fail
    else if NULL <= s then Got(Null, s[4..])
    else if TRUE <= s then Got(True, s[4..])
    else if FALSE <= s then Got(False, s[5..])
    else if TokenLength(s) > 0 then Got(Num(s[..TokenLength(s)]), s[TokenLength(s)..])
    else Fail
  }

  // Values up to the closing bracket, which is consumed.
  function ParseItems(s: Text): (p: Parsed<Items>)
    ensures p.Got? ==> |p.rest| < |s|
    decreases |s|, 1
  {
    var v := ParseValue(s);
    if v.Fail? then Fail
    else
      var r := SkipSpace(v.rest);
      if r == [] then Fail
      else if r[0] == CLOSE_LIST then Got(Cons(v.value, Nil), r[1..])
      else if r[0] == COMMA then
        var p := ParseItems(SkipSpace(r[1..]));
        if p.Got? then Got(Cons(v.value, p.value), p.rest) else Fail
      else Fail
  }

  function ParseMembers(s: Text): (p: Parsed<Members>)
    ensures p.Got? ==> |p.rest| < |s|
    decreases |s|, 1
  {
    if s == [] || s[0] != QUOTE then Fail
    else
      var k := ScanString(s[1..]);
      if k.Fail? then Fail
      else
        var r := SkipSpace(k.rest);
        if r == [] || r[0] != COLON then Fail
        else
          var v := ParseValue(SkipSpace(r[1..]));
          if v.Fail? then Fail
          else
            var q := SkipSpace(v.rest);
            if q == [] then Fail
            else if q[0] == CLOSE_DICT then Got(Member(k.value, v.value, End), q[1..])
            else if q[0] == COMMA then
              var p := ParseMembers(SkipSpace(q[1..]));
              if p.Got? then Got(Member(k.value, v.value, p.value), p.rest) else Fail
            else Fail
  }

  function Loads(s: Text): Option<Json> {
    var p := ParseValue(SkipSpace(s));
    if p.Got? && SkipSpace(p.rest) == [] then Some(p.value) else None
  }

  // ---------------------------------------------------------------- round trip

  // What decoding makes of a text: each high surrogate directly before a low one becomes
  // the code point they stand for.
  function Join(t: Text): Text {
    if t == [] then []
    else if |t| >= 2 && High(t[0]) && Low(t[1]) then [Combined(t[0], t[1])] + Join(t[2..])
    else [t[0]] + Join(t[1..])
  }

  function Joined(v: Json): Json {
    match v
    case Str(t) => Str(Join(t))
    case Arr(items) => Arr(JoinedItems(items))
    case Obj(members) => Obj(JoinedMembers(members))
    case _ => v
  }

  function JoinedItems(items: Items): Items {
    match items case Nil => Nil case Cons(v, rest) => Cons(Joined(v), JoinedItems(rest))
  }

  function JoinedMembers(ms: Members): Members {
    match ms case End => End case Member(k, v, rest) => Member(Join(k), Joined(v), JoinedMembers(rest))
  }

  lemma DigitRoundTrip(k: int)
    requires 0 <= k < 16
    ensures IsHex(HexDigit(k)) && HexValue(HexDigit(k)) == k
  {}

  lemma DigitsOf(n: int)
    requires 0 <= n < 0x10000
    ensures 0 <= n / 0x1000 < 16
    ensures 0x1000 * (n / 0x1000) + 0x100 * (n / 0x100 % 0x10) + 0x10 * (n / 0x10 % 0x10) + n % 0x10 == n
  {}

  lemma HexRoundTrip(n: int, rest: Text)
    requires 0 <= n < 0x10000
    ensures HexFour((HexEscape(n) + rest)[2..]) == Some(n)
    ensures (HexEscape(n) + rest)[6..] == rest
  {
    DigitsOf(n);
    var (a, b, c, d) := (n / 0x1000, n / 0x100 % 0x10, n / 0x10 % 0x10, n % 0x10);
    DigitRoundTrip(a);
    DigitRoundTrip(b);
    DigitRoundTrip(c);
    DigitRoundTrip(d);
    var s := (HexEscape(n) + rest)[2..];
    assert |s| >= 4 && s[0] == HexDigit(a) && s[1] == HexDigit(b) && s[2] == HexDigit(c) && s[3] == HexDigit(d);
  }

  lemma HalvesRoundTrip(c: CodePoint)
    requires c >= 0x10000
    ensures High(HighHalf(c)) && Low(LowHalf(c)) && Combined(HighHalf(c), LowHalf(c)) == c
  {}

  lemma CombinedRoundTrip(high: CodePoint, low: CodePoint)
    requires High(high) && Low(low)
    ensures Combined(high, low) >= 0x10000
    ensures HighHalf(Combined(high, low)) == high && LowHalf(Combined(high, low)) == low
  {}

  lemma LowEscapeOfHex(n: CodePoint, tail: Text)
    requires n < 0x10000
    ensures LowEscape(HexEscape(n) + tail) == if Low(n) then Some(n) else None
  {
    HexRoundTrip(n, tail);
    var s := HexEscape(n) + tail;
    assert |s| >= 2 && s[0] == BACKSLASH && s[1] == 117;
  }

  lemma LowEscapeOfOther(s: Text)
    requires |s| >= 2 ==> s[0] != BACKSLASH || s[1] != 117
    ensures LowEscape(s) == None
  {}

  lemma LowEscapeOfPlain(c: CodePoint, tail: Text)
    requires HasShortEscape(c) || 32 <= c <= 126
    ensures LowEscape(Escape(c, true) + tail) == None
  {
    var s := Escape(c, true) + tail;
    assert s[0] == Escape(c, true)[0];
    if HasShortEscape(c) { assert s[1] == ShortEscape(c); }
    LowEscapeOfOther(s);
  }

  lemma LowEscapeOfPair(high: CodePoint, low: CodePoint, tail: Text)
    requires High(high) && low < 0x10000
    ensures LowEscape((HexEscape(high) + HexEscape(low)) + tail) == None
  {
    Assoc(HexEscape(high), HexEscape(low), tail);
    LowEscapeOfHex(high, HexEscape(low) + tail);
  }

  lemma LowEscapeOf(c: CodePoint, tail: Text)
    ensures LowEscape(Escape(c, true) + tail) == if Low(c) then Some(c) else None
  {
    if HasShortEscape(c) || 32 <= c <= 126 {
      LowEscapeOfPlain(c, tail);
    } else if c < 0x10000 {
      LowEscapeOfHex(c, tail);
    } else {
      HalvesRoundTrip(c);
      LowEscapeOfPair(HighHalf(c), LowHalf(c), tail);
    }
  }

  // A low half is escaped at the start of the escapes of t exactly when t starts with one.
  lemma LowEscapeAtStart(t: Text, rest: Text)
    requires rest == [] || rest[0] == QUOTE
    ensures LowEscape(EscapeAll(t, true) + rest) == if t != [] && Low(t[0]) then Some(t[0]) else None
  {
    if t == [] {
      AppendEmpty(rest);
      LowEscapeOfOther(rest);
    } else {
      Assoc(Escape(t[0], true), EscapeAll(t[1..], true), rest);
      LowEscapeOf(t[0], EscapeAll(t[1..], true) + rest);
    }
  }

  // Scanning past two escaped halves.
  lemma ScanPair(high: CodePoint, low: CodePoint, tail: Text)
    requires High(high) && Low(low)
    ensures ScanString(HexEscape(high) + (HexEscape(low) + tail)) == Prefixed(Combined(high, low), ScanString(tail))
  {
    var after := HexEscape(low) + tail;
    var s := HexEscape(high) + after;
    HexRoundTrip(high, after);
    HexRoundTrip(low, tail);
    assert after[0] == BACKSLASH && after[1] == 117;
    assert LowEscape(s[6..]) == Some(low);
    assert s[12..] == s[6..][6..] == tail;
  }

  lemma ScanHex(n: CodePoint, tail: Text)
    requires n < 0x10000 && (High(n) ==> LowEscape(tail).None?)
    ensures ScanString(HexEscape(n) + tail) == Prefixed(n, ScanString(tail))
  {
    var s := HexEscape(n) + tail;
    HexRoundTrip(n, tail);
    assert s[0] == BACKSLASH && s[1] == 117;
  }

  lemma ScanShort(c: CodePoint, tail: Text)
    requires HasShortEscape(c)
    ensures ScanString([BACKSLASH, ShortEscape(c)] + tail) == Prefixed(c, ScanString(tail))
  {
    var s := [BACKSLASH, ShortEscape(c)] + tail;
    assert s[0] == BACKSLASH && s[1] == ShortEscape(c) && s[2..] == tail;
    assert ShortValue(s[1]) == Some(c);
  }

  lemma ScanPlain(c: CodePoint, tail: Text)
    requires 32 <= c && c != QUOTE && c != BACKSLASH
    ensures ScanString([c] + tail) == Prefixed(c, ScanString(tail))
  {
    assert ([c] + tail)[1..] == tail;
  }

  // Scanning past one escaped code point that does not pair with what follows.
  lemma ScanOne(c: CodePoint, tail: Text)
    requires High(c) ==> LowEscape(tail).None?
    ensures ScanString(Escape(c, true) + tail) == Prefixed(c, ScanString(tail))
  {
    if HasShortEscape(c) {
      ScanShort(c, tail);
    } else if 32 <= c <= 126 {
      ScanPlain(c, tail);
    } else if c < 0x10000 {
      ScanHex(c, tail);
    } else {
      HalvesRoundTrip(c);
      Assoc(HexEscape(HighHalf(c)), HexEscape(LowHalf(c)), tail);
      ScanPair(HighHalf(c), LowHalf(c), tail);
    }
  }

  // The escapes of a text, split after the first code point and after the first two halves.
  lemma EscapeFirst(t: Text, rest: Text)
    requires t != []
    ensures EscapeAll(t, true) + rest == Escape(t[0], true) + (EscapeAll(t[1..], true) + rest)
  {
    Assoc(Escape(t[0], true), EscapeAll(t[1..], true), rest);
  }

  lemma EscapePair(t: Text, rest: Text)
    requires |t| >= 2 && High(t[0]) && Low(t[1])
    ensures EscapeAll(t, true) + rest
            == HexEscape(t[0]) + (HexEscape(t[1]) + (EscapeAll(t[2..], true) + rest))
  {
    EscapeFirst(t, rest);
    EscapeFirst(t[1..], rest);
    assert t[1..][1..] == t[2..];
  }

  lemma {:induction false} ScanRoundTrip(t: Text, rest: Text)
    ensures ScanString(EscapeAll(t, true) + ([QUOTE] + rest)) == Got(Join(t), rest)
    decreases |t|
  {
    var end := [QUOTE] + rest;
    if t == [] {
      AppendEmpty(end);
      assert end[1..] == rest;
    } else if |t| >= 2 && High(t[0]) && Low(t[1]) {
      EscapePair(t, end);
      ScanPair(t[0], t[1], EscapeAll(t[2..], true) + end);
      ScanRoundTrip(t[2..], rest);
    } else {
      EscapeFirst(t, end);
      LowEscapeAtStart(t[1..], end);
      ScanOne(t[0], EscapeAll(t[1..], true) + end);
      ScanRoundTrip(t[1..], rest);
    }
  }

  lemma {:induction false} TokenRoundTrip(token: Text, rest: Text)
    requires forall i :: 0 <= i < |token| ==> NumberChar(token[i])
    requires rest == [] || !NumberChar(rest[0])
    ensures TokenLength(token + rest) == |token|
  {
    if token == [] {
      assert token + rest == rest;
    } else {
      assert (token + rest)[1..] == token[1..] + rest;
      TokenRoundTrip(token[1..], rest);
    }
  }

  // What may follow a value: nothing that would prolong a number.

  // Scanning past one raw code point.
  lemma ScanRaw(c: CodePoint, tail: Text)
    ensures ScanString(Escape(c, false) + tail) == Prefixed(c, ScanString(tail))
  {
    if HasShortEscape(c) {
      ScanShort(c, tail);
    } else if c >= 32 {
      ScanPlain(c, tail);
    } else {
      ScanHex(c, tail);
    }
  }

  // Without ensure_ascii every text comes back as it was.
  lemma {:induction false} RawScanRoundTrip(t: Text, rest: Text)
    ensures ScanString(EscapeAll(t, false) + ([QUOTE] + rest)) == Got(t, rest)
  {
    var end := [QUOTE] + rest;
    if t == [] {
      AppendEmpty(end);
      assert end[1..] == rest;
    } else {
      assert t == [t[0]] + t[1..];
      Assoc(Escape(t[0], false), EscapeAll(t[1..], false), end);
      ScanRaw(t[0], EscapeAll(t[1..], false) + end);
      RawScanRoundTrip(t[1..], rest);
    }
  }

  // What decoding makes of a text and of a value, by the form they were written in.
  function TextBack(t: Text, ascii: bool): Text { if ascii then Join(t) else t }

  function ValueBack(v: Json, ascii: bool): Json { if ascii then Joined(v) else v }

  function ItemsBack(items: Items, ascii: bool): Items { if ascii then JoinedItems(items) else items }

  function MembersBack(ms: Members, ascii: bool): Members { if ascii then JoinedMembers(ms) else ms }

  lemma ScanBack(t: Text, ascii: bool, rest: Text)
    ensures ScanString(EscapeAll(t, ascii) + ([QUOTE] + rest)) == Got(TextBack(t, ascii), rest)
  {
    if ascii { ScanRoundTrip(t, rest); } else { RawScanRoundTrip(t, rest); }
  }

  predicate Delimited(rest: Text) { rest == [] || !NumberChar(rest[0]) }

  // The first character of a value's text is no space and closes no bracket.
  lemma DumpsStart(v: Json, ascii: bool)
    requires ValidJson(v)
    ensures var d := Dumps(v, ascii);
            d != [] && d[0] > 32 && d[0] != CLOSE_LIST && d[0] != CLOSE_DICT && d[0] != COMMA
  {}

  lemma NoSpace(s: Text)
    requires s != [] && s[0] > 32
    ensures SkipSpace(s) == s
  {}

  lemma OneSpace(s: Text)
    requires s != [] && s[0] > 32
    ensures SkipSpace([SPACE] + s) == s
  {
    assert ([SPACE] + s)[1..] == s;
  }

  // How the parser goes on, one construct at a time.
  lemma ParseText(t: Text, rest: Text, ascii: bool)
    ensures ParseValue(Quoted(t, ascii) + rest) == Got(Str(TextBack(t, ascii)), rest)
  {
    Enclosed(QUOTE, EscapeAll(t, ascii), QUOTE, rest);
    assert (Quoted(t, ascii) + rest)[1..] == EscapeAll(t, ascii) + ([QUOTE] + rest);
    ScanBack(t, ascii, rest);
  }

  lemma ParseList(s: Text)
    requires s != [] && s[0] > 32 && s[0] != CLOSE_LIST
    ensures var p := ParseItems(s);
            ParseValue([OPEN_LIST] + s) == if p.Got? then Got(Arr(p.value), p.rest) else Fail
  {
    assert ([OPEN_LIST] + s)[1..] == s;
    NoSpace(s);
  }

  lemma ParseDict(s: Text)
    requires s != [] && s[0] == QUOTE
    ensures var p := ParseMembers(s);
            ParseValue([OPEN_DICT] + s) == if p.Got? then Got(Obj(p.value), p.rest) else Fail
  {
    assert ([OPEN_DICT] + s)[1..] == s;
    NoSpace(s);
  }

  lemma ParseEmpty(rest: Text)
    ensures ParseValue([OPEN_LIST] + ([CLOSE_LIST] + rest)) == Got(Arr(Nil), rest)
    ensures ParseValue([OPEN_DICT] + ([CLOSE_DICT] + rest)) == Got(Obj(End), rest)
  {
    assert ([OPEN_LIST] + ([CLOSE_LIST] + rest))[1..] == [CLOSE_LIST] + rest;
    assert ([OPEN_DICT] + ([CLOSE_DICT] + rest))[1..] == [CLOSE_DICT] + rest;
    assert ([CLOSE_LIST] + rest)[1..] == rest;
    assert ([CLOSE_DICT] + rest)[1..] == rest;
  }

  lemma ParseLastItem(s: Text, v: Json, rest: Text)
    requires ParseValue(s) == Got(v, [CLOSE_LIST] + rest)
    ensures ParseItems(s) == Got(Cons(v, Nil), rest)
  {
    NoSpace([CLOSE_LIST] + rest);
    assert ([CLOSE_LIST] + rest)[1..] == rest;
  }

  lemma ParseNextItem(s: Text, v: Json, next: Text)
    requires next != [] && next[0] > 32 && ParseValue(s) == Got(v, [COMMA] + ([SPACE] + next))
    ensures var p := ParseItems(next);
            ParseItems(s) == if p.Got? then Got(Cons(v, p.value), p.rest) else Fail
  {
    var sep := [COMMA] + ([SPACE] + next);
    NoSpace(sep);
    assert sep[1..] == [SPACE] + next;
    OneSpace(next);
  }

  // Key, colon and value at the start of s, with `after` behind them.
  ghost predicate MemberAt(s: Text, key: Text, v: Json, after: Text) {
    && s != [] && s[0] == QUOTE
    && ScanString(s[1..]).Got? && ScanString(s[1..]).value == key
    && var r := ScanString(s[1..]).rest;
       r != [] && r[0] == COLON && SkipSpace(r) == r && ParseValue(SkipSpace(r[1..])) == Got(v, after)
  }

  lemma ParseLastMember(s: Text, key: Text, v: Json, rest: Text)
    requires MemberAt(s, key, v, [CLOSE_DICT] + rest)
    ensures ParseMembers(s) == Got(Member(key, v, End), rest)
  {
    NoSpace([CLOSE_DICT] + rest);
    assert ([CLOSE_DICT] + rest)[1..] == rest;
  }

  lemma ParseNextMember(s: Text, key: Text, v: Json, next: Text)
    requires next != [] && next[0] > 32 && MemberAt(s, key, v, [COMMA] + ([SPACE] + next))
    ensures var p := ParseMembers(next);
            ParseMembers(s) == if p.Got? then Got(Member(key, v, p.value), p.rest) else Fail
  {
    var sep := [COMMA] + ([SPACE] + next);
    NoSpace(sep);
    assert sep[1..] == [SPACE] + next;
    OneSpace(next);
  }

  lemma MemberStart(key: Text, v: Json, after: Text, parsed: Json, ascii: bool)
    requires ValidJson(v) && ParseValue(Dumps(v, ascii) + after) == Got(parsed, after)
    ensures MemberAt(Quoted(key, ascii) + ([COLON] + ([SPACE] + (Dumps(v, ascii) + after))), TextBack(key, ascii), parsed, after)
  {
    var value := Dumps(v, ascii) + after;
    var colon := [COLON] + ([SPACE] + value);
    var s := Quoted(key, ascii) + colon;
    Enclosed(QUOTE, EscapeAll(key, ascii), QUOTE, colon);
    assert s[1..] == EscapeAll(key, ascii) + ([QUOTE] + colon);
    ScanBack(key, ascii, colon);
    NoSpace(colon);
    assert colon[1..] == [SPACE] + value;
    ValueStart(v, after, ascii);
  }

  lemma ValueStart(v: Json, after: Text, ascii: bool)
    requires ValidJson(v)
    ensures SkipSpace([SPACE] + (Dumps(v, ascii) + after)) == Dumps(v, ascii) + after
  {
    DumpsStart(v, ascii);
    OneSpace(Dumps(v, ascii) + after);
  }

  lemma ColonSeparated(a: Text, b: Text, c: Text)
    ensures (a + ([COLON, SPACE] + b)) + c == a + ([COLON] + ([SPACE] + (b + c)))
  {}

  lemma MemberText(key: Text, v: Json, after: Text, ascii: bool)
    ensures DumpMember(key, v, ascii) + after == Quoted(key, ascii) + ([COLON] + ([SPACE] + (Dumps(v, ascii) + after)))
  {
    ColonSeparated(Quoted(key, ascii), Dumps(v, ascii), after);
  }

  lemma LastMemberRoundTrip(key: Text, v: Json, rest: Text, ascii: bool)
    requires ValidJson(v) && ParseValue(Dumps(v, ascii) + ([CLOSE_DICT] + rest)) == Got(ValueBack(v, ascii), [CLOSE_DICT] + rest)
    ensures ParseMembers(DumpMember(key, v, ascii) + ([CLOSE_DICT] + rest)) == Got(Member(TextBack(key, ascii), ValueBack(v, ascii), End), rest)
    ensures DumpMember(key, v, ascii) != [] && DumpMember(key, v, ascii)[0] == QUOTE
  {
    MemberText(key, v, [CLOSE_DICT] + rest, ascii);
    MemberStart(key, v, [CLOSE_DICT] + rest, ValueBack(v, ascii), ascii);
    ParseLastMember(DumpMember(key, v, ascii) + ([CLOSE_DICT] + rest), TextBack(key, ascii), ValueBack(v, ascii), rest);
  }

  lemma NextMemberRoundTrip(key: Text, v: Json, next: Text, ascii: bool)
    requires next != [] && next[0] > 32
    requires var sep := [COMMA] + ([SPACE] + next);
             ValidJson(v) && ParseValue(Dumps(v, ascii) + sep) == Got(ValueBack(v, ascii), sep)
    ensures var p := ParseMembers(next);
            ParseMembers(DumpMember(key, v, ascii) + ([COMMA] + ([SPACE] + next)))
            == if p.Got? then Got(Member(TextBack(key, ascii), ValueBack(v, ascii), p.value), p.rest) else Fail
    ensures DumpMember(key, v, ascii) != [] && DumpMember(key, v, ascii)[0] == QUOTE
  {
    var sep := [COMMA] + ([SPACE] + next);
    MemberText(key, v, sep, ascii);
    MemberStart(key, v, sep, ValueBack(v, ascii), ascii);
    ParseNextMember(DumpMember(key, v, ascii) + sep, TextBack(key, ascii), ValueBack(v, ascii), next);
  }

  lemma ParseConstants(rest: Text)
    ensures ParseValue(NULL + rest) == Got(Null, rest)
    ensures ParseValue(TRUE + rest) == Got(True, rest)
    ensures ParseValue(FALSE + rest) == Got(False, rest)
  {
    assert (NULL + rest)[4..] == rest;
    assert (TRUE + rest)[4..] == rest;
    assert (FALSE + rest)[5..] == rest;
  }

  lemma ParseNumber(token: Text, rest: Text)
    requires IsToken(token) && Delimited(rest)
    ensures ParseValue(token + rest) == Got(Num(token), rest)
  {
    TokenRoundTrip(token, rest);
    assert (token + rest)[..|token|] == token && (token + rest)[|token|..] == rest;
    assert NumberChar((token + rest)[0]);
  }

  lemma Enclosed(open: CodePoint, a: Text, close: CodePoint, rest: Text)
    ensures ([open] + (a + [close])) + rest == [open] + (a + ([close] + rest))
  {}

  // json.loads(json.dumps(v)): reading back an escaped value gives the value with its texts
  // joined, and reading back a raw one the value itself.
  lemma {:induction false} ValueRoundTrip(v: Json, rest: Text, ascii: bool)
    requires ValidJson(v) && Delimited(rest)
    ensures ParseValue(Dumps(v, ascii) + rest) == Got(ValueBack(v, ascii), rest)
    decreases v, 0
  {
    match v
    case Null => ParseConstants(rest);
    case True => ParseConstants(rest);
    case False => ParseConstants(rest);
    case Num(token) => ParseNumber(token, rest);
    case Str(t) => ParseText(t, rest, ascii);
    case Arr(items) =>
      var s := DumpItems(items, ascii) + ([CLOSE_LIST] + rest);
      Enclosed(OPEN_LIST, DumpItems(items, ascii), CLOSE_LIST, rest);
      if items.Nil? {
        AppendEmpty([CLOSE_LIST] + rest);
        ParseEmpty(rest);
      } else {
        ItemsRoundTrip(items, rest, ascii);
        ParseList(s);
      }
    case Obj(members) =>
      var s := DumpMembers(members, ascii) + ([CLOSE_DICT] + rest);
      Enclosed(OPEN_DICT, DumpMembers(members, ascii), CLOSE_DICT, rest);
      if members.End? {
        AppendEmpty([CLOSE_DICT] + rest);
        ParseEmpty(rest);
      } else {
        MembersRoundTrip(members, rest, ascii);
        ParseDict(s);
      }
  }

  lemma Separated(a: Text, b: Text, c: Text)
    ensures (a + ([COMMA, SPACE] + b)) + c == a + ([COMMA] + ([SPACE] + (b + c)))
  {}

  lemma BackOfItems(items: Items, ascii: bool)
    requires items.Cons?
    ensures ItemsBack(items, ascii) == Cons(ValueBack(items.head, ascii), ItemsBack(items.tail, ascii))
    ensures ItemsBack(Nil, ascii) == Nil
  {}

  lemma BackOfMembers(ms: Members, ascii: bool)
    requires ms.Member?
    ensures MembersBack(ms, ascii) == Member(TextBack(ms.key, ascii), ValueBack(ms.value, ascii), MembersBack(ms.rest, ascii))
    ensures MembersBack(End, ascii) == End
  {}

  lemma {:induction false} ItemsRoundTrip(items: Items, rest: Text, ascii: bool)
    requires ValidItems(items) && items.Cons?
    ensures var s := DumpItems(items, ascii) + ([CLOSE_LIST] + rest);
            s != [] && s[0] > 32 && s[0] != CLOSE_LIST && ParseItems(s) == Got(ItemsBack(items, ascii), rest)
    decreases items, 1
  {
    var s := DumpItems(items, ascii) + ([CLOSE_LIST] + rest);
    DumpsStart(items.head, ascii);
    BackOfItems(items, ascii);
    if items.tail.Nil? {
      ValueRoundTrip(items.head, [CLOSE_LIST] + rest, ascii);
      ParseLastItem(s, ValueBack(items.head, ascii), rest);
    } else {
      var next := DumpItems(items.tail, ascii) + ([CLOSE_LIST] + rest);
      ItemsRoundTrip(items.tail, rest, ascii);
      var sep := [COMMA] + ([SPACE] + next);
      Separated(Dumps(items.head, ascii), DumpItems(items.tail, ascii), [CLOSE_LIST] + rest);
      ValueRoundTrip(items.head, sep, ascii);
      ParseNextItem(s, ValueBack(items.head, ascii), next);
    }
  }

  lemma {:induction false} MembersRoundTrip(ms: Members, rest: Text, ascii: bool)
    requires ValidMembers(ms) && ms.Member?
    ensures var s := DumpMembers(ms, ascii) + ([CLOSE_DICT] + rest);
            s != [] && s[0] == QUOTE && ParseMembers(s) == Got(MembersBack(ms, ascii), rest)
    decreases ms, 1
  {
    BackOfMembers(ms, ascii);
    if ms.rest.End? {
      ValueRoundTrip(ms.value, [CLOSE_DICT] + rest, ascii);
      LastMemberRoundTrip(ms.key, ms.value, rest, ascii);
    } else {
      var next := DumpMembers(ms.rest, ascii) + ([CLOSE_DICT] + rest);
      MembersRoundTrip(ms.rest, rest, ascii);
      var sep := [COMMA] + ([SPACE] + next);
      ValueRoundTrip(ms.value, sep, ascii);
      NextMemberRoundTrip(ms.key, ms.value, next, ascii);
      Separated(DumpMember(ms.key, ms.value, ascii), DumpMembers(ms.rest, ascii), [CLOSE_DICT] + rest);
    }
  }

  lemma LoadsDumps(v: Json, ascii: bool)
    requires ValidJson(v)
    ensures Loads(Dumps(v, ascii)) == Some(ValueBack(v, ascii))
  {
    DumpsStart(v, ascii);
    NoSpace(Dumps(v, ascii));
    ValueRoundTrip(v, [], ascii);
    assert Dumps(v, ascii) + [] == Dumps(v, ascii);
  }
}
