/**
 Base64 as the image inliner writes it (src/agents/core/node_utils.py, `_base64_encode_file`)
 and as the web push hook reads it (frontend/src/hooks/useWebPush.ts,
 `urlBase64ToUint8Array`); sections 4 and 5 of RFC 4648.
 */
module Base64 {
  import opened Basics

  type Byte = b: int | 0 <= b < 256
  type Digit = d: int | 0 <= d < 64

  const ENCODE_CHUNK_BYTES: nat := 192 * 1024

  // ---------------------------------------------------------------- encoding

  function DigitChar(d: Digit): (c: char)
    ensures c != '='
  {
    if d < 26 then 'A' + d as char
    else if d < 52 then 'a' + (d - 26) as char
    else if d < 62 then '0' + (d - 52) as char
    else if d == 62 then '+' else '/'
  }

  // Three octets as four groups of six bits; one or two octets as two or three groups, the
  // missing bits being zero.
  function Sextets(bytes: seq<Byte>): seq<Digit> {
    if |bytes| < 3 then LastSextets(bytes) else FourSextets(bytes[0], bytes[1], bytes[2]) + Sextets(bytes[3..])
  }

  function FourSextets(a: Byte, b: Byte, c: Byte): (r: seq<Digit>)
    ensures |r| == 4
  {
    [a / 4, a % 4 * 16 + b / 16, b % 16 * 4 + c / 64, c % 64]
  }

  function LastSextets(bytes: seq<Byte>): (r: seq<Digit>)
    requires |bytes| < 3
    ensures |r| == if bytes == [] then 0 else |bytes| + 1
  {
    if bytes == [] then []
    else if |bytes| == 1 then [bytes[0] / 4, bytes[0] % 4 * 16]
    else [bytes[0] / 4, bytes[0] % 4 * 16 + bytes[1] / 16, bytes[1] % 16 * 4]
  }

  // The bits that fill up the last group are zero (section 3.5 of RFC 4648).
  lemma PaddingBitsAreZero(bytes: seq<Byte>)
    requires 0 < |bytes| < 3
    ensures |bytes| == 1 ==> LastSextets(bytes)[1] % 16 == 0
    ensures |bytes| == 2 ==> LastSextets(bytes)[2] % 4 == 0
  {}

  function Chars(digits: seq<Digit>): (s: string)
    ensures |s| == |digits| && forall i :: 0 <= i < |s| ==> s[i] == DigitChar(digits[i])
  {
    seq(|digits|, i requires 0 <= i < |digits| => DigitChar(digits[i]))
  }

  function Repeat(c: char, n: nat): (r: string)
    ensures |r| == n && forall i :: 0 <= i < n ==> r[i] == c
  {
    seq(n, _ => c)
  }

  function PaddingOf(n: nat): nat { (3 - n % 3) % 3 }

  // base64.b64encode
  function Encode(bytes: seq<Byte>): string { Chars(Sextets(bytes)) + Repeat('=', PaddingOf(|bytes|)) }

  // The same without padding and with the URL-safe alphabet.
  function EncodeUrlUnpadded(bytes: seq<Byte>): string { Translate(Chars(Sextets(bytes)), UrlChar) }

  function UrlChar(c: char): char { if c == '+' then '-' else if c == '/' then '_' else c }

  function Translate(s: string, f: char -> char): (r: string)
    ensures |r| == |s| && forall i :: 0 <= i < |s| ==> r[i] == f(s[i])
  {
    seq(|s|, i requires 0 <= i < |s| => f(s[i]))
  }

  lemma {:induction false} SextetsAppend(a: seq<Byte>, b: seq<Byte>)
    requires |a| % 3 == 0
    ensures Sextets(a + b) == Sextets(a) + Sextets(b)
    decreases |a|
  {
    if a == [] {
      assert a + b == b;
    } else {
      assert (a + b)[3..] == a[3..] + b;
      SextetsAppend(a[3..], b);
    }
  }

  lemma {:induction false} SextetsLength(bytes: seq<Byte>)
    ensures |Sextets(bytes)| + PaddingOf(|bytes|) == 4 * ((|bytes| + 2) / 3)
    decreases |bytes|
  {
    if |bytes| >= 3 {
      SextetsLength(bytes[3..]);
      PaddingStep(|bytes| - 3);
    }
  }

  lemma PaddingStep(n: nat)
    ensures PaddingOf(n + 3) == PaddingOf(n) && (n + 3 + 2) / 3 == (n + 2) / 3 + 1
  {}

  // Padding completes the last group of four.
  lemma PaddingCompletes(bytes: seq<Byte>)
    ensures PaddingOf(|bytes|) <= 2 && (|Sextets(bytes)| + PaddingOf(|bytes|)) % 4 == 0
  {
    SextetsLength(bytes);
    MultipleOfFour((|bytes| + 2) / 3);
  }

  lemma MultipleOfFour(k: nat)
    ensures (4 * k) % 4 == 0
  {}

  lemma PaddingAppend(n: nat, m: nat)
    requires n % 3 == 0
    ensures PaddingOf(n) == 0 && PaddingOf(n + m) == PaddingOf(m)
  {}

  lemma CharsAppend(d: seq<Digit>, e: seq<Digit>)
    ensures Chars(d + e) == Chars(d) + Chars(e)
  {}

  lemma EncodeAppend(a: seq<Byte>, b: seq<Byte>)
    requires |a| % 3 == 0
    ensures Encode(a + b) == Encode(a) + Encode(b)
  {
    SextetsAppend(a, b);
    PaddingAppend(|a|, |b|);
    CharsAppend(Sextets(a), Sextets(b));
    assert Repeat('=', 0) == "";
  }

  // Encoding pieces gives the encoding of the whole exactly when the first piece is a
  // whole number of triples, or nothing follows it.
  lemma EncodeAppendIff(a: seq<Byte>, b: seq<Byte>)
    requires b != []
    ensures Encode(a + b) == Encode(a) + Encode(b) <==> |a| % 3 == 0
  {
    if |a| % 3 == 0 {
      EncodeAppend(a, b);
    } else {
      SextetsLength(a);
      SextetsLength(b);
      SextetsLength(a + b);
      PaddingInside(Sextets(a), PaddingOf(|a|), Encode(b), Sextets(a + b), PaddingOf(|a + b|));
    }
  }

  // Padding in front of two or more characters is not the end of an encoding.
  lemma PaddingInside(d: seq<Digit>, n: nat, rest: string, e: seq<Digit>, m: nat)
    requires n > 0 && m <= 2 && |rest| > 2
    ensures Chars(d) + Repeat('=', n) + rest != Chars(e) + Repeat('=', m)
  {
    var s, t := Chars(d) + Repeat('=', n) + rest, Chars(e) + Repeat('=', m);
    if |s| == |t| {
      assert s[|d|] == '=';
      assert t[|d|] == DigitChar(e[|d|]);
    }
  }

  // A file open for reading: every read but the last returns as much as it is asked for.
  class File {
    const data: seq<Byte>
    var position: nat

    constructor (content: seq<Byte>)
      ensures data == content && position == 0
    {
      data, position := content, 0;
    }

    method Read(size: nat) returns (chunk: seq<Byte>)
      requires position <= |data|
      modifies this
      ensures position == Min(old(position) + size, |data|)
      ensures chunk == data[old(position)..position]
    {
      var end := if position + size < |data| then position + size else |data|;
      chunk := data[position..end];
      position := end;
    }
  }

  // The chunked encoding of a file is the encoding of the whole file.
  method EncodeFile(file: File) returns (encoded: string)
    requires file.position == 0
    modifies file
    ensures encoded == Encode(file.data)
  {
    encoded := "";
    while true
      invariant file.position <= |file.data|
      invariant file.position % 3 == 0 || file.position == |file.data|
      invariant encoded == Encode(file.data[..file.position])
      decreases |file.data| - file.position
    {
      ghost var before := file.position;
      var chunk := file.Read(ENCODE_CHUNK_BYTES);
      if chunk == [] { break; }
      encoded := encoded + Encode(chunk);
      EncodeAppend(file.data[..before], chunk);
      assert file.data[..file.position] == file.data[..before] + chunk;
    }
    assert file.data[..file.position] == file.data;
  }

  // ---------------------------------------------------------------- decoding

  function CharDigit(c: char): (d: Option<int>)
    ensures d.Some? ==> 0 <= d.value < 64
  {
    if 'A' <= c <= 'Z' then Some(c as int - 'A' as int)
    else if 'a' <= c <= 'z' then Some(c as int - 'a' as int + 26)
    else if '0' <= c <= '9' then Some(c as int - '0' as int + 52)
    else if c == '+' then Some(62)
    else if c == '/' then Some(63)
    else None
  }

  predicate InAlphabet(s: string) { forall i :: 0 <= i < |s| ==> CharDigit(s[i]).Some? }

  function Digits(s: string): (r: seq<Digit>)
    requires InAlphabet(s)
    ensures |r| == |s| && forall i :: 0 <= i < |s| ==> r[i] == CharDigit(s[i]).value
  {
    seq(|s|, i requires 0 <= i < |s| => CharDigit(s[i]).value)
  }

  // Four groups of six bits as three octets; a last run of two or three as one or two, the
  // bits left over being dropped.
  function Octets(d: seq<Digit>): seq<Byte> {
    if |d| < 4 then LastOctets(d) else ThreeOctets(d[0], d[1], d[2], d[3]) + Octets(d[4..])
  }

  function FirstOctet(p: Digit, q: Digit): Byte { p * 4 + q / 16 }

  function SecondOctet(q: Digit, r: Digit): Byte { q % 16 * 16 + r / 4 }

  function ThreeOctets(p: Digit, q: Digit, r: Digit, s: Digit): (b: seq<Byte>)
    ensures |b| == 3
  {
    [FirstOctet(p, q), SecondOctet(q, r), r % 4 * 64 + s]
  }

  function LastOctets(d: seq<Digit>): seq<Byte>
    requires |d| < 4
  {
    if |d| < 2 then []
    else if |d| == 2 then [FirstOctet(d[0], d[1])]
    else [FirstOctet(d[0], d[1]), SecondOctet(d[1], d[2])]
  }

  predicate AsciiBlank(c: char) { c == ' ' || c == '\t' || c == '\n' || c == '\r' || c as int == 12 }

  function DropBlanks(s: string): string {
    if s == "" then "" else (if AsciiBlank(s[0]) then "" else [s[0]]) + DropBlanks(s[1..])
  }

  // Up to two padding characters at the end of a text whose length is a multiple of four.
  function DropPadding(s: string): string {
    if |s| % 4 != 0 || |s| == 0 || s[|s| - 1] != '=' then s
    else if s[|s| - 2] == '=' then s[..|s| - 2] else s[..|s| - 1]
  }

  // window.atob: the forgiving decoder, which throws on other characters and on a length
  // of one more than a multiple of four.
  function Atob(s: string): Option<seq<Byte>> {
    var t := DropPadding(DropBlanks(s));
    if |t| % 4 == 1 || !InAlphabet(t) then None else Some(Octets(Digits(t)))
  }

  function StandardChar(c: char): char { if c == '-' then '+' else if c == '_' then '/' else c }

  // The padding the hook puts back, in front of atob.
  function DecodeUrl(s: string): Option<seq<Byte>> {
    Atob(Translate(s + Repeat('=', (4 - |s| % 4) % 4), StandardChar))
  }

  // urlBase64ToUint8Array; a failing atob is None.
  method UrlBase64ToUint8Array(base64String: string) returns (output: Option<array<Byte>>)
    ensures match output
            case None => DecodeUrl(base64String) == None
            case Some(bytes) => DecodeUrl(base64String) == Some(bytes[..])
  {
    var padding := Repeat('=', (4 - |base64String| % 4) % 4);
    var base64 := Translate(base64String + padding, StandardChar);
    var raw := Atob(base64);
    if raw == None { return None; }
    var array_ := new Byte[|raw.value|];
    for i := 0 to |raw.value|
      invariant array_[..i] == raw.value[..i]
    {
      array_[i] := raw.value[i];
    }
    assert array_[..] == raw.value;
    return Some(array_);
  }

  // ---------------------------------------------------------------- round trips

  // Every character of an encoding stands for its digit, is no blank and no padding, and
  // survives the change of alphabet.
  lemma DigitRoundTrip(d: Digit)
    ensures var c := DigitChar(d);
            CharDigit(c) == Some(d) && !AsciiBlank(c) && c != '=' && StandardChar(UrlChar(c)) == c
  {}

  lemma TripleRoundTrip(a: Byte, b: Byte, c: Byte)
    ensures var d := FourSextets(a, b, c); ThreeOctets(d[0], d[1], d[2], d[3]) == [a, b, c]
  {
    HighPart(a % 4, b / 16, b % 16, c / 64);
  }

  lemma HighPart(two: nat, four: nat, low: nat, top: nat)
    requires four < 16 && top < 4
    ensures (two * 16 + four) / 16 == two && (two * 16 + four) % 16 == four
    ensures (low * 4 + top) / 4 == low && (low * 4 + top) % 4 == top
  {}

  lemma LastRoundTrip(bytes: seq<Byte>)
    requires |bytes| < 3
    ensures LastOctets(LastSextets(bytes)) == bytes
  {
    if |bytes| == 2 { TripleRoundTrip(bytes[0], bytes[1], 0); }
  }

  lemma {:induction false} OctetsOfSextets(bytes: seq<Byte>)
    ensures Octets(Sextets(bytes)) == bytes
    decreases |bytes|
  {
    if |bytes| < 3 {
      LastRoundTrip(bytes);
    } else {
      var four, rest := FourSextets(bytes[0], bytes[1], bytes[2]), Sextets(bytes[3..]);
      TripleRoundTrip(bytes[0], bytes[1], bytes[2]);
      OctetsOfSextets(bytes[3..]);
      assert (four + rest)[4..] == rest;
      assert [bytes[0], bytes[1], bytes[2]] + bytes[3..] == bytes;
    }
  }

  lemma {:induction false} NoBlanks(s: string)
    requires forall i :: 0 <= i < |s| ==> !AsciiBlank(s[i])
    ensures DropBlanks(s) == s
  {
    if s != "" { NoBlanks(s[1..]); }
  }

  lemma PaddingDropped(d: seq<Digit>, padding: nat)
    requires padding <= 2 && (|d| + padding) % 4 == 0
    ensures DropPadding(Chars(d) + Repeat('=', padding)) == Chars(d)
  {
    var s := Chars(d) + Repeat('=', padding);
    if |s| > 0 {
      assert padding == 0 ==> s[|s| - 1] != '=';
      assert padding == 1 ==> s[|s| - 1] == '=' && s[|s| - 2] != '=';
      assert padding == 2 ==> s[|s| - 1] == '=' && s[|s| - 2] == '=';
    }
  }

  lemma CharsRoundTrip(d: seq<Digit>)
    ensures InAlphabet(Chars(d)) && Digits(Chars(d)) == d
    ensures forall i :: 0 <= i < |d| ==> !AsciiBlank(Chars(d)[i])
  {
    forall i | 0 <= i < |d| ensures CharDigit(Chars(d)[i]) == Some(d[i]) && !AsciiBlank(Chars(d)[i]) {
      DigitRoundTrip(d[i]);
    }
  }

  lemma NoBlanksInside(a: string, padding: nat)
    requires forall i :: 0 <= i < |a| ==> !AsciiBlank(a[i])
    ensures DropBlanks(a + Repeat('=', padding)) == a + Repeat('=', padding)
  {
    NoBlanks(a + Repeat('=', padding));
  }

  lemma NotOneShort(n: nat, padding: nat)
    requires padding <= 2 && (n + padding) % 4 == 0
    ensures n % 4 != 1 && (4 - n % 4) % 4 == padding
  {}

  lemma AtobOfPadded(d: seq<Digit>, padding: nat)
    requires padding <= 2 && (|d| + padding) % 4 == 0
    ensures Atob(Chars(d) + Repeat('=', padding)) == Some(Octets(d))
  {
    CharsRoundTrip(d);
    NoBlanksInside(Chars(d), padding);
    PaddingDropped(d, padding);
    NotOneShort(|d|, padding);
  }

  // atob undoes b64encode for every byte string.
  lemma AtobUndoesEncode(bytes: seq<Byte>)
    ensures Atob(Encode(bytes)) == Some(bytes)
  {
    PaddingCompletes(bytes);
    AtobOfPadded(Sextets(bytes), PaddingOf(|bytes|));
    OctetsOfSextets(bytes);
  }

  lemma AlphabetRoundTrip(d: seq<Digit>, n: nat)
    ensures Translate(Translate(Chars(d), UrlChar) + Repeat('=', n), StandardChar) == Chars(d) + Repeat('=', n)
  {
    var t := Translate(Translate(Chars(d), UrlChar) + Repeat('=', n), StandardChar);
    forall i | 0 <= i < |d| ensures t[i] == Chars(d)[i] {
      DigitRoundTrip(d[i]);
    }
  }

  lemma DecodeUrlPads(s: string, n: nat)
    requires n <= 2 && (|s| + n) % 4 == 0
    ensures DecodeUrl(s) == Atob(Translate(s + Repeat('=', n), StandardChar))
  {
    NotOneShort(|s|, n);
  }

  // The frontend recomputes the padding of an unpadded URL-safe key and gets the bytes back.
  lemma UnpaddedUrlRoundTrip(bytes: seq<Byte>)
    ensures DecodeUrl(EncodeUrlUnpadded(bytes)) == Some(bytes)
  {
    var d, n := Sextets(bytes), PaddingOf(|bytes|);
    PaddingCompletes(bytes);
    OctetsOfSextets(bytes);
    DecodeUrlPads(EncodeUrlUnpadded(bytes), n);
    AlphabetRoundTrip(d, n);
    AtobOfPadded(d, n);
  }

  lemma ThreePaddingFails(t: string)
    requires |t| >= 4 && |t| % 4 == 0 && forall i :: |t| - 3 <= i < |t| ==> t[i] == '='
    requires forall i :: 0 <= i < |t| ==> !AsciiBlank(t[i])
    ensures Atob(t) == None
  {
    NoBlanks(t);
    var u := DropPadding(t);
    assert u[|t| - 3] == '=' && CharDigit('=') == None;
  }

  // A key whose length is one more than a multiple of four cannot be decoded.
  lemma BadLengthFails(s: string)
    requires |s| % 4 == 1 && forall i :: 0 <= i < |s| ==> !AsciiBlank(s[i])
    ensures DecodeUrl(s) == None
  {
    var t := Translate(s + Repeat('=', 3), StandardChar);
    assert (4 - |s| % 4) % 4 == 3;
    forall i | 0 <= i < |t| ensures !AsciiBlank(t[i]) {
      if i < |s| { assert t[i] == StandardChar(s[i]); } else { assert t[i] == StandardChar('='); }
    }
    ThreePaddingFails(t);
  }
}
