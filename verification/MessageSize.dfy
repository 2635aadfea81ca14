/**
 The size limits along the delivery pipeline (src/infra/websocket.py, src/infra/pubsub_hub.py):
 the sender checks the ASCII-escaped envelope, the hub checks what arrives, the receiver
 decodes it and checks the message again in its non-escaped form.
 */
module MessageSize {
  import opened Basics
  import opened JsonText

  const WS_MESSAGE_MAX_BYTES: nat := 256 * 1024
  const DEFAULT_MAX_MESSAGE_BYTES: nat := 256 * 1024

  // The result of a size-limited serialiser; encoding a lone surrogate raises.
  datatype Rendered = Rendered(text: Text) | TooLarge | Unencodable

  // str.encode("utf-8") accepts a text without surrogates.
  predicate Encodable(t: Text) { forall i :: 0 <= i < |t| ==> !Surrogate(t[i]) }

  function Limited(t: Text): Rendered {
    if !Encodable(t) then Unencodable
    else if Utf8Size(t) > WS_MESSAGE_MAX_BYTES then TooLarge
    else Rendered(t)
  }

  function DumpsMessageLimited(m: Json): Rendered { Limited(Dumps(m, false)) }

  function DumpsDeliveryLimited(payload: Json): Rendered { Limited(Dumps(payload, true)) }

  predicate HubAccepts(data: Text) { Encodable(data) && Utf8Size(data) <= DEFAULT_MAX_MESSAGE_BYTES }

  // The keys "user_id", "message" and "source_instance_id".
  const USER_ID: Text := [117, 115, 101, 114, 95, 105, 100]
  const MESSAGE: Text := [109, 101, 115, 115, 97, 103, 101]
  const SOURCE: Text := [115, 111, 117, 114, 99, 101, 95, 105, 110, 115, 116, 97, 110, 99, 101, 95, 105, 100]

  function Envelope(user: Text, m: Json, source: Text): Json {
    Obj(Member(USER_ID, Str(user), Member(MESSAGE, m, Member(SOURCE, Str(source), End))))
  }

  // dict.get on a decoded object: the last of several equal keys wins.
  function Lookup(ms: Members, key: Text): Option<Json> {
    if ms.End? then None
    else if Lookup(ms.rest, key).Some? then Lookup(ms.rest, key)
    else if ms.key == key then Some(ms.value) else None
  }

  // Python's truth value of a decoded value; a number is false when its digits are zeros.
  predicate Truthy(v: Json) {
    match v
    case Null => false
    case False => false
    case True => true
    case Num(token) => HasDigit(token)
    case Str(t) => t != []
    case Arr(items) => items != Nil
    case Obj(members) => members != End
  }

  // A digit other than zero in front of the exponent.
  predicate HasDigit(token: Text) {
    token != [] && token[0] != 69 && token[0] != 101 && (49 <= token[0] <= 57 || HasDigit(token[1..]))
  }

  // _handle_pubsub_message: what the receiving instance sends to its sockets, if anything.
  function Receive(data: Text): Option<Rendered> {
    match Loads(data)
    case Some(Obj(members)) =>
      var user, m := Lookup(members, USER_ID), Lookup(members, MESSAGE);
      if user.Some? && Truthy(user.value) && m.Some? && Truthy(m.value) then Some(DumpsMessageLimited(m.value)) else None
    case _ => None
  }

  // ---------------------------------------------------------------- lone surrogates

  // A high surrogate with no low one behind it, or a low one with no high one before it.
  predicate LoneAt(t: Text, i: nat)
    requires i < |t|
  {
    || (High(t[i]) && !(i + 1 < |t| && Low(t[i + 1])))
    || (Low(t[i]) && !(i > 0 && High(t[i - 1])))
  }

  predicate Paired(t: Text) { forall i :: 0 <= i < |t| ==> !LoneAt(t, i) }

  predicate PairedValue(v: Json) {
    match v
    case Str(t) => Paired(t)
    case Arr(items) => PairedItems(items)
    case Obj(members) => PairedMembers(members)
    case _ => true
  }

  predicate PairedItems(items: Items) { items.Nil? || (PairedValue(items.head) && PairedItems(items.tail)) }

  predicate PairedMembers(ms: Members) {
    ms.End? || (Paired(ms.key) && PairedValue(ms.value) && PairedMembers(ms.rest))
  }

  // Joining removes every surrogate exactly when none stands alone.
  lemma {:induction false} JoinIsEncodable(t: Text)
    ensures Encodable(Join(t)) <==> Paired(t)
    decreases |t|
  {
    if t == [] {
    } else if |t| >= 2 && High(t[0]) && Low(t[1]) {
      CombinedRoundTrip(t[0], t[1]);
      JoinIsEncodable(t[2..]);
      EncodableCons(Combined(t[0], t[1]), Join(t[2..]));
      assert !LoneAt(t, 0) && !LoneAt(t, 1);
      forall i | 0 <= i < |t[2..]| ensures LoneAt(t[2..], i) == LoneAt(t, i + 2) {
        assert t[2..][i] == t[i + 2];
        if i == 0 { assert !High(t[1]); }
      }
      PairedShift(t, 2);
    } else {
      JoinIsEncodable(t[1..]);
      EncodableCons(t[0], Join(t[1..]));
      if Surrogate(t[0]) {
        assert LoneAt(t, 0);
      } else {
        forall i | 0 <= i < |t[1..]| ensures LoneAt(t[1..], i) == LoneAt(t, i + 1) {
          assert t[1..][i] == t[i + 1];
        }
        assert !LoneAt(t, 0);
        PairedShift(t, 1);
      }
    }
  }

  lemma EncodableCons(c: CodePoint, t: Text)
    ensures Encodable([c] + t) <==> !Surrogate(c) && Encodable(t)
  {
    assert ([c] + t)[0] == c;
    assert forall i :: 0 <= i < |t| ==> ([c] + t)[i + 1] == t[i];
  }

  lemma PairedShift(t: Text, k: nat)
    requires k <= |t| && forall i :: 0 <= i < k ==> !LoneAt(t, i)
    requires forall i :: 0 <= i < |t| - k ==> LoneAt(t[k..], i) == LoneAt(t, i + k)
    ensures Paired(t[k..]) <==> Paired(t)
  {
    if Paired(t[k..]) {
      forall i | 0 <= i < |t| ensures !LoneAt(t, i) {
        if i >= k { assert LoneAt(t[k..], i - k) == LoneAt(t, i - k + k); }
      }
    }
    if Paired(t) {
      forall i | 0 <= i < |t| - k ensures !LoneAt(t[k..], i) { assert !LoneAt(t, i + k); }
    }
  }

  lemma EncodableAppend(a: Text, b: Text)
    ensures Encodable(a + b) <==> Encodable(a) && Encodable(b)
  {
    assert forall i :: 0 <= i < |a| ==> (a + b)[i] == a[i];
    assert forall i :: 0 <= i < |b| ==> (a + b)[i + |a|] == b[i];
  }

  // Escaping without ensure_ascii keeps surrogates and adds none.
  lemma {:induction false} QuotedEncodable(t: Text)
    ensures Encodable(EscapeAll(t, false)) <==> Encodable(t)
    ensures Encodable(Quoted(t, false)) <==> Encodable(t)
  {
    if t != [] {
      assert Encodable(Escape(t[0], false)) <==> !Surrogate(t[0]) by {
        if Surrogate(t[0]) { assert Escape(t[0], false)[0] == t[0]; }
      }
      QuotedEncodable(t[1..]);
      EncodableAppend(Escape(t[0], false), EscapeAll(t[1..], false));
      EncodableCons(t[0], t[1..]);
      assert [t[0]] + t[1..] == t;
    }
    EncodableAppend(EscapeAll(t, false), [QUOTE]);
    EncodableAppend([QUOTE], EscapeAll(t, false) + [QUOTE]);
  }

  // The non-escaped form of a decoded value can be encoded exactly when no text of the
  // original holds a lone surrogate.
  lemma {:induction false} JoinedEncodable(v: Json)
    requires ValidJson(v)
    ensures Encodable(Dumps(Joined(v), false)) <==> PairedValue(v)
    decreases v, 0
  {
    match v
    case Str(t) =>
      JoinIsEncodable(t);
      QuotedEncodable(Join(t));
    case Arr(items) =>
      JoinedItemsEncodable(items);
      Bracketed(OPEN_LIST, DumpItems(JoinedItems(items), false), CLOSE_LIST);
    case Obj(members) =>
      JoinedMembersEncodable(members);
      Bracketed(OPEN_DICT, DumpMembers(JoinedMembers(members), false), CLOSE_DICT);
    case _ =>
  }

  lemma Bracketed(open: CodePoint, t: Text, close: CodePoint)
    requires !Surrogate(open) && !Surrogate(close)
    ensures Encodable([open] + (t + [close])) <==> Encodable(t)
  {
    EncodableAppend(t, [close]);
    EncodableCons(open, t + [close]);
  }

  lemma SeparatedEncodable(a: Text, c: CodePoint, b: Text)
    requires !Surrogate(c)
    ensures Encodable(a + ([c, SPACE] + b)) <==> Encodable(a) && Encodable(b)
  {
    EncodableAppend([c, SPACE], b);
    EncodableAppend(a, [c, SPACE] + b);
  }

  lemma {:induction false} JoinedItemsEncodable(items: Items)
    requires ValidItems(items)
    ensures Encodable(DumpItems(JoinedItems(items), false)) <==> PairedItems(items)
    decreases items, 1
  {
    if items.Cons? {
      JoinedEncodable(items.head);
      JoinedItemsEncodable(items.tail);
      SeparatedEncodable(Dumps(Joined(items.head), false), COMMA, DumpItems(JoinedItems(items.tail), false));
    }
  }

  lemma {:induction false} JoinedMembersEncodable(ms: Members)
    requires ValidMembers(ms)
    ensures Encodable(DumpMembers(JoinedMembers(ms), false)) <==> PairedMembers(ms)
    decreases ms, 1
  {
    if ms.Member? {
      JoinIsEncodable(ms.key);
      QuotedEncodable(Join(ms.key));
      JoinedEncodable(ms.value);
      SeparatedEncodable(Quoted(Join(ms.key), false), COLON, Dumps(Joined(ms.value), false));
      JoinedMembersEncodable(ms.rest);
      SeparatedEncodable(DumpMember(Join(ms.key), Joined(ms.value), false), COMMA, DumpMembers(JoinedMembers(ms.rest), false));
    }
  }

  // ---------------------------------------------------------------- decoding keeps the ASCII form

  lemma EscapePair(high: CodePoint, low: CodePoint)
    requires High(high) && Low(low)
    ensures Escape(Combined(high, low), true) == Escape(high, true) + Escape(low, true)
  {
    CombinedRoundTrip(high, low);
  }

  lemma EscapeTwo(t: Text)
    requires |t| >= 2
    ensures EscapeAll(t, true) == (Escape(t[0], true) + Escape(t[1], true)) + EscapeAll(t[2..], true)
  {
    assert t[1..][1..] == t[2..];
    assert EscapeAll(t[1..], true) == Escape(t[1], true) + EscapeAll(t[2..], true);
  }

  lemma {:induction false} EscapeJoin(t: Text)
    ensures EscapeAll(Join(t), true) == EscapeAll(t, true)
    decreases |t|
  {
    if t == [] {
    } else if |t| >= 2 && High(t[0]) && Low(t[1]) {
      EscapePair(t[0], t[1]);
      EscapeJoin(t[2..]);
      EscapeTwo(t);
      assert Join(t)[1..] == Join(t[2..]);
    } else {
      EscapeJoin(t[1..]);
      assert Join(t)[1..] == Join(t[1..]);
    }
  }

  lemma {:induction false} DumpsJoined(v: Json)
    requires ValidJson(v)
    ensures ValidJson(Joined(v)) && Dumps(Joined(v), true) == Dumps(v, true)
    decreases v, 0
  {
    match v
    case Str(t) => EscapeJoin(t);
    case Arr(items) => DumpItemsJoined(items);
    case Obj(members) => DumpMembersJoined(members);
    case _ =>
  }

  lemma {:induction false} DumpItemsJoined(items: Items)
    requires ValidItems(items)
    ensures ValidItems(JoinedItems(items)) && DumpItems(JoinedItems(items), true) == DumpItems(items, true)
    decreases items, 1
  {
    if items.Cons? {
      DumpsJoined(items.head);
      DumpItemsJoined(items.tail);
    }
  }

  lemma {:induction false} DumpMembersJoined(ms: Members)
    requires ValidMembers(ms)
    ensures ValidMembers(JoinedMembers(ms)) && DumpMembers(JoinedMembers(ms), true) == DumpMembers(ms, true)
    decreases ms, 1
  {
    if ms.Member? {
      EscapeJoin(ms.key);
      DumpsJoined(ms.value);
      DumpMembersJoined(ms.rest);
    }
  }

  // ---------------------------------------------------------------- the pipeline

  lemma EnvelopeIsValid(user: Text, m: Json, source: Text)
    requires ValidJson(m)
    ensures ValidJson(Envelope(user, m, source))
  {
    assert ValidMembers(End) && ValidJson(Str(source)) && ValidJson(Str(user));
    assert ValidMembers(Member(SOURCE, Str(source), End));
    assert ValidMembers(Member(MESSAGE, m, Member(SOURCE, Str(source), End)));
  }

  // The decoded message is never larger, in its non-escaped form, than the envelope was.
  lemma MessageFitsInEnvelope(user: Text, m: Json, source: Text)
    requires ValidJson(m)
    ensures Utf8Size(Dumps(m, false)) <= |Dumps(Envelope(user, m, source), true)|
    ensures Utf8Size(Dumps(Joined(m), false)) <= |Dumps(Envelope(user, m, source), true)|
  {
    DumpsSizes(m);
    DumpsJoined(m);
    DumpsSizes(Joined(m));
    var ms := Member(MESSAGE, m, Member(SOURCE, Str(source), End));
    assert |DumpMembers(ms, true)| >= |DumpMember(MESSAGE, m, true)| >= |Dumps(m, true)|;
    assert |DumpMembers(Member(USER_ID, Str(user), ms), true)| >= |DumpMembers(ms, true)|;
  }

  lemma {:induction false} JoinAscii(t: Text)
    requires Ascii(t)
    ensures Join(t) == t
  {
    if t != [] { JoinAscii(t[1..]); }
  }

  lemma LookupThree(k1: Text, v1: Json, k2: Text, v2: Json, k3: Text, v3: Json)
    requires k1 != k2 && k1 != k3 && k2 != k3
    ensures var ms := Member(k1, v1, Member(k2, v2, Member(k3, v3, End)));
            Lookup(ms, k1) == Some(v1) && Lookup(ms, k2) == Some(v2)
  {
    var m3 := Member(k3, v3, End);
    assert Lookup(m3, k1) == None && Lookup(m3, k2) == None;
    var m2 := Member(k2, v2, m3);
    assert Lookup(m2, k1) == None && Lookup(m2, k2) == Some(v2);
  }

  // Decoding leaves ASCII keys alone.
  lemma JoinedThree(k1: Text, v1: Json, k2: Text, v2: Json, k3: Text, v3: Json)
    requires Ascii(k1) && Ascii(k2) && Ascii(k3)
    ensures JoinedMembers(Member(k1, v1, Member(k2, v2, Member(k3, v3, End))))
            == Member(k1, Joined(v1), Member(k2, Joined(v2), Member(k3, Joined(v3), End)))
  {
    JoinAscii(k1);
    JoinAscii(k2);
    JoinAscii(k3);
    assert JoinedMembers(Member(k3, v3, End)) == Member(k3, Joined(v3), End);
    assert JoinedMembers(Member(k2, v2, Member(k3, v3, End))) == Member(k2, Joined(v2), Member(k3, Joined(v3), End));
  }

  lemma KeysDiffer()
    ensures USER_ID != MESSAGE && USER_ID != SOURCE && MESSAGE != SOURCE
    ensures Ascii(USER_ID) && Ascii(MESSAGE) && Ascii(SOURCE)
  {
    assert |USER_ID| == 7 && |SOURCE| == 18 && USER_ID[0] != MESSAGE[0];
  }

  lemma ReceiveLoaded(data: Text, members: Members, user: Json, m: Json)
    requires Loads(data) == Some(Obj(members))
    requires Lookup(members, USER_ID) == Some(user) && Lookup(members, MESSAGE) == Some(m)
    ensures Receive(data) == if Truthy(user) && Truthy(m) then Some(DumpsMessageLimited(m)) else None
  {}

  lemma JoinedTruthy(v: Json)
    ensures Truthy(Joined(v)) == Truthy(v)
  {}

  lemma LoadsEnvelope(user: Text, m: Json, source: Text)
    requires ValidJson(m)
    ensures Loads(Dumps(Envelope(user, m, source), true)) == Some(Envelope(Join(user), Joined(m), Join(source)))
  {
    EnvelopeIsValid(user, m, source);
    LoadsDumps(Envelope(user, m, source), true);
    KeysDiffer();
    JoinedThree(USER_ID, Str(user), MESSAGE, m, SOURCE, Str(source));
  }

  lemma ReceiveEnvelope(user: Text, m: Json, source: Text)
    requires ValidJson(m)
    ensures Receive(Dumps(Envelope(user, m, source), true))
            == if user != [] && Truthy(m) then Some(DumpsMessageLimited(Joined(m))) else None
  {
    LoadsEnvelope(user, m, source);
    KeysDiffer();
    LookupThree(USER_ID, Str(Join(user)), MESSAGE, Joined(m), SOURCE, Str(Join(source)));
    JoinedTruthy(m);
    JoinedTruthy(Str(user));
    ReceiveLoaded(Dumps(Envelope(user, m, source), true), Envelope(Join(user), Joined(m), Join(source)).members,
                  Str(Join(user)), Joined(m));
  }

  // Every message whose envelope passes the sender's check passes the hub's, is decoded,
  // and is never dropped by the receiver for its size; a message that is not empty reaches
  // the sockets exactly when none of its texts holds a lone surrogate.
  lemma SizeAgreement(user: Text, m: Json, source: Text)
    requires ValidJson(m)
    ensures DumpsDeliveryLimited(Envelope(user, m, source)).Rendered? ==>
      var data := DumpsDeliveryLimited(Envelope(user, m, source)).text;
      && HubAccepts(data)
      && Receive(data) == (if user != [] && Truthy(m) then Some(DumpsMessageLimited(Joined(m))) else None)
      && DumpsMessageLimited(Joined(m)) != TooLarge
      && (DumpsMessageLimited(Joined(m)).Rendered? <==> PairedValue(m))
  {
    var data := Dumps(Envelope(user, m, source), true);
    assert Utf8Size(data) == |data| by {
      EnvelopeIsValid(user, m, source);
      DumpsSizes(Envelope(user, m, source));
      AsciiSize(data);
    }
    ReceiveEnvelope(user, m, source);
    MessageFitsInEnvelope(user, m, source);
    JoinedEncodable(m);
  }

  // The sender never fails to encode its envelope, and its local fallback, which renders
  // the message itself, is not over the limit either.
  lemma SenderAgreement(user: Text, m: Json, source: Text)
    requires ValidJson(m)
    ensures DumpsDeliveryLimited(Envelope(user, m, source)) != Unencodable
    ensures DumpsDeliveryLimited(Envelope(user, m, source)).Rendered? <==> |Dumps(Envelope(user, m, source), true)| <= 262144
    ensures DumpsDeliveryLimited(Envelope(user, m, source)).Rendered? ==> DumpsMessageLimited(m) != TooLarge
  {
    var v := Envelope(user, m, source);
    EnvelopeIsValid(user, m, source);
    DumpsSizes(v);
    AsciiSize(Dumps(v, true));
    MessageFitsInEnvelope(user, m, source);
  }

  // What a receiver sends to the sockets reads back, by the same grammar, as the message
  // that was sent, up to joined surrogate halves.
  lemma SocketsReadMessage(user: Text, m: Json, source: Text)
    requires ValidJson(m) && user != [] && Truthy(m) && PairedValue(m)
    requires DumpsDeliveryLimited(Envelope(user, m, source)).Rendered?
    ensures var sent := Receive(DumpsDeliveryLimited(Envelope(user, m, source)).text);
            sent.Some? && sent.value.Rendered? && Loads(sent.value.text) == Some(Joined(m))
  {
    SizeAgreement(user, m, source);
    DumpsJoined(m);
    LoadsDumps(Joined(m), false);
  }

  // A message the pipeline loses: the sender accepts a lone surrogate, the receiver cannot
  // encode it.
  lemma LoneSurrogateIsLost()
    ensures DumpsDeliveryLimited(Envelope([117], Str([0xD800]), [105])).Rendered?
    ensures DumpsMessageLimited(Joined(Str([0xD800]))) == Unencodable
  {
    var m := Str([0xD800]);
    var v := Envelope([117], m, [105]);
    EnvelopeIsValid([117], m, [105]);
    SenderAgreement([117], m, [105]);
    DumpsSizes(v);
    AsciiSize(Dumps(v, true));
    EscapeLength([0xD800]);
    EnvelopeLength([117], m, [105]);
    assert LoneAt([0xD800], 0);
    JoinedEncodable(m);
  }

  lemma MemberLength(key: Text, v: Json)
    ensures |DumpMember(key, v, true)| <= 12 * |key| + 4 + |Dumps(v, true)|
  {
    EscapeLength(key);
  }

  lemma EnvelopeLength(user: Text, m: Json, source: Text)
    ensures |Dumps(Envelope(user, m, source), true)| <= 12 * (|user| + |source|) + |Dumps(m, true)| + 500
  {
    EscapeLength(user);
    EscapeLength(source);
    MemberLength(USER_ID, Str(user));
    MemberLength(MESSAGE, m);
    MemberLength(SOURCE, Str(source));
    MembersLength(USER_ID, Str(user), MESSAGE, m, SOURCE, Str(source));
  }

  lemma MembersLength(k1: Text, v1: Json, k2: Text, v2: Json, k3: Text, v3: Json)
    ensures |Dumps(Obj(Member(k1, v1, Member(k2, v2, Member(k3, v3, End)))), true)|
            == |DumpMember(k1, v1, true)| + |DumpMember(k2, v2, true)| + |DumpMember(k3, v3, true)| + 6
  {
    var m3 := Member(k3, v3, End);
    assert DumpMembers(m3, true) == DumpMember(k3, v3, true);
    var m2 := Member(k2, v2, m3);
    assert |DumpMembers(m2, true)| == |DumpMember(k2, v2, true)| + 2 + |DumpMembers(m3, true)|;
  }

  lemma {:induction false} EscapeLength(t: Text)
    ensures |EscapeAll(t, true)| <= 12 * |t|
  {
    if t != [] { EscapeLength(t[1..]); }
  }
}
