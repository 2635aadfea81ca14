/**
 The per-process cache of authenticated users (src/api/deps.py): a dictionary with a time to
 live and a bound on its size, compared with an ideal map that keeps everything.
 */
module AuthCache {
  import opened Basics

  type Token = string
  type Payload = nat

  const TTL_SECONDS: real := 45.0
  const MAX_ENTRIES: nat := 2048

  datatype Entry = Entry(token: Token, expiresAt: real, payload: Payload)

  // The dictionary, in insertion order.
  type Cache = seq<Entry>

  predicate Distinct(c: Cache) { forall i, j :: 0 <= i < j < |c| ==> c[i].token != c[j].token }

  function Lookup(c: Cache, token: Token): (r: Option<Entry>)
    ensures r.Some? ==> r.value in c && r.value.token == token
    ensures r.None? ==> forall e :: e in c ==> e.token != token
  {
    if c == [] then None else if c[0].token == token then Some(c[0]) else Lookup(c[1..], token)
  }

  function Pop(c: Cache, token: Token): Cache {
    if c == [] then [] else if c[0].token == token then c[1..] else [c[0]] + Pop(c[1..], token)
  }

  // d[token] = ...: an existing key keeps its place.
  function Assign(c: Cache, e: Entry): Cache {
    if c == [] then [e] else if c[0].token == e.token then [e] + c[1..] else [c[0]] + Assign(c[1..], e)
  }

  function Unexpired(c: Cache, now: real): Cache {
    if c == [] then [] else (if c[0].expiresAt <= now then [] else [c[0]]) + Unexpired(c[1..], now)
  }

  function Expired(c: Cache, now: real): seq<Token> {
    if c == [] then []
    else if c[0].expiresAt <= now then [c[0].token] + Expired(c[1..], now)
    else Expired(c[1..], now)
  }

  function PopAll(c: Cache, tokens: seq<Token>): Cache
    decreases |tokens|
  {
    if tokens == [] then c else PopAll(Pop(c, tokens[0]), tokens[1..])
  }

  // ---------------------------------------------------------------- the operations on values

  function GetResult(c: Cache, token: Token, now: real): Option<Payload> {
    match Lookup(c, token) case Some(e) => (if e.expiresAt <= now then None else Some(e.payload)) case None => None
  }

  function AfterGet(c: Cache, token: Token, now: real): Cache {
    match Lookup(c, token) case Some(e) => (if e.expiresAt <= now then Pop(c, token) else c) case None => c
  }

  // Room for one more: expired entries go first, then the oldest.
  function Roomy(c: Cache, now: real): Cache {
    if |c| < MAX_ENTRIES then c
    else
      var live := Unexpired(c, now);
      if |live| < MAX_ENTRIES then live else live[|live| - (MAX_ENTRIES - 1)..]
  }

  function AfterSet(c: Cache, token: Token, payload: Payload, now: real, later: real): Cache {
    Assign(Roomy(c, now), Entry(token, later + TTL_SECONDS, payload))
  }

  // ---------------------------------------------------------------- the ideal map

  datatype Stored = Stored(at: real, payload: Payload)

  // The last payload stored for each token since the last clear.
  type Ideal = map<Token, Stored>

  function IdealGet(ideal: Ideal, token: Token, now: real): Option<Payload> {
    if token in ideal && now < ideal[token].at + TTL_SECONDS then Some(ideal[token].payload) else None
  }

  ghost predicate Agrees(e: Entry, ideal: Ideal) {
    e.token in ideal && e.payload == ideal[e.token].payload && e.expiresAt == ideal[e.token].at + TTL_SECONDS
  }

  // Bounded, and every entry is what the ideal map has for its token.
  ghost predicate Inv(c: Cache, ideal: Ideal) {
    |c| <= MAX_ENTRIES && Distinct(c) && forall e :: e in c ==> Agrees(e, ideal)
  }

  // Nothing unexpired is missing.
  ghost predicate Complete(c: Cache, ideal: Ideal, now: real) {
    forall t :: t in ideal && now < ideal[t].at + TTL_SECONDS ==> Lookup(c, t).Some?
  }

  lemma {:induction false} PopFacts(c: Cache, token: Token)
    requires Distinct(c)
    ensures Distinct(Pop(c, token)) && |Pop(c, token)| <= |c|
    ensures forall e :: e in Pop(c, token) <==> e in c && e.token != token
  {
    if c != [] {
      PopFacts(c[1..], token);
      assert c == [c[0]] + c[1..];
    }
  }

  lemma {:induction false} AssignFacts(c: Cache, e: Entry)
    requires Distinct(c)
    ensures Distinct(Assign(c, e)) && |Assign(c, e)| == |c| + (if Lookup(c, e.token).Some? then 0 else 1)
    ensures forall x :: x in Assign(c, e) <==> x == e || (x in c && x.token != e.token)
  {
    if c != [] {
      assert c == [c[0]] + c[1..];
      if c[0].token == e.token {
        assert forall x :: x in c[1..] ==> x.token != e.token;
      } else {
        AssignFacts(c[1..], e);
      }
    }
  }

  lemma {:induction false} UnexpiredFacts(c: Cache, now: real)
    requires Distinct(c)
    ensures Distinct(Unexpired(c, now)) && |Unexpired(c, now)| <= |c|
    ensures forall e :: e in Unexpired(c, now) <==> e in c && e.expiresAt > now
  {
    if c != [] {
      UnexpiredFacts(c[1..], now);
      assert c == [c[0]] + c[1..];
    }
  }

  lemma {:induction false} PopAllKeepsFirst(c: Cache, tokens: seq<Token>)
    requires c != [] && c[0].token !in tokens
    ensures PopAll(c, tokens) == [c[0]] + PopAll(c[1..], tokens)
    decreases |tokens|
  {
    if tokens == [] {
      assert c == [c[0]] + c[1..];
    } else {
      var d := Pop(c, tokens[0]);
      assert d[0] == c[0] && d[1..] == Pop(c[1..], tokens[0]);
      PopAllKeepsFirst(d, tokens[1..]);
    }
  }

  lemma {:induction false} ExpiredAreMembers(c: Cache, now: real)
    ensures forall t :: t in Expired(c, now) ==> exists i :: 0 <= i < |c| && c[i].token == t
  {
    if c != [] {
      ExpiredAreMembers(c[1..], now);
      forall t | t in Expired(c, now) ensures exists i :: 0 <= i < |c| && c[i].token == t {
        if t in Expired(c[1..], now) {
          var i :| 0 <= i < |c[1..]| && c[1..][i].token == t;
          assert c[i + 1].token == t;
        } else {
          assert c[0].token == t;
        }
      }
    }
  }

  // Popping the expired keys leaves the unexpired entries, in order.
  lemma {:induction false} ExpiredPopped(c: Cache, now: real)
    requires Distinct(c)
    ensures PopAll(c, Expired(c, now)) == Unexpired(c, now)
  {
    if c != [] {
      var rest := Expired(c[1..], now);
      ExpiredPopped(c[1..], now);
      if c[0].expiresAt <= now {
        assert ([c[0].token] + rest)[1..] == rest;
      } else {
        ExpiredAreMembers(c[1..], now);
        PopAllKeepsFirst(c, rest);
      }
    }
  }

  lemma {:induction false} LookupOf(c: Cache, e: Entry)
    requires Distinct(c) && e in c
    ensures Lookup(c, e.token) == Some(e)
  {
    assert c == [c[0]] + c[1..];
    if c[0] != e { LookupOf(c[1..], e); }
  }

  // Making room keeps the bound, and drops an unexpired entry if and only if the unexpired
  // ones alone fill the cache and it is the oldest of them.
  lemma RoomyFacts(c: Cache, now: real)
    requires Distinct(c) && |c| <= MAX_ENTRIES
    ensures var r := Roomy(c, now);
            && |r| < MAX_ENTRIES && Distinct(r) && (forall e :: e in r ==> e in c)
            && (forall e :: e in c && e.expiresAt > now ==>
                  (e !in r <==> |Unexpired(c, now)| == MAX_ENTRIES && e == Unexpired(c, now)[0]))
  {
    UnexpiredFacts(c, now);
    var live := Unexpired(c, now);
    if |c| == MAX_ENTRIES && |live| == MAX_ENTRIES {
      assert live[|live| - (MAX_ENTRIES - 1)..] == live[1..];
      assert live == [live[0]] + live[1..];
    }
  }

  lemma SetInv(c: Cache, ideal: Ideal, token: Token, payload: Payload, now: real, later: real)
    requires Inv(c, ideal)
    ensures Inv(AfterSet(c, token, payload, now, later), ideal[token := Stored(later, payload)])
  {
    RoomyFacts(c, now);
    AssignFacts(Roomy(c, now), Entry(token, later + TTL_SECONDS, payload));
  }

  lemma GetInv(c: Cache, ideal: Ideal, token: Token, now: real)
    requires Inv(c, ideal)
    ensures Inv(AfterGet(c, token, now), ideal)
    ensures GetResult(c, token, now) == None || GetResult(c, token, now) == IdealGet(ideal, token, now)
  {
    PopFacts(c, token);
  }

  // A token that a get misses is not in the cache afterwards.
  lemma MissIsGone(c: Cache, token: Token, now: real)
    requires Distinct(c) && GetResult(c, token, now) == None
    ensures Lookup(AfterGet(c, token, now), token) == None
  {
    PopFacts(c, token);
  }

  // While the unexpired entries do not fill the cache nothing unexpired is lost.
  lemma SetComplete(c: Cache, ideal: Ideal, token: Token, payload: Payload, now: real, later: real)
    requires Inv(c, ideal) && Complete(c, ideal, now) && now <= later
    requires |Unexpired(c, now)| < MAX_ENTRIES
    ensures Complete(AfterSet(c, token, payload, now, later), ideal[token := Stored(later, payload)], later)
  {
    var e := Entry(token, later + TTL_SECONDS, payload);
    var r, ideal' := AfterSet(c, token, payload, now, later), ideal[token := Stored(later, payload)];
    RoomyFacts(c, now);
    AssignFacts(Roomy(c, now), e);
    forall t | t in ideal' && later < ideal'[t].at + TTL_SECONDS ensures Lookup(r, t).Some? {
      if t == token {
        LookupOf(r, e);
      } else {
        var old_ := Lookup(c, t).value;
        assert Agrees(old_, ideal);
        LookupOf(r, old_);
      }
    }
  }

  lemma GetComplete(c: Cache, ideal: Ideal, token: Token, now: real)
    requires Inv(c, ideal) && Complete(c, ideal, now)
    ensures Complete(AfterGet(c, token, now), ideal, now)
    ensures GetResult(c, token, now) == IdealGet(ideal, token, now)
  {
    PopFacts(c, token);
    forall t | t in ideal && now < ideal[t].at + TTL_SECONDS ensures Lookup(AfterGet(c, token, now), t).Some? {
      var e := Lookup(c, t).value;
      assert Agrees(e, ideal);
      PopFacts(c, token);
      LookupOf(AfterGet(c, token, now), e);
    }
  }

  // ---------------------------------------------------------------- runs

  datatype Op = Get(token: Token, now: real) | Set(token: Token, payload: Payload, now: real, later: real) | Clear

  // The clock never goes back.
  predicate Timed(ops: seq<Op>, from: real) {
    ops == [] ||
    (match ops[0]
     case Get(_, now) => from <= now && Timed(ops[1..], now)
     case Set(_, _, now, later) => from <= now <= later && Timed(ops[1..], later)
     case Clear => Timed(ops[1..], from))
  }

  function CacheAfter(c: Cache, op: Op): Cache {
    match op
    case Get(t, now) => AfterGet(c, t, now)
    case Set(t, p, now, later) => AfterSet(c, t, p, now, later)
    case Clear => []
  }

  function IdealAfter(ideal: Ideal, op: Op): Ideal {
    match op
    case Get(_, _) => ideal
    case Set(t, p, _, later) => ideal[t := Stored(later, p)]
    case Clear => map[]
  }

  // The answers to the gets of a run.
  function Answers(c: Cache, ops: seq<Op>): seq<Option<Payload>>
    decreases |ops|
  {
    if ops == [] then []
    else (if ops[0].Get? then [GetResult(c, ops[0].token, ops[0].now)] else []) + Answers(CacheAfter(c, ops[0]), ops[1..])
  }

  function IdealAnswers(ideal: Ideal, ops: seq<Op>): seq<Option<Payload>>
    decreases |ops|
  {
    if ops == [] then []
    else (if ops[0].Get? then [IdealGet(ideal, ops[0].token, ops[0].now)] else []) + IdealAnswers(IdealAfter(ideal, ops[0]), ops[1..])
  }

  function CacheAtEnd(c: Cache, ops: seq<Op>): Cache
    decreases |ops|
  {
    if ops == [] then c else CacheAtEnd(CacheAfter(c, ops[0]), ops[1..])
  }

  // No set of the run meets a cache full of unexpired entries.
  predicate NeverFull(c: Cache, ops: seq<Op>)
    decreases |ops|
  {
    ops == [] || ((ops[0].Set? ==> |Unexpired(c, ops[0].now)| < MAX_ENTRIES) && NeverFull(CacheAfter(c, ops[0]), ops[1..]))
  }

  ghost predicate HitsAgree(a: seq<Option<Payload>>, b: seq<Option<Payload>>) {
    |a| == |b| && forall i :: 0 <= i < |a| ==> a[i] == None || a[i] == b[i]
  }

  lemma StepInv(c: Cache, ideal: Ideal, op: Op)
    requires Inv(c, ideal)
    ensures Inv(CacheAfter(c, op), IdealAfter(ideal, op))
  {
    match op
    case Get(t, now) => GetInv(c, ideal, t, now);
    case Set(t, p, now, later) => SetInv(c, ideal, t, p, now, later);
    case Clear =>
  }

  lemma OneMoreAnswer(c: Cache, ideal: Ideal, ops: seq<Op>)
    requires ops != [] && HitsAgree(Answers(CacheAfter(c, ops[0]), ops[1..]), IdealAnswers(IdealAfter(ideal, ops[0]), ops[1..]))
    requires ops[0].Get? ==> GetResult(c, ops[0].token, ops[0].now) in {None, IdealGet(ideal, ops[0].token, ops[0].now)}
    ensures HitsAgree(Answers(c, ops), IdealAnswers(ideal, ops))
  {}

  // In every run every hit is the ideal map's answer, and the size bound holds.
  lemma {:induction false} EveryHitIsIdeal(c: Cache, ideal: Ideal, ops: seq<Op>)
    requires Inv(c, ideal)
    ensures HitsAgree(Answers(c, ops), IdealAnswers(ideal, ops))
    ensures |CacheAtEnd(c, ops)| <= MAX_ENTRIES
    decreases |ops|
  {
    if ops != [] {
      if ops[0].Get? { GetInv(c, ideal, ops[0].token, ops[0].now); }
      StepInv(c, ideal, ops[0]);
      EveryHitIsIdeal(CacheAfter(c, ops[0]), IdealAfter(ideal, ops[0]), ops[1..]);
      OneMoreAnswer(c, ideal, ops);
    }
  }

  // As long as the unexpired entries never fill it, the cache is the ideal map.
  lemma {:induction false} RoomyCacheIsIdeal(c: Cache, ideal: Ideal, ops: seq<Op>, from: real)
    requires Inv(c, ideal) && Complete(c, ideal, from) && Timed(ops, from) && NeverFull(c, ops)
    ensures Answers(c, ops) == IdealAnswers(ideal, ops)
    decreases |ops|
  {
    if ops != [] {
      StepInv(c, ideal, ops[0]);
      match ops[0]
      case Get(t, now) =>
        assert Complete(c, ideal, now);
        GetComplete(c, ideal, t, now);
        RoomyCacheIsIdeal(CacheAfter(c, ops[0]), IdealAfter(ideal, ops[0]), ops[1..], now);
      case Set(t, p, now, later) =>
        assert Complete(c, ideal, now);
        SetComplete(c, ideal, t, p, now, later);
        RoomyCacheIsIdeal(CacheAfter(c, ops[0]), IdealAfter(ideal, ops[0]), ops[1..], later);
      case Clear =>
        RoomyCacheIsIdeal(CacheAfter(c, ops[0]), IdealAfter(ideal, ops[0]), ops[1..], from);
    }
  }

  // ---------------------------------------------------------------- the module's state

  class UserCache {
    var entries: Cache

    constructor ()
      ensures entries == []
    {
      entries := [];
    }

    method ClearAuthCache()
      modifies this
      ensures entries == []
    {
      entries := [];
    }

    method GetCachedUser(token: Token, now: real) returns (payload: Option<Payload>)
      modifies this
      ensures payload == GetResult(old(entries), token, now)
      ensures entries == AfterGet(old(entries), token, now)
    {
      var cached := Lookup(entries, token);
      if cached.None? { return None; }
      if cached.value.expiresAt <= now {
        entries := Pop(entries, token);
        return None;
      }
      return Some(cached.value.payload);
    }

    // `now` and `later` are the two readings of the clock.
    method SetCachedUser(token: Token, payload: Payload, now: real, later: real)
      requires Distinct(entries)
      modifies this
      ensures entries == AfterSet(old(entries), token, payload, now, later)
    {
      if |entries| >= MAX_ENTRIES {
        PurgeExpired(now);
        EvictOldest();
      }
      entries := Assign(entries, Entry(token, later + TTL_SECONDS, payload));
    }

    // Collects the expired keys, then pops them one by one.
    method PurgeExpired(now: real)
      requires Distinct(entries)
      modifies this
      ensures entries == Unexpired(old(entries), now)
    {
      var expired := FindExpired(now);
      ExpiredPopped(entries, now);
      assert expired[0..] == expired;
      for i := 0 to |expired|
        invariant PopAll(entries, expired[i..]) == Unexpired(old(entries), now)
      {
        assert expired[i..][1..] == expired[i + 1..];
        entries := Pop(entries, expired[i]);
      }
    }

    method FindExpired(now: real) returns (expired: seq<Token>)
      ensures expired == Expired(entries, now)
    {
      expired := [];
      for i := 0 to |entries|
        invariant expired + Expired(entries[i..], now) == Expired(entries, now)
      {
        assert entries[i..][1..] == entries[i + 1..];
        if entries[i].expiresAt <= now {
          Assoc(expired, [entries[i].token], Expired(entries[i + 1..], now));
          expired := expired + [entries[i].token];
        }
      }
      assert entries[|entries|..] == [];
      AppendEmpty(expired);
    }

    method EvictOldest()
      modifies this
      ensures entries == if |old(entries)| < MAX_ENTRIES then old(entries)
                         else old(entries)[|old(entries)| - (MAX_ENTRIES - 1)..]
    {
      ghost var n := 0;
      while |entries| >= MAX_ENTRIES
        invariant 0 <= n <= |old(entries)| && entries == old(entries)[n..]
        invariant n > 0 ==> |entries| >= MAX_ENTRIES - 1
        decreases |entries|
      {
        entries := entries[1..];
        n := n + 1;
      }
    }
  }
}
