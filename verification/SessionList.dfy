/**
 The paginated session lists of the sidebar (frontend/src/hooks/useSession.ts): responses
 of any age are merged into a list while the user adds, removes and updates sessions.  A
 removed session's id stays in a tombstone set until the session is added or updated.
 */
module SessionList {
  import opened Basics

  type Id = string

  // The fields that matter here; `revision` stands for everything else.
  datatype Session = Session(id: Id, favorite: bool, projectId: string, revision: nat)

  const PAGE_SIZE: nat := 20
  const REFRESH_LIMIT: nat := 100

  function Ids(s: seq<Session>): set<Id> { set i | 0 <= i < |s| :: s[i].id }

  predicate Distinct(s: seq<Session>) { forall i, j :: 0 <= i < j < |s| ==> s[i].id != s[j].id }

  predicate Visible(s: seq<Session>, excluded: set<Id>) { forall i :: 0 <= i < |s| ==> s[i].id !in excluded }

  // ---------------------------------------------------------------- dedup

  // The first session of each id, in order.
  function DedupOf(s: seq<Session>): seq<Session> {
    if s == [] then []
    else
      var init, last := s[..|s| - 1], s[|s| - 1];
      if last.id in Ids(init) then DedupOf(init) else DedupOf(init) + [last]
  }

  lemma IdsSnoc(s: seq<Session>, x: Session)
    ensures Ids(s + [x]) == Ids(s) + {x.id}
  {
    forall i | 0 <= i < |s| ensures s[i].id in Ids(s + [x]) { assert (s + [x])[i] == s[i]; }
    assert (s + [x])[|s|] == x;
  }

  lemma IdsAppend(a: seq<Session>, b: seq<Session>)
    ensures Ids(a + b) == Ids(a) + Ids(b)
  {
    forall i | 0 <= i < |a| ensures a[i].id in Ids(a + b) { assert (a + b)[i] == a[i]; }
    forall i | 0 <= i < |b| ensures b[i].id in Ids(a + b) { assert (a + b)[|a| + i] == b[i]; }
  }

  lemma PrependIds(s: seq<Session>, x: Session)
    ensures Ids([x] + s) == Ids(s) + {x.id}
    ensures Distinct(s) && x.id !in Ids(s) ==> Distinct([x] + s)
  {
    IdsSnoc([], x);
    assert [] + [x] == [x] && Ids([]) == {};
    IdsAppend([x], s);
    assert forall i :: 0 <= i < |s| ==> s[i].id in Ids(s);
  }

  // Deduplication keeps the ids, makes them distinct, and keeps nothing else.
  lemma {:induction false} DedupFacts(s: seq<Session>)
    ensures Ids(DedupOf(s)) == Ids(s) && Distinct(DedupOf(s))
    ensures forall x :: x in DedupOf(s) ==> x in s
  {
    if s != [] {
      var init, last := s[..|s| - 1], s[|s| - 1];
      DedupFacts(init);
      assert s == init + [last];
      IdsSnoc(init, last);
      IdsSnoc(DedupOf(init), last);
      if last.id !in Ids(init) {
        assert forall i :: 0 <= i < |DedupOf(init)| ==> DedupOf(init)[i].id in Ids(DedupOf(init));
      }
    }
  }

  lemma {:induction false} DedupDistinct(s: seq<Session>)
    requires Distinct(s)
    ensures DedupOf(s) == s
  {
    if s != [] {
      DedupDistinct(s[..|s| - 1]);
      assert s == s[..|s| - 1] + [s[|s| - 1]];
    }
  }

  lemma DedupSnoc(s: seq<Session>, x: Session)
    ensures DedupOf(s + [x]) == if x.id in Ids(s) then DedupOf(s) else DedupOf(s) + [x]
  {
    assert (s + [x])[..|s|] == s;
  }

  // Deduplicating a part first makes no difference.
  lemma {:induction false} DedupAppend(a: seq<Session>, b: seq<Session>)
    ensures DedupOf(a + b) == DedupOf(a + DedupOf(b))
  {
    if b != [] {
      var init, last := b[..|b| - 1], b[|b| - 1];
      DedupAppend(a, init);
      assert b == init + [last];
      Assoc(a, init, [last]);
      Assoc(a, DedupOf(init), [last]);
      DedupFacts(init);
      IdsAppend(a, init);
      IdsAppend(a, DedupOf(init));
      DedupSnoc(init, last);
      DedupSnoc(a + init, last);
      DedupSnoc(a + DedupOf(init), last);
    }
  }

  method Dedup(sessions: seq<Session>) returns (kept: seq<Session>)
    ensures kept == DedupOf(sessions)
  {
    kept := [];
    var seen: set<Id> := {};
    for i := 0 to |sessions|
      invariant seen == Ids(sessions[..i]) && kept == DedupOf(sessions[..i])
    {
      assert sessions[..i + 1] == sessions[..i] + [sessions[i]] && sessions[..i + 1][..i] == sessions[..i];
      IdsSnoc(sessions[..i], sessions[i]);
      if sessions[i].id !in seen {
        seen := seen + {sessions[i].id};
        kept := kept + [sessions[i]];
      }
    }
    assert sessions[..|sessions|] == sessions;
  }

  // ---------------------------------------------------------------- reconcile

  // The sessions whose id is not in the given set, in order.
  function Hiding(s: seq<Session>, hidden: set<Id>): seq<Session> {
    if s == [] then []
    else Hiding(s[..|s| - 1], hidden) + (if s[|s| - 1].id in hidden then [] else [s[|s| - 1]])
  }

  lemma {:induction false} HidingIds(s: seq<Session>, hidden: set<Id>)
    ensures Ids(Hiding(s, hidden)) == Ids(s) - hidden
    ensures forall x :: x in Hiding(s, hidden) ==> x in s
  {
    if s != [] {
      var init, last := s[..|s| - 1], s[|s| - 1];
      HidingIds(init, hidden);
      assert s == init + [last];
      IdsSnoc(init, last);
      IdsSnoc(Hiding(init, hidden), last);
      if last.id in hidden {
        assert Hiding(s, hidden) == Hiding(init, hidden);
      } else {
        assert Hiding(s, hidden) == Hiding(init, hidden) + [last];
      }
    }
  }

  lemma {:induction false} HidingDistinct(s: seq<Session>, hidden: set<Id>)
    requires Distinct(s)
    ensures Distinct(Hiding(s, hidden))
  {
    if s != [] {
      var init, last := s[..|s| - 1], s[|s| - 1];
      HidingDistinct(init, hidden);
      HidingIds(init, hidden);
      forall i | 0 <= i < |Hiding(init, hidden)| ensures Hiding(init, hidden)[i].id != last.id {
        assert Hiding(init, hidden)[i] in init;
      }
    }
  }

  lemma HidingFacts(s: seq<Session>, hidden: set<Id>)
    ensures Ids(Hiding(s, hidden)) == Ids(s) - hidden && Visible(Hiding(s, hidden), hidden)
    ensures Distinct(s) ==> Distinct(Hiding(s, hidden))
  {
    HidingIds(s, hidden);
    if Distinct(s) { HidingDistinct(s, hidden); }
    var h := Hiding(s, hidden);
    assert forall i :: 0 <= i < |h| ==> h[i].id in Ids(h);
  }

  lemma {:induction false} HidingAppend(a: seq<Session>, b: seq<Session>, hidden: set<Id>)
    ensures Hiding(a + b, hidden) == Hiding(a, hidden) + Hiding(b, hidden)
  {
    if b == [] {
      assert a + b == a;
    } else {
      assert (a + b)[..|a + b| - 1] == a + b[..|b| - 1];
      HidingAppend(a, b[..|b| - 1], hidden);
    }
  }

  lemma {:induction false} HidingNothing(s: seq<Session>, hidden: set<Id>)
    requires Ids(s) !! hidden
    ensures Hiding(s, hidden) == s
  {
    if s != [] {
      var init, last := s[..|s| - 1], s[|s| - 1];
      assert s == init + [last];
      IdsSnoc(init, last);
      HidingNothing(init, hidden);
    }
  }

  lemma {:induction false} HidingAll(s: seq<Session>, hidden: set<Id>)
    requires Ids(s) <= hidden
    ensures Hiding(s, hidden) == []
  {
    if s != [] {
      var init, last := s[..|s| - 1], s[|s| - 1];
      assert s == init + [last];
      IdsSnoc(init, last);
      HidingAll(init, hidden);
    }
  }

  lemma {:induction false} HidingTwice(s: seq<Session>, a: set<Id>, b: set<Id>)
    ensures Hiding(Hiding(s, a), b) == Hiding(s, a + b)
  {
    if s != [] {
      var init, last := s[..|s| - 1], s[|s| - 1];
      HidingTwice(init, a, b);
      if last.id !in a {
        assert Hiding(s, a) == Hiding(init, a) + [last];
        assert (Hiding(init, a) + [last])[..|Hiding(init, a)|] == Hiding(init, a);
      } else {
        assert Hiding(s, a) == Hiding(init, a);
      }
    }
  }

  // The visible part of the response, then (unless missing sessions are to go) what the
  // list held beyond it.
  function Reconciled(previous: seq<Session>, latest: seq<Session>, removeMissing: bool, excluded: set<Id>): seq<Session> {
    var visible := Hiding(latest, excluded);
    if removeMissing then DedupOf(visible)
    else DedupOf(visible + Hiding(previous, Ids(visible) + excluded))
  }

  lemma ReconciledFacts(previous: seq<Session>, latest: seq<Session>, removeMissing: bool, excluded: set<Id>)
    ensures var r := Reconciled(previous, latest, removeMissing, excluded);
            && Distinct(r) && Ids(r) == (Ids(latest) + (if removeMissing then {} else Ids(previous))) - excluded
  {
    var visible := Hiding(latest, excluded);
    HidingFacts(latest, excluded);
    HidingFacts(previous, Ids(visible) + excluded);
    DedupFacts(visible);
    DedupFacts(visible + Hiding(previous, Ids(visible) + excluded));
    IdsAppend(visible, Hiding(previous, Ids(visible) + excluded));
  }

  // Reconciling twice with one response is reconciling once.
  lemma ReconcileIdempotent(previous: seq<Session>, latest: seq<Session>, removeMissing: bool, excluded: set<Id>)
    ensures var r := Reconciled(previous, latest, removeMissing, excluded);
            Reconciled(r, latest, removeMissing, excluded) == r
  {
    if !removeMissing {
      var visible := Hiding(latest, excluded);
      var hidden := Ids(visible) + excluded;
      var rest := Hiding(previous, hidden);
      HidingFacts(previous, hidden);
      DedupSplit(visible, rest);
      var r := DedupOf(visible + rest);
      assert r == DedupOf(visible) + DedupOf(rest);
      DedupFacts(visible);
      DedupFacts(rest);
      HidingAppend(DedupOf(visible), DedupOf(rest), hidden);
      HidingAll(DedupOf(visible), hidden);
      HidingNothing(DedupOf(rest), hidden);
      assert Hiding(r, hidden) == DedupOf(rest);
      DedupAppend(visible, rest);
    }
  }

  // Parts without common ids are deduplicated apart.
  lemma {:induction false} DedupSplit(a: seq<Session>, b: seq<Session>)
    requires Ids(a) !! Ids(b)
    ensures DedupOf(a + b) == DedupOf(a) + DedupOf(b)
  {
    if b == [] {
      assert a + b == a;
    } else {
      var init, last := b[..|b| - 1], b[|b| - 1];
      assert b == init + [last];
      IdsSnoc(init, last);
      DedupSplit(a, init);
      assert (a + b)[..|a + b| - 1] == a + init;
      IdsAppend(a, init);
    }
  }

  // A session of the response that is not excluded is shown as the response has it.
  lemma FreshCopyWins(previous: seq<Session>, latest: seq<Session>, removeMissing: bool, excluded: set<Id>, x: Session)
    requires Distinct(latest) && x in latest && x.id !in excluded
    ensures x in Reconciled(previous, latest, removeMissing, excluded)
  {
    var visible := Hiding(latest, excluded);
    HidingFacts(latest, excluded);
    HidingKeeps(latest, excluded, x);
    DedupDistinct(visible);
    var hidden := Ids(visible) + excluded;
    HidingFacts(previous, hidden);
    DedupSplit(visible, Hiding(previous, hidden));
  }

  lemma {:induction false} HidingKeeps(s: seq<Session>, hidden: set<Id>, x: Session)
    requires x in s && x.id !in hidden
    ensures x in Hiding(s, hidden)
  {
    var init, last := s[..|s| - 1], s[|s| - 1];
    assert s == init + [last];
    if x in init { HidingKeeps(init, hidden, x); }
  }

  method FilterOut(s: seq<Session>, hidden: set<Id>) returns (kept: seq<Session>)
    ensures kept == Hiding(s, hidden)
  {
    kept := [];
    for i := 0 to |s|
      invariant kept == Hiding(s[..i], hidden)
    {
      assert s[..i + 1][..i] == s[..i];
      if s[i].id !in hidden { kept := kept + [s[i]]; }
    }
    assert s[..|s|] == s;
  }

  method ReconcileSessionList(previous: seq<Session>, latest: seq<Session>, removeMissing: bool, excluded: set<Id>)
    returns (result: seq<Session>)
    ensures result == Reconciled(previous, latest, removeMissing, excluded)
  {
    var visibleLatest := FilterOut(latest, excluded);
    var latestIds := Ids(visibleLatest);
    var merged := visibleLatest;
    if removeMissing {
      result := Dedup(merged);
      return;
    }
    for i := 0 to |previous|
      invariant merged == visibleLatest + Hiding(previous[..i], latestIds + excluded)
    {
      assert previous[..i + 1][..i] == previous[..i];
      if previous[i].id !in latestIds && previous[i].id !in excluded {
        merged := merged + [previous[i]];
      }
    }
    assert previous[..|previous|] == previous;
    result := Dedup(merged);
  }

  // ---------------------------------------------------------------- the list and its operations

  datatype ListState = ListState(
    sessions: seq<Session>, excluded: set<Id>, skip: nat, hasMore: bool, loaded: nat,
    isLoading: bool, isLoadingMore: bool)

  datatype Op =
    | FilterChanged
    | Begin(reset: bool)
    | Loaded(reset: bool, targetSkip: nat, fetched: seq<Session>, hasMore: bool)
    | Failed
    | Refreshed(latest: seq<Session>, hasMore: bool, removeMissing: bool)
    | Prepend(session: Session)
    | Remove(id: Id)
    | Update(session: Session)

  function Replaced(s: seq<Session>, x: Session): (r: seq<Session>)
    ensures |r| == |s| && forall i :: 0 <= i < |s| ==> r[i] == if s[i].id == x.id then x else s[i]
  {
    seq(|s|, i requires 0 <= i < |s| => if s[i].id == x.id then x else s[i])
  }

  function Next(s: ListState, op: Op): ListState {
    match op
    case FilterChanged => s.(sessions := [], skip := 0, hasMore := false, loaded := PAGE_SIZE)
    case Begin(reset) =>
      if reset then s.(isLoading := true, skip := 0)
      else if s.isLoadingMore || !s.hasMore then s
      else s.(isLoadingMore := true)
    case Loaded(reset, targetSkip, fetched, hasMore) =>
      var incoming := Hiding(fetched, s.excluded);
      s.(sessions := if reset then DedupOf(incoming) else DedupOf(s.sessions + incoming),
         skip := (if reset then 0 else targetSkip) + |fetched|,
         loaded := if reset then Max(PAGE_SIZE, |incoming|) else Max(s.loaded, targetSkip + |incoming|),
         hasMore := |fetched| > 0 && hasMore,
         isLoading := false, isLoadingMore := false)
    case Failed => s.(isLoading := false, isLoadingMore := false)
    case Refreshed(latest, hasMore, removeMissing) =>
      s.(sessions := Reconciled(s.sessions, latest, removeMissing, s.excluded),
         loaded := Max(PAGE_SIZE, |latest|), skip := |latest|, hasMore := hasMore)
    case Prepend(x) =>
      s.(excluded := s.excluded - {x.id},
         sessions := if x.id in Ids(s.sessions) then s.sessions else [x] + s.sessions)
    case Remove(id) =>
      s.(excluded := s.excluded + {id}, sessions := Hiding(s.sessions, {id}))
    case Update(x) =>
      s.(excluded := s.excluded - {x.id}, sessions := Replaced(s.sessions, x))
  }

  // Ids are distinct and disjoint from the tombstones.
  ghost predicate Inv(s: ListState) { Distinct(s.sessions) && Ids(s.sessions) !! s.excluded }

  lemma StepInv(s: ListState, op: Op)
    requires Inv(s)
    ensures Inv(Next(s, op))
  {
    match op
    case Loaded(reset, _, fetched, _) =>
      var incoming := Hiding(fetched, s.excluded);
      HidingFacts(fetched, s.excluded);
      DedupFacts(incoming);
      DedupFacts(s.sessions + incoming);
      IdsAppend(s.sessions, incoming);
    case Refreshed(latest, _, removeMissing) =>
      ReconciledFacts(s.sessions, latest, removeMissing, s.excluded);
    case Prepend(x) => PrependIds(s.sessions, x);
    case Remove(id) => HidingFacts(s.sessions, {id});
    case Update(x) => ReplacedIds(s.sessions, x);
    case _ =>
  }

  lemma ReplacedIds(s: seq<Session>, x: Session)
    ensures Ids(Replaced(s, x)) == Ids(s)
  {
    assert forall i :: 0 <= i < |s| ==> Replaced(s, x)[i].id == s[i].id;
  }

  function Run(s: ListState, ops: seq<Op>): ListState
    decreases |ops|
  {
    if ops == [] then s else Run(Next(s, ops[0]), ops[1..])
  }

  // Over any run, whatever the responses contain: ids stay distinct and no tombstoned
  // session is shown.
  lemma {:induction false} RunInv(s: ListState, ops: seq<Op>)
    requires Inv(s)
    ensures Inv(Run(s, ops))
    decreases |ops|
  {
    if ops != [] {
      StepInv(s, ops[0]);
      RunInv(Next(s, ops[0]), ops[1..]);
    }
  }

  predicate Readds(op: Op, id: Id) { (op.Prepend? || op.Update?) && op.session.id == id }

  // A removed session never reappears until it is added or updated again.
  lemma {:induction false} RemovedStaysAway(s: ListState, ops: seq<Op>, id: Id)
    requires Inv(s) && id in s.excluded
    requires forall i :: 0 <= i < |ops| ==> !Readds(ops[i], id)
    ensures id in Run(s, ops).excluded && id !in Ids(Run(s, ops).sessions)
    decreases |ops|
  {
    if ops != [] {
      assert !Readds(ops[0], id);
      StepInv(s, ops[0]);
      assert forall i :: 0 <= i < |ops[1..]| ==> ops[1..][i] == ops[i + 1];
      RemovedStaysAway(Next(s, ops[0]), ops[1..], id);
    }
  }

  // ---------------------------------------------------------------- what is shown of a session

  // The copy of a session that a list holds.
  function CopyIn(s: seq<Session>, id: Id): (r: Option<Session>)
    ensures r.Some? ==> r.value in s && r.value.id == id
    ensures r.Some? <==> id in Ids(s)
  {
    if s == [] then None
    else if s[0].id == id then Some(s[0])
    else
      assert s == [s[0]] + s[1..];
      assert Ids(s) == {s[0].id} + Ids(s[1..]) by { PrependIds(s[1..], s[0]); }
      CopyIn(s[1..], id)
  }

  lemma {:induction false} CopyAppend(a: seq<Session>, b: seq<Session>, id: Id)
    ensures CopyIn(a + b, id) == if CopyIn(a, id).Some? then CopyIn(a, id) else CopyIn(b, id)
  {
    if a == [] {
      AppendEmpty(b);
    } else {
      TailOfAppend(a, b);
      CopyAppend(a[1..], b, id);
    }
  }

  lemma CopyOfOne(x: Session, id: Id)
    ensures CopyIn([x], id) == if x.id == id then Some(x) else None
  {
    assert [x][1..] == [];
  }

  lemma {:induction false} CopyDedup(s: seq<Session>, id: Id)
    ensures CopyIn(DedupOf(s), id) == CopyIn(s, id)
  {
    if s != [] {
      var init, last := s[..|s| - 1], s[|s| - 1];
      assert s == init + [last];
      CopyDedup(init, id);
      CopyOfOne(last, id);
      CopyAppend(init, [last], id);
      CopyAppend(DedupOf(init), [last], id);
    }
  }

  lemma {:induction false} CopyHiding(s: seq<Session>, hidden: set<Id>, id: Id)
    ensures CopyIn(Hiding(s, hidden), id) == if id in hidden then None else CopyIn(s, id)
  {
    if s != [] {
      var init, last := s[..|s| - 1], s[|s| - 1];
      assert s == init + [last];
      CopyHiding(init, hidden, id);
      CopyOfOne(last, id);
      CopyAppend(init, [last], id);
      CopyAppend(Hiding(init, hidden), [last], id);
      AppendEmpty(Hiding(init, hidden));
    }
  }

  lemma {:induction false} CopyReplaced(s: seq<Session>, x: Session, id: Id)
    ensures CopyIn(Replaced(s, x), id) == if id == x.id && CopyIn(s, id).Some? then Some(x) else CopyIn(s, id)
  {
    if s != [] {
      assert Replaced(s, x)[1..] == Replaced(s[1..], x);
      CopyReplaced(s[1..], x, id);
    }
  }

  // What the list shows of one session, and whether it has been removed.
  datatype Seen = Seen(copy: Option<Session>, removed: bool)

  function Shows(s: ListState, id: Id): Seen { Seen(CopyIn(s.sessions, id), id in s.excluded) }

  // How an operation changes that, read off the operation: a reset or a refresh shows the
  // response's copy, a page only one of a session not shown yet, and no response a removed
  // session; an update changes what is shown, and a prepend shows what is not.
  function SeenAfter(v: Seen, op: Op, id: Id): Seen {
    match op
    case FilterChanged => v.(copy := None)
    case Loaded(reset, _, fetched, _) =>
      if !reset && v.copy.Some? then v else v.(copy := if v.removed then None else CopyIn(fetched, id))
    case Refreshed(latest, _, removeMissing) =>
      if v.removed then v.(copy := None)
      else if removeMissing || CopyIn(latest, id).Some? then v.(copy := CopyIn(latest, id))
      else v
    case Prepend(x) => if x.id == id then Seen(if v.copy.Some? then v.copy else Some(x), false) else v
    case Remove(gone) => if gone == id then Seen(None, true) else v
    case Update(x) => if x.id == id then Seen(if v.copy.Some? then Some(x) else None, false) else v
    case _ => v
  }

  lemma StepSeen(s: ListState, op: Op, id: Id)
    ensures Shows(Next(s, op), id) == SeenAfter(Shows(s, id), op, id)
  {
    match op
    case Loaded(reset, _, fetched, _) =>
      var incoming := Hiding(fetched, s.excluded);
      CopyHiding(fetched, s.excluded, id);
      CopyDedup(incoming, id);
      CopyDedup(s.sessions + incoming, id);
      CopyAppend(s.sessions, incoming, id);
    case Refreshed(latest, _, removeMissing) => ReconciledSeen(s.sessions, latest, removeMissing, s.excluded, id);
    case Prepend(x) =>
      CopyOfOne(x, id);
      CopyAppend([x], s.sessions, id);
    case Remove(gone) => CopyHiding(s.sessions, {gone}, id);
    case Update(x) => CopyReplaced(s.sessions, x, id);
    case _ =>
  }

  lemma ReconciledSeen(previous: seq<Session>, latest: seq<Session>, removeMissing: bool, excluded: set<Id>, id: Id)
    ensures CopyIn(Reconciled(previous, latest, removeMissing, excluded), id)
            == if id in excluded then None
               else if removeMissing || CopyIn(latest, id).Some? then CopyIn(latest, id)
               else CopyIn(previous, id)
  {
    var visible := Hiding(latest, excluded);
    var rest := Hiding(previous, Ids(visible) + excluded);
    CopyHiding(latest, excluded, id);
    CopyHiding(previous, Ids(visible) + excluded, id);
    CopyDedup(visible, id);
    CopyDedup(visible + rest, id);
    CopyAppend(visible, rest, id);
  }

  function SeenAfterAll(v: Seen, ops: seq<Op>, id: Id): Seen
    decreases |ops|
  {
    if ops == [] then v else SeenAfterAll(SeenAfter(v, ops[0], id), ops[1..], id)
  }

  // In every run, with responses of any content and age, what the list shows of a session
  // and whether it counts as removed follow from the operations alone.
  lemma {:induction false} WhatIsShown(s: ListState, ops: seq<Op>, id: Id)
    ensures Shows(Run(s, ops), id) == SeenAfterAll(Shows(s, id), ops, id)
    decreases |ops|
  {
    if ops != [] {
      StepSeen(s, ops[0], id);
      WhatIsShown(Next(s, ops[0]), ops[1..], id);
    }
  }

  // A refresh shows the response's sessions first, in its order; a new session leads the
  // list, and an update keeps everything in its place.
  lemma OrderOfShown(s: ListState, op: Op)
    ensures op.Refreshed? ==> DedupOf(Hiding(op.latest, s.excluded)) <= Next(s, op).sessions
    ensures op.Prepend? && op.session.id !in Ids(s.sessions) ==> Next(s, op).sessions == [op.session] + s.sessions
    ensures op.Update? ==> |Next(s, op).sessions| == |s.sessions|
                           && forall i :: 0 <= i < |s.sessions| ==> Next(s, op).sessions[i].id == s.sessions[i].id
  {
    if op.Refreshed? && !op.removeMissing {
      var visible := Hiding(op.latest, s.excluded);
      var rest := Hiding(s.sessions, Ids(visible) + s.excluded);
      HidingFacts(s.sessions, Ids(visible) + s.excluded);
      DedupSplit(visible, rest);
    }
  }

  // ---------------------------------------------------------------- what the answers say

  // Whether the last answer of the run left more to load.
  function MoreAfter(ops: seq<Op>, more: bool): bool {
    if ops == [] then more
    else
      match ops[|ops| - 1]
      case Loaded(_, _, fetched, hasMore) => fetched != [] && hasMore
      case Refreshed(_, hasMore, _) => hasMore
      case FilterChanged => false
      case _ => MoreAfter(ops[..|ops| - 1], more)
  }

  // Whether a fetch from the start has begun since the last response or failure.
  function LoadingAfter(ops: seq<Op>, loading: bool): bool {
    if ops == [] then loading
    else
      match ops[|ops| - 1]
      case Begin(reset) => reset || LoadingAfter(ops[..|ops| - 1], loading)
      case Loaded(_, _, _, _) => false
      case Failed => false
      case _ => LoadingAfter(ops[..|ops| - 1], loading)
  }

  lemma {:induction false} RunSnoc(s: ListState, ops: seq<Op>, op: Op)
    ensures Run(s, ops + [op]) == Next(Run(s, ops), op)
    decreases |ops|
  {
    if ops == [] {
      assert [] + [op] == [op] && [op][1..] == [];
      assert Run(s, [op]) == Run(Next(s, op), []);
    } else {
      TailOfAppend(ops, [op]);
      RunSnoc(Next(s, ops[0]), ops[1..], op);
    }
  }

  // The last answer decides whether there is more, and the list counts as loading from the
  // begin of a fetch to its end.
  lemma {:induction false} LastAnswerDecides(s: ListState, ops: seq<Op>)
    ensures Run(s, ops).hasMore == MoreAfter(ops, s.hasMore)
    ensures Run(s, ops).isLoading == LoadingAfter(ops, s.isLoading)
  {
    if ops != [] {
      var init, last := ops[..|ops| - 1], ops[|ops| - 1];
      assert ops == init + [last];
      RunSnoc(s, init, last);
      LastAnswerDecides(s, init);
    }
  }

  // ---------------------------------------------------------------- paging

  // The page a server with the given sessions answers.
  function Page(server: seq<Session>, skip: nat): seq<Session>
    requires skip <= |server|
  {
    server[skip..Min(skip + PAGE_SIZE, |server|)]
  }

  // The list shows exactly the first `skip` sessions of the server that are not removed.
  ghost predicate ShowsPrefix(s: ListState, server: seq<Session>) {
    s.skip <= |server| && s.sessions == Hiding(server[..s.skip], s.excluded)
  }

  lemma PageAppends(server: seq<Session>, skip: nat, excluded: set<Id>)
    requires Distinct(server) && skip <= |server|
    ensures var end := Min(skip + PAGE_SIZE, |server|);
            DedupOf(Hiding(server[..skip], excluded) + Hiding(Page(server, skip), excluded))
            == Hiding(server[..end], excluded)
  {
    var end := Min(skip + PAGE_SIZE, |server|);
    assert server[..end] == server[..skip] + Page(server, skip);
    HidingAppend(server[..skip], Page(server, skip), excluded);
    HidingDistinct(server[..end], excluded);
    DedupDistinct(Hiding(server[..end], excluded));
  }

  // As long as nothing else happens, each page extends the prefix, and when no page is
  // left the list is the whole server list.
  lemma PageExtendsPrefix(s: ListState, server: seq<Session>)
    requires Distinct(server) && ShowsPrefix(s, server)
    ensures
      var s' := Next(s, Loaded(false, s.skip, Page(server, s.skip), s.skip + PAGE_SIZE < |server|));
      && ShowsPrefix(s', server) && s'.skip == Min(s.skip + PAGE_SIZE, |server|)
      && (!s'.hasMore ==> s'.sessions == Hiding(server, s.excluded))
  {
    var end := Min(s.skip + PAGE_SIZE, |server|);
    var s' := Next(s, Loaded(false, s.skip, Page(server, s.skip), s.skip + PAGE_SIZE < |server|));
    PageAppends(server, s.skip, s.excluded);
    assert s'.sessions == Hiding(server[..end], s.excluded) && s'.skip == end;
    if end == |server| { assert server[..end] == server; }
  }

  lemma FirstPageIsPrefix(s: ListState, server: seq<Session>)
    requires Distinct(server)
    ensures ShowsPrefix(Next(s, Loaded(true, 0, Page(server, 0), PAGE_SIZE < |server|)), server)
  {
    PageAppends(server, 0, s.excluded);
    assert server[..0] == [];
    assert [] + Hiding(Page(server, 0), s.excluded) == Hiding(Page(server, 0), s.excluded);
  }

  // How many sessions a soft refresh asks for.
  function RefreshRequest(loaded: nat): (limit: nat)
    ensures PAGE_SIZE <= limit <= REFRESH_LIMIT
  {
    Min(REFRESH_LIMIT, Max(PAGE_SIZE, loaded))
  }

  // A soft refresh of a filtered list, answered by a server of whatever age, makes the list
  // a prefix of what that server has: as long as before, up to 100 sessions.
  lemma RefreshShowsPrefix(s: ListState, server: seq<Session>, hasMore: bool)
    requires Distinct(server)
    ensures
      var limit := Min(RefreshRequest(s.loaded), |server|);
      var s' := Next(s, Refreshed(server[..limit], hasMore, true));
      ShowsPrefix(s', server) && s'.skip == limit
  {
    var latest := server[..Min(RefreshRequest(s.loaded), |server|)];
    HidingDistinct(latest, s.excluded);
    DedupDistinct(Hiding(latest, s.excluded));
  }

  lemma {:induction false} IdsSize(s: seq<Session>)
    ensures |Ids(s)| <= |s| && (Distinct(s) ==> |Ids(s)| == |s|)
  {
    if s == [] {
      assert Ids(s) == {};
    } else {
      var init, last := s[..|s| - 1], s[|s| - 1];
      IdsSize(init);
      assert s == init + [last];
      IdsSnoc(init, last);
      if Distinct(s) { assert last.id !in Ids(init); }
    }
  }

  // Loading, with every response from one server list: pages asked for at any time, and
  // refreshes answered with any of its prefixes.
  predicate FromServer(op: Op, server: seq<Session>) {
    match op
    case Loaded(reset, targetSkip, fetched, _) =>
      var skip := if reset then 0 else targetSkip;
      skip <= |server| && fetched == Page(server, skip)
    case Refreshed(latest, _, removeMissing) => removeMissing && latest <= server
    case Prepend(_) => false
    case Remove(_) => false
    case Update(_) => false
    case _ => true
  }

  // Everything shown is among the first `loaded` sessions of the server.
  ghost predicate WithinLoaded(s: ListState, server: seq<Session>) {
    && s.excluded == {} && s.skip <= s.loaded && PAGE_SIZE <= s.loaded && Distinct(s.sessions)
    && Ids(s.sessions) <= Ids(server[..Min(s.loaded, |server|)])
  }

  lemma PrefixIds(server: seq<Session>, part: seq<Session>, n: nat)
    requires n <= |server| && forall i :: 0 <= i < |part| ==> part[i] in server[..n]
    ensures Ids(part) <= Ids(server[..n])
  {
    forall i | 0 <= i < |part| ensures part[i].id in Ids(server[..n]) {
      var j :| 0 <= j < n && server[..n][j] == part[i];
      assert server[..n][j].id in Ids(server[..n]);
    }
  }

  lemma WithinStep(s: ListState, op: Op, server: seq<Session>)
    requires WithinLoaded(s, server) && FromServer(op, server)
    ensures WithinLoaded(Next(s, op), server)
  {
    match op
    case Loaded(reset, targetSkip, fetched, hasMore) =>
      if reset { WithinReset(s, targetSkip, fetched, hasMore, server); } else { WithinPage(s, targetSkip, fetched, hasMore, server); }
    case Refreshed(latest, _, _) =>
      HidingNothing(latest, {});
      DedupFacts(latest);
      PrefixIds(server, latest, Min(Next(s, op).loaded, |server|));
    case FilterChanged => assert Ids([]) == {};
    case _ =>
  }

  lemma WithinReset(s: ListState, targetSkip: nat, fetched: seq<Session>, hasMore: bool, server: seq<Session>)
    requires WithinLoaded(s, server) && fetched == Page(server, 0)
    ensures WithinLoaded(Next(s, Loaded(true, targetSkip, fetched, hasMore)), server)
  {
    HidingNothing(fetched, {});
    DedupFacts(fetched);
    PrefixIds(server, fetched, Min(Max(PAGE_SIZE, |fetched|), |server|));
  }

  lemma WithinPage(s: ListState, skip: nat, fetched: seq<Session>, hasMore: bool, server: seq<Session>)
    requires WithinLoaded(s, server) && skip <= |server| && fetched == Page(server, skip)
    ensures WithinLoaded(Next(s, Loaded(false, skip, fetched, hasMore)), server)
  {
    HidingNothing(fetched, {});
    DedupWithin(server, s.sessions, Min(s.loaded, |server|), fetched, Min(Max(s.loaded, skip + |fetched|), |server|));
  }

  lemma DedupWithin(server: seq<Session>, shown: seq<Session>, n: nat, fetched: seq<Session>, n': nat)
    requires n <= n' <= |server| && Ids(shown) <= Ids(server[..n])
    requires forall i :: 0 <= i < |fetched| ==> fetched[i] in server[..n']
    ensures Distinct(DedupOf(shown + fetched)) && Ids(DedupOf(shown + fetched)) <= Ids(server[..n'])
  {
    PrefixIds(server, fetched, n');
    PrefixIds(server, server[..n], n');
    DedupFacts(shown + fetched);
    IdsAppend(shown, fetched);
  }

  lemma {:induction false} WithinRun(s: ListState, ops: seq<Op>, server: seq<Session>)
    requires WithinLoaded(s, server) && forall i :: 0 <= i < |ops| ==> FromServer(ops[i], server)
    ensures WithinLoaded(Run(s, ops), server)
    decreases |ops|
  {
    if ops != [] {
      assert FromServer(ops[0], server);
      WithinStep(s, ops[0], server);
      assert forall i :: 0 <= i < |ops[1..]| ==> ops[1..][i] == ops[i + 1];
      WithinRun(Next(s, ops[0]), ops[1..], server);
    }
  }

  // However fetches and refreshes overlap, a soft refresh asks for all that is shown, up to
  // 100 sessions, and so does not shrink the list below that.
  lemma RefreshNeverShrinks(s: ListState, ops: seq<Op>, server: seq<Session>, hasMore: bool)
    requires Distinct(server) && s.sessions == [] && s.excluded == {} && s.skip == 0 && s.loaded == PAGE_SIZE
    requires forall i :: 0 <= i < |ops| ==> FromServer(ops[i], server)
    ensures var f := Run(s, ops);
            var answer := server[..Min(RefreshRequest(f.loaded), |server|)];
            && f.skip <= f.loaded && RefreshRequest(f.loaded) >= Min(REFRESH_LIMIT, |f.sessions|)
            && |Next(f, Refreshed(answer, hasMore, true)).sessions| >= Min(REFRESH_LIMIT, |f.sessions|)
  {
    assert Ids([]) == {};
    WithinRun(s, ops, server);
    var f := Run(s, ops);
    var prefix := server[..Min(f.loaded, |server|)];
    IdsSize(f.sessions);
    IdsSize(prefix);
    SubsetSize(Ids(f.sessions), Ids(prefix));
    var answer := server[..Min(RefreshRequest(f.loaded), |server|)];
    HidingNothing(answer, {});
    DedupDistinct(answer);
  }

  // With tombstones it can: a list that shows a prefix of the server's shrinks exactly if a
  // visible session lies between what the refresh asks for and what has been loaded.
  lemma RefreshShrinksIff(s: ListState, server: seq<Session>, hasMore: bool)
    requires Distinct(server) && ShowsPrefix(s, server)
    ensures var limit := Min(RefreshRequest(s.loaded), |server|);
            |Next(s, Refreshed(server[..limit], hasMore, true)).sessions| < |s.sessions|
            <==> limit < s.skip && Hiding(server[limit..s.skip], s.excluded) != []
  {
    var limit := Min(RefreshRequest(s.loaded), |server|);
    HidingDistinct(server[..limit], s.excluded);
    DedupDistinct(Hiding(server[..limit], s.excluded));
    if limit < s.skip {
      assert server[..s.skip] == server[..limit] + server[limit..s.skip];
      HidingAppend(server[..limit], server[limit..s.skip], s.excluded);
    } else {
      assert server[..limit] == server[..s.skip] + server[s.skip..limit];
      HidingAppend(server[..s.skip], server[s.skip..limit], s.excluded);
    }
  }

  lemma OneHidden(server: seq<Session>, a: nat, k: nat, b: nat)
    requires Distinct(server) && a <= k < b <= |server|
    ensures |Hiding(server[a..b], {server[k].id})| == b - a - 1
  {
    var gone := {server[k].id};
    assert server[a..b] == server[a..k] + ([server[k]] + server[k + 1..b]);
    assert Ids(server[a..k]) !! gone && Ids(server[k + 1..b]) !! gone;
    HidingNothing(server[a..k], gone);
    HidingNothing(server[k + 1..b], gone);
    HidingAll([server[k]], gone);
    HidingAppend([server[k]], server[k + 1..b], gone);
    HidingAppend(server[a..k], [server[k]] + server[k + 1..b], gone);
  }

  // As when a session of the second page has been removed before the page is loaded: it does
  // not count as loaded, and the refresh loses the last session shown.
  lemma HiddenSessionShrinks(s: ListState, server: seq<Session>, hasMore: bool)
    requires Distinct(server) && |server| == 40 && s.sessions == server[..20] && s.skip == 20 && s.loaded == 20
    requires s.excluded == {server[30].id}
    ensures var paged := Next(s, Loaded(false, 20, Page(server, 20), false));
            var answer := server[..Min(RefreshRequest(paged.loaded), 40)];
            |Next(paged, Refreshed(answer, hasMore, true)).sessions| < |paged.sessions|
  {
    assert Ids(server[..20]) !! s.excluded;
    HidingNothing(server[..20], s.excluded);
    PageExtendsPrefix(s, server);
    OneHidden(server, 20, 30, 40);
    var paged := Next(s, Loaded(false, 20, Page(server, 20), false));
    assert paged.loaded == 39;
    assert Ids(server[39..40]) !! s.excluded;
    HidingNothing(server[39..40], s.excluded);
    RefreshShrinksIff(paged, server, hasMore);
  }

  lemma {:induction false} SubsetSize(a: set<Id>, b: set<Id>)
    requires a <= b
    ensures |a| <= |b|
  {
    assert b == a + (b - a);
  }

  // While a page is on its way no other one is asked for: a second Begin changes nothing
  // until a response or a failure has come in, and after a failure the page is asked for again.
  lemma OnePageAtATime(s: ListState, ops: seq<Op>)
    requires s.hasMore && forall i :: 0 <= i < |ops| ==> !ops[i].Loaded? && !ops[i].Failed?
    ensures var f := Run(Next(s, Begin(false)), ops);
            && Next(f, Begin(false)) == f
            && (f.hasMore ==> Next(Next(f, Failed), Begin(false)).isLoadingMore && !Next(f, Failed).isLoadingMore)
  {
    StaysBusy(Next(s, Begin(false)), ops);
  }

  // With nothing more to load no page is asked for; a fetch from the start and a new filter
  // begin at the front again, and the latter with an empty list and the smallest request.
  lemma StartsAfresh(s: ListState)
    ensures !s.hasMore ==> Next(s, Begin(false)) == s
    ensures Next(s, Begin(true)).skip == 0
    ensures var f := Next(s, FilterChanged);
            f.sessions == [] && f.skip == 0 && RefreshRequest(f.loaded) == 20 && f.excluded == s.excluded
  {}

  lemma {:induction false} StaysBusy(s: ListState, ops: seq<Op>)
    requires s.isLoadingMore && forall i :: 0 <= i < |ops| ==> !ops[i].Loaded? && !ops[i].Failed?
    ensures Run(s, ops).isLoadingMore
    decreases |ops|
  {
    if ops != [] {
      assert !ops[0].Loaded? && !ops[0].Failed?;
      assert forall i :: 0 <= i < |ops[1..]| ==> ops[1..][i] == ops[i + 1];
      StaysBusy(Next(s, ops[0]), ops[1..]);
    }
  }

  // One thing after the other: the first page, the next one, or a soft refresh.
  datatype Visit = FirstPage | NextPage | SoftRefresh

  // What each does with a server that has the given sessions.
  function AfterVisit(s: ListState, v: Visit, server: seq<Session>): ListState {
    match v
    case FirstPage => Next(Next(s, Begin(true)), Loaded(true, 0, Page(server, 0), PAGE_SIZE < |server|))
    case NextPage =>
      if s.isLoadingMore || !s.hasMore || s.skip > |server| then s
      else Next(Next(s, Begin(false)), Loaded(false, s.skip, Page(server, s.skip), s.skip + PAGE_SIZE < |server|))
    case SoftRefresh =>
      var limit := RefreshRequest(s.loaded);
      Next(s, Refreshed(server[..Min(limit, |server|)], limit < |server|, true))
  }

  // How many sessions are shown then, when there are n and k were shown.
  function ShownAfter(k: nat, v: Visit, n: nat): nat {
    match v
    case FirstPage => Min(20, n)
    case NextPage => Min(k + 20, n)
    case SoftRefresh => Min(Min(100, Max(20, k)), n)
  }

  function AfterVisits(s: ListState, visits: seq<Visit>, server: seq<Session>): ListState
    decreases |visits|
  {
    if visits == [] then s else AfterVisits(AfterVisit(s, visits[0], server), visits[1..], server)
  }

  function ShownAfterAll(k: nat, visits: seq<Visit>, n: nat): (shown: nat)
    ensures k <= n ==> shown <= n
    decreases |visits|
  {
    if visits == [] then k else ShownAfterAll(ShownAfter(k, visits[0], n), visits[1..], n)
  }

  ghost predicate ShowsFirst(s: ListState, server: seq<Session>, k: nat) {
    && s.excluded == {} && k <= |server| && s.sessions == server[..k] && s.skip == k
    && s.loaded == Max(PAGE_SIZE, k) && (s.hasMore <==> k < |server|) && !s.isLoading && !s.isLoadingMore
  }

  lemma VisitShows(s: ListState, v: Visit, server: seq<Session>, k: nat)
    requires Distinct(server) && (ShowsFirst(s, server, k) || (v.FirstPage? && s.excluded == {}))
    ensures ShowsFirst(AfterVisit(s, v, server), server, ShownAfter(k, v, |server|))
  {
    match v
    case FirstPage => FirstShows(Next(s, Begin(true)), server);
    case NextPage => if k < |server| { PageShows(Next(s, Begin(false)), server, k); }
    case SoftRefresh => RefreshShows(s, server, Min(RefreshRequest(s.loaded), |server|), RefreshRequest(s.loaded) < |server|);
  }

  lemma FirstShows(s: ListState, server: seq<Session>)
    requires Distinct(server) && s.excluded == {}
    ensures ShowsFirst(Next(s, Loaded(true, 0, Page(server, 0), PAGE_SIZE < |server|)), server, Min(PAGE_SIZE, |server|))
  {
    HidingNothing(Page(server, 0), {});
    DedupDistinct(Page(server, 0));
  }

  lemma PageShows(s: ListState, server: seq<Session>, k: nat)
    requires Distinct(server) && s.excluded == {} && k < |server| && s.sessions == server[..k] && s.loaded == Max(PAGE_SIZE, k)
    ensures ShowsFirst(Next(s, Loaded(false, k, Page(server, k), k + PAGE_SIZE < |server|)), server, Min(k + PAGE_SIZE, |server|))
  {
    HidingNothing(Page(server, k), {});
    PagesJoin(server, k);
  }

  lemma PagesJoin(server: seq<Session>, k: nat)
    requires Distinct(server) && k <= |server|
    ensures DedupOf(server[..k] + Page(server, k)) == server[..Min(k + PAGE_SIZE, |server|)]
  {
    assert server[..k] + Page(server, k) == server[..Min(k + PAGE_SIZE, |server|)];
    DedupDistinct(server[..Min(k + PAGE_SIZE, |server|)]);
  }

  lemma RefreshShows(s: ListState, server: seq<Session>, n: nat, more: bool)
    requires Distinct(server) && s.excluded == {} && !s.isLoading && !s.isLoadingMore && n <= |server| && (more <==> n < |server|)
    ensures ShowsFirst(Next(s, Refreshed(server[..n], more, true)), server, n)
  {
    HidingNothing(server[..n], {});
    DedupDistinct(server[..n]);
  }

  lemma {:induction false} VisitsShow(s: ListState, visits: seq<Visit>, server: seq<Session>, k: nat)
    requires Distinct(server) && ShowsFirst(s, server, k)
    ensures ShowsFirst(AfterVisits(s, visits, server), server, ShownAfterAll(k, visits, |server|))
    decreases |visits|
  {
    if visits != [] {
      VisitShows(s, visits[0], server, k);
      VisitsShow(AfterVisit(s, visits[0], server), visits[1..], server, ShownAfter(k, visits[0], |server|));
    }
  }

  // After the first page and any sequence of further pages and soft refreshes the list
  // shows the server's first sessions: 20 more for each page, and as many as before, but at
  // least 20 and at most 100, after a refresh.
  lemma PagingShows(s: ListState, visits: seq<Visit>, server: seq<Session>)
    requires Distinct(server) && s.excluded == {}
    ensures AfterVisits(s, [FirstPage] + visits, server).sessions == server[..ShownAfterAll(Min(20, |server|), visits, |server|)]
  {
    assert ([FirstPage] + visits)[0] == FirstPage && ([FirstPage] + visits)[1..] == visits;
    VisitShows(s, FirstPage, server, 0);
    VisitsShow(AfterVisit(s, FirstPage, server), visits, server, Min(20, |server|));
  }

  // ---------------------------------------------------------------- the hook

  class FilteredSessionList {
    var sessions: seq<Session>
    var excludedSessionIds: set<Id>
    var skip: nat
    var hasMore: bool
    var loadedCount: nat
    var isLoading: bool
    var isLoadingMore: bool

    ghost function State(): ListState
      reads this
    {
      ListState(sessions, excludedSessionIds, skip, hasMore, loadedCount, isLoading, isLoadingMore)
    }

    ghost predicate Valid()
      reads this
    {
      Inv(State())
    }

    constructor ()
      ensures Valid() && State() == ListState([], {}, 0, false, PAGE_SIZE, false, false)
    {
      sessions, excludedSessionIds, skip, hasMore := [], {}, 0, false;
      loadedCount, isLoading, isLoadingMore := PAGE_SIZE, false, false;
    }

    // The part of fetchSessions before its request; None when it does nothing.
    method BeginFetch(reset: bool) returns (targetSkip: Option<nat>)
      requires Valid()
      modifies this
      ensures Valid() && State() == Next(old(State()), Begin(reset))
      ensures targetSkip == if reset then Some(0)
                            else if old(isLoadingMore) || !old(hasMore) then None else Some(old(skip))
    {
      StepInv(State(), Begin(reset));
      if !reset && (isLoadingMore || !hasMore) { return None; }
      targetSkip := Some(if reset then 0 else skip);
      if reset {
        isLoading, skip := true, 0;
      } else {
        isLoadingMore := true;
      }
    }

    // The part after the response; targetSkip is what was captured before the request.
    method FinishFetch(reset: bool, targetSkip: nat, fetched: seq<Session>, responseHasMore: bool)
      requires Valid()
      modifies this
      ensures Valid() && State() == Next(old(State()), Loaded(reset, targetSkip, fetched, responseHasMore))
    {
      StepInv(State(), Loaded(reset, targetSkip, fetched, responseHasMore));
      TakeResponse(reset, targetSkip, fetched, responseHasMore);
    }

    method TakeResponse(reset: bool, targetSkip: nat, fetched: seq<Session>, responseHasMore: bool)
      modifies this
      ensures State() == Next(old(State()), Loaded(reset, targetSkip, fetched, responseHasMore))
    {
      var newSessions := FilterOut(fetched, excludedSessionIds);
      if reset {
        sessions := Dedup(newSessions);
        skip := |fetched|;
        loadedCount := if PAGE_SIZE > |newSessions| then PAGE_SIZE else |newSessions|;
      } else {
        sessions := Dedup(sessions + newSessions);
        skip := targetSkip + |fetched|;
        loadedCount := if loadedCount > targetSkip + |newSessions| then loadedCount else targetSkip + |newSessions|;
      }
      hasMore := if |fetched| > 0 then responseHasMore else false;
      isLoading, isLoadingMore := false, false;
    }

    // The part after a failed request.
    method FailFetch()
      requires Valid()
      modifies this
      ensures Valid() && State() == Next(old(State()), Failed)
    {
      StepInv(State(), Failed);
      isLoading, isLoadingMore := false, false;
    }

    // The effect of a new filter, before it fetches; tombstones stay.
    method ChangeFilter()
      requires Valid()
      modifies this
      ensures Valid() && State() == Next(old(State()), FilterChanged)
    {
      StepInv(State(), FilterChanged);
      sessions, skip, hasMore := [], 0, false;
      loadedCount := PAGE_SIZE;
    }

    // The part of softRefresh before its request.
    method BeginSoftRefresh() returns (requestLimit: nat)
      ensures requestLimit == RefreshRequest(loadedCount)
    {
      requestLimit := if PAGE_SIZE > loadedCount then PAGE_SIZE else loadedCount;
      if requestLimit > REFRESH_LIMIT { requestLimit := REFRESH_LIMIT; }
    }

    method FinishSoftRefresh(latest: seq<Session>, responseHasMore: bool, removeMissing: bool)
      requires Valid()
      modifies this
      ensures Valid() && State() == Next(old(State()), Refreshed(latest, responseHasMore, removeMissing))
    {
      StepInv(State(), Refreshed(latest, responseHasMore, removeMissing));
      sessions := ReconcileSessionList(sessions, latest, removeMissing, excludedSessionIds);
      loadedCount := if PAGE_SIZE > |latest| then PAGE_SIZE else |latest|;
      skip := |latest|;
      hasMore := responseHasMore;
    }

    method PrependSession(session: Session)
      requires Valid()
      modifies this
      ensures Valid() && State() == Next(old(State()), Prepend(session))
    {
      StepInv(State(), Prepend(session));
      excludedSessionIds := excludedSessionIds - {session.id};
      if session.id in Ids(sessions) { return; }
      sessions := [session] + sessions;
    }

    method RemoveSession(id: Id)
      requires Valid()
      modifies this
      ensures Valid() && State() == Next(old(State()), Remove(id))
    {
      StepInv(State(), Remove(id));
      excludedSessionIds := excludedSessionIds + {id};
      sessions := FilterOut(sessions, {id});
    }

    method UpdateSession(session: Session)
      requires Valid()
      modifies this
      ensures Valid() && State() == Next(old(State()), Update(session))
    {
      StepInv(State(), Update(session));
      excludedSessionIds := excludedSessionIds - {session.id};
      sessions := Replaced(sessions, session);
    }
  }
}
