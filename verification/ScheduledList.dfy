/**
 The session list of one scheduled task (frontend/src/components/sidebar/ScheduledTaskSidebarItem.tsx).
 Unlike the lists of module SessionList it keeps no tombstones: a response is shown as it
 comes, and a soft refresh replaces the list.
 */
module ScheduledList {
  import opened Basics
  import opened SessionList

  datatype TaskState = TaskState(
    shown: seq<Session>, skip: nat, hasMore: bool, loaded: nat, isLoading: bool, isLoadingMore: bool)

  // `total` is the server's count of the task's sessions.
  datatype TaskOp =
    | BeginPage(reset: bool)
    | PageLoaded(reset: bool, targetSkip: nat, fetched: seq<Session>, total: nat)
    | PageFailed(reset: bool)
    | SoftRefreshed(latest: seq<Session>, total: nat)
    | PrependShown(session: Session)
    | RemoveShown(id: Id)
    | UpdateShown(session: Session)

  function Step(s: TaskState, op: TaskOp): TaskState {
    match op
    case BeginPage(reset) =>
      if reset then s.(isLoading := true, skip := 0)
      else if s.isLoadingMore || !s.hasMore then s
      else s.(isLoadingMore := true)
    case PageLoaded(reset, targetSkip, fetched, total) =>
      var from := if reset then 0 else targetSkip;
      s.(shown := if reset then DedupOf(fetched) else DedupOf(s.shown + fetched),
         skip := from + |fetched|,
         loaded := if reset then Max(PAGE_SIZE, |fetched|) else Max(s.loaded, from + |fetched|),
         hasMore := |fetched| > 0 && from + |fetched| < total,
         isLoading := false, isLoadingMore := false)
    case PageFailed(reset) =>
      var s1 := s.(isLoading := false, isLoadingMore := false);
      if reset then s1.(shown := [], hasMore := false) else s1
    case SoftRefreshed(latest, total) =>
      s.(shown := DedupOf(latest), skip := |latest|, loaded := Max(PAGE_SIZE, |latest|), hasMore := |latest| < total)
    case PrependShown(x) => s.(shown := if x.id in Ids(s.shown) then s.shown else [x] + s.shown)
    case RemoveShown(id) => s.(shown := Hiding(s.shown, {id}))
    case UpdateShown(x) => s.(shown := Replaced(s.shown, x))
  }

  // An operation that puts the session into the list, and one that takes it out.
  predicate Brings(op: TaskOp, id: Id) {
    match op
    case PageLoaded(_, _, fetched, _) => id in Ids(fetched)
    case SoftRefreshed(latest, _) => id in Ids(latest)
    case PrependShown(x) => x.id == id
    case _ => false
  }

  predicate Drops(op: TaskOp, id: Id) {
    match op
    case PageLoaded(reset, _, _, _) => reset
    case PageFailed(reset) => reset
    case SoftRefreshed(_, _) => true
    case RemoveShown(gone) => gone == id
    case _ => false
  }

  // What one operation does to the ids of the list, and that it keeps them distinct.
  lemma StepShows(s: TaskState, op: TaskOp, id: Id)
    ensures id in Ids(Step(s, op).shown) <==> Brings(op, id) || (id in Ids(s.shown) && !Drops(op, id))
    ensures Distinct(s.shown) ==> Distinct(Step(s, op).shown)
  {
    match op
    case PageLoaded(reset, _, fetched, _) =>
      DedupFacts(fetched);
      DedupFacts(s.shown + fetched);
      IdsAppend(s.shown, fetched);
    case PageFailed(reset) => assert Ids([]) == {};
    case SoftRefreshed(latest, _) => DedupFacts(latest);
    case PrependShown(x) => PrependIds(s.shown, x);
    case RemoveShown(gone) => HidingFacts(s.shown, {gone});
    case UpdateShown(x) => ReplacedIds(s.shown, x);
    case _ =>
  }

  function RunOf(s: TaskState, ops: seq<TaskOp>): TaskState
    decreases |ops|
  {
    if ops == [] then s else RunOf(Step(s, ops[0]), ops[1..])
  }

  lemma {:induction false} RunDistinct(s: TaskState, ops: seq<TaskOp>)
    requires Distinct(s.shown)
    ensures Distinct(RunOf(s, ops).shown)
    decreases |ops|
  {
    if ops != [] {
      StepShows(s, ops[0], "");
      RunDistinct(Step(s, ops[0]), ops[1..]);
    }
  }

  predicate NeverShows(s: TaskState, ops: seq<TaskOp>, id: Id)
    decreases |ops|
  {
    id !in Ids(s.shown) && (ops == [] || NeverShows(Step(s, ops[0]), ops[1..], id))
  }

  predicate NoneBrings(ops: seq<TaskOp>, id: Id) { forall i :: 0 <= i < |ops| ==> !Brings(ops[i], id) }

  // A session that the list does not show stays away exactly as long as no reset, page or
  // refresh response holds it and nothing prepends it.
  lemma {:induction false} StaysAwayIff(s: TaskState, ops: seq<TaskOp>, id: Id)
    requires id !in Ids(s.shown)
    ensures NeverShows(s, ops, id) <==> NoneBrings(ops, id)
    decreases |ops|
  {
    if ops != [] {
      var rest := ops[1..];
      StepShows(s, ops[0], id);
      assert forall i :: 0 <= i < |rest| ==> rest[i] == ops[i + 1];
      if NoneBrings(ops, id) {
        StaysAwayIff(Step(s, ops[0]), rest, id);
      } else if !Brings(ops[0], id) {
        var i :| 0 <= i < |ops| && Brings(ops[i], id);
        assert Brings(rest[i - 1], id);
        StaysAwayIff(Step(s, ops[0]), rest, id);
      }
    }
  }

  // Some operation brings the session and none after it drops it.
  predicate BroughtAndKept(ops: seq<TaskOp>, id: Id)
    decreases |ops|
  {
    ops != [] && ((Brings(ops[0], id) && NoneDrops(ops[1..], id)) || BroughtAndKept(ops[1..], id))
  }

  // An operation that both drops and brings the session leaves it there.
  predicate NoneDrops(ops: seq<TaskOp>, id: Id)
    decreases |ops|
  {
    ops == [] || ((Brings(ops[0], id) || !Drops(ops[0], id)) && NoneDrops(ops[1..], id))
  }

  // What the list shows at the end of any run is decided by its operations alone.
  lemma {:induction false} ShownAtEndIff(s: TaskState, ops: seq<TaskOp>, id: Id)
    ensures id in Ids(RunOf(s, ops).shown) <==> BroughtAndKept(ops, id) || (id in Ids(s.shown) && NoneDrops(ops, id))
    decreases |ops|
  {
    if ops != [] {
      StepShows(s, ops[0], id);
      ShownAtEndIff(Step(s, ops[0]), ops[1..], id);
    }
  }

  // A removed session comes back with the next refresh response that still holds it.
  lemma RemovedComesBack(s: TaskState, x: Session, total: nat)
    ensures var ops := [RemoveShown(x.id), SoftRefreshed([x], total)];
            && x.id !in Ids(RunOf(s, ops[..1]).shown)
            && RunOf(s, ops).shown == [x]
  {
    var ops := [RemoveShown(x.id), SoftRefreshed([x], total)];
    var removed := Step(s, ops[0]);
    StepShows(s, ops[0], x.id);
    assert ops[..1] == [ops[0]] && [ops[0]][1..] == [];
    assert ops[1..] == [ops[1]] && [ops[1]][1..] == [];
    assert RunOf(removed, [ops[1]]) == RunOf(Step(removed, ops[1]), []);
    DedupDistinct([x]);
  }

  // The list without some sessions; nothing else changes.
  function WithoutIds(s: TaskState, gone: set<Id>): TaskState { s.(shown := Hiding(s.shown, gone)) }

  lemma WithoutFacts(s: TaskState, gone: set<Id>)
    ensures var s' := WithoutIds(s, gone);
            && Ids(s'.shown) == Ids(s.shown) - gone
            && (Distinct(s.shown) ==> Distinct(s'.shown))
            && forall x :: x in s.shown && x.id !in gone ==> x in s'.shown
  {
    HidingFacts(s.shown, gone);
    forall x | x in s.shown && x.id !in gone ensures x in Hiding(s.shown, gone) { HidingKeeps(s.shown, gone, x); }
  }

  // ---------------------------------------------------------------- what is shown of a session

  // How an operation changes the copy of one session that is shown, read off the operation.
  function CopyAfter(copy: Option<Session>, op: TaskOp, id: Id): Option<Session> {
    match op
    case PageLoaded(reset, _, fetched, _) => if !reset && copy.Some? then copy else CopyIn(fetched, id)
    case PageFailed(reset) => if reset then None else copy
    case SoftRefreshed(latest, _) => CopyIn(latest, id)
    case PrependShown(x) => if copy.None? && x.id == id then Some(x) else copy
    case RemoveShown(gone) => if gone == id then None else copy
    case UpdateShown(x) => if copy.Some? && x.id == id then Some(x) else copy
    case BeginPage(_) => copy
  }

  lemma StepCopy(s: TaskState, op: TaskOp, id: Id)
    ensures CopyIn(Step(s, op).shown, id) == CopyAfter(CopyIn(s.shown, id), op, id)
  {
    match op
    case PageLoaded(reset, _, fetched, _) =>
      CopyDedup(fetched, id);
      CopyDedup(s.shown + fetched, id);
      CopyAppend(s.shown, fetched, id);
    case SoftRefreshed(latest, _) => CopyDedup(latest, id);
    case PrependShown(x) =>
      CopyOfOne(x, id);
      CopyAppend([x], s.shown, id);
    case RemoveShown(gone) => CopyHiding(s.shown, {gone}, id);
    case UpdateShown(x) => CopyReplaced(s.shown, x, id);
    case _ =>
  }

  function CopyAfterAll(copy: Option<Session>, ops: seq<TaskOp>, id: Id): Option<Session>
    decreases |ops|
  {
    if ops == [] then copy else CopyAfterAll(CopyAfter(copy, ops[0], id), ops[1..], id)
  }

  // In every run the copy of a session that is shown follows from the operations alone.
  lemma {:induction false} WhatTaskShows(s: TaskState, ops: seq<TaskOp>, id: Id)
    ensures CopyIn(RunOf(s, ops).shown, id) == CopyAfterAll(CopyIn(s.shown, id), ops, id)
    decreases |ops|
  {
    if ops != [] {
      StepCopy(s, ops[0], id);
      WhatTaskShows(Step(s, ops[0]), ops[1..], id);
    }
  }

  // A refresh shows the response in its order, a new session leads the list, and an update
  // keeps everything in its place.
  lemma OrderOfTask(s: TaskState, op: TaskOp)
    ensures op.SoftRefreshed? && Distinct(op.latest) ==> Step(s, op).shown == op.latest
    ensures op.PrependShown? && op.session.id !in Ids(s.shown) ==> Step(s, op).shown == [op.session] + s.shown
    ensures op.UpdateShown? ==> |Step(s, op).shown| == |s.shown|
                                && forall i :: 0 <= i < |s.shown| ==> Step(s, op).shown[i].id == s.shown[i].id
  {
    if op.SoftRefreshed? && Distinct(op.latest) { DedupDistinct(op.latest); }
  }

  // ---------------------------------------------------------------- what the answers say

  // Whether the last answer of the run left more of the task's sessions to load.
  function MoreOfTask(ops: seq<TaskOp>, more: bool): bool {
    if ops == [] then more
    else
      match ops[|ops| - 1]
      case PageLoaded(reset, targetSkip, fetched, total) =>
        fetched != [] && (if reset then 0 else targetSkip) + |fetched| < total
      case SoftRefreshed(latest, total) => |latest| < total
      case PageFailed(reset) => !reset && MoreOfTask(ops[..|ops| - 1], more)
      case _ => MoreOfTask(ops[..|ops| - 1], more)
  }

  function LoadingTask(ops: seq<TaskOp>, loading: bool): bool {
    if ops == [] then loading
    else
      match ops[|ops| - 1]
      case BeginPage(reset) => reset || LoadingTask(ops[..|ops| - 1], loading)
      case PageLoaded(_, _, _, _) => false
      case PageFailed(_) => false
      case _ => LoadingTask(ops[..|ops| - 1], loading)
  }

  lemma {:induction false} RunOfSnoc(s: TaskState, ops: seq<TaskOp>, op: TaskOp)
    ensures RunOf(s, ops + [op]) == Step(RunOf(s, ops), op)
    decreases |ops|
  {
    if ops == [] {
      assert [] + [op] == [op] && [op][1..] == [];
      assert RunOf(s, [op]) == RunOf(Step(s, op), []);
    } else {
      TailOfAppend(ops, [op]);
      RunOfSnoc(Step(s, ops[0]), ops[1..], op);
    }
  }

  // The last answer decides whether there is more, and the list counts as loading from the
  // begin of a fetch to its end.
  lemma {:induction false} LastTaskAnswerDecides(s: TaskState, ops: seq<TaskOp>)
    ensures RunOf(s, ops).hasMore == MoreOfTask(ops, s.hasMore)
    ensures RunOf(s, ops).isLoading == LoadingTask(ops, s.isLoading)
  {
    if ops != [] {
      var init, last := ops[..|ops| - 1], ops[|ops| - 1];
      assert ops == init + [last];
      RunOfSnoc(s, init, last);
      LastTaskAnswerDecides(s, init);
    }
  }

  // While a page is on its way no other one is asked for, and after a failure it is asked
  // for again.
  lemma OneTaskPageAtATime(s: TaskState, ops: seq<TaskOp>)
    requires s.hasMore && forall i :: 0 <= i < |ops| ==> !ops[i].PageLoaded? && !ops[i].PageFailed?
    ensures var f := RunOf(Step(s, BeginPage(false)), ops);
            && Step(f, BeginPage(false)) == f
            && (f.hasMore ==> Step(Step(f, PageFailed(false)), BeginPage(false)).isLoadingMore
                              && !Step(f, PageFailed(false)).isLoadingMore)
  {
    TaskStaysBusy(Step(s, BeginPage(false)), ops);
  }

  lemma TaskStartsAfresh(s: TaskState)
    ensures !s.hasMore ==> Step(s, BeginPage(false)) == s
    ensures Step(s, BeginPage(true)).skip == 0
  {}

  lemma {:induction false} TaskStaysBusy(s: TaskState, ops: seq<TaskOp>)
    requires s.isLoadingMore && forall i :: 0 <= i < |ops| ==> !ops[i].PageLoaded? && !ops[i].PageFailed?
    ensures RunOf(s, ops).isLoadingMore
    decreases |ops|
  {
    if ops != [] {
      assert !ops[0].PageLoaded? && !ops[0].PageFailed?;
      assert forall i :: 0 <= i < |ops[1..]| ==> ops[1..][i] == ops[i + 1];
      TaskStaysBusy(Step(s, ops[0]), ops[1..]);
    }
  }

  // ---------------------------------------------------------------- paging

  // What a visit does with a server that has the given sessions.
  function AfterTaskVisit(s: TaskState, v: Visit, server: seq<Session>): TaskState {
    match v
    case FirstPage => Step(Step(s, BeginPage(true)), PageLoaded(true, 0, Page(server, 0), |server|))
    case NextPage =>
      if s.isLoadingMore || !s.hasMore || s.skip > |server| then s
      else Step(Step(s, BeginPage(false)), PageLoaded(false, s.skip, Page(server, s.skip), |server|))
    case SoftRefresh => Step(s, SoftRefreshed(server[..Min(RefreshRequest(s.loaded), |server|)], |server|))
  }

  function AfterTaskVisits(s: TaskState, visits: seq<Visit>, server: seq<Session>): TaskState
    decreases |visits|
  {
    if visits == [] then s else AfterTaskVisits(AfterTaskVisit(s, visits[0], server), visits[1..], server)
  }

  ghost predicate TaskShowsFirst(s: TaskState, server: seq<Session>, k: nat) {
    && k <= |server| && s.shown == server[..k] && s.skip == k && s.loaded == Max(PAGE_SIZE, k)
    && (s.hasMore <==> k < |server|) && !s.isLoading && !s.isLoadingMore
  }

  lemma TaskVisitShows(s: TaskState, v: Visit, server: seq<Session>, k: nat)
    requires Distinct(server) && (TaskShowsFirst(s, server, k) || v.FirstPage?)
    ensures TaskShowsFirst(AfterTaskVisit(s, v, server), server, ShownAfter(k, v, |server|))
  {
    match v
    case FirstPage => DedupDistinct(Page(server, 0));
    case NextPage => if k < |server| { PagesJoin(server, k); }
    case SoftRefresh => DedupDistinct(server[..Min(RefreshRequest(s.loaded), |server|)]);
  }

  lemma {:induction false} TaskVisitsShow(s: TaskState, visits: seq<Visit>, server: seq<Session>, k: nat)
    requires Distinct(server) && TaskShowsFirst(s, server, k)
    ensures TaskShowsFirst(AfterTaskVisits(s, visits, server), server, ShownAfterAll(k, visits, |server|))
    decreases |visits|
  {
    if visits != [] {
      TaskVisitShows(s, visits[0], server, k);
      TaskVisitsShow(AfterTaskVisit(s, visits[0], server), visits[1..], server, ShownAfter(k, visits[0], |server|));
    }
  }

  // A scheduled task's list pages through the server's list like the lists with tombstones.
  lemma TaskPagingShows(s: TaskState, visits: seq<Visit>, server: seq<Session>)
    requires Distinct(server)
    ensures AfterTaskVisits(s, [FirstPage] + visits, server).shown == server[..ShownAfterAll(Min(20, |server|), visits, |server|)]
  {
    assert ([FirstPage] + visits)[0] == FirstPage && ([FirstPage] + visits)[1..] == visits;
    TaskVisitShows(s, FirstPage, server, 0);
    TaskVisitsShow(AfterTaskVisit(s, FirstPage, server), visits, server, Min(20, |server|));
  }

  class ScheduledTaskList {
    var sessions: seq<Session>
    var skip: nat
    var hasMore: bool
    var loadedCount: nat
    var isLoading: bool
    var isLoadingMore: bool

    ghost function State(): TaskState
      reads this
    {
      TaskState(sessions, skip, hasMore, loadedCount, isLoading, isLoadingMore)
    }

    ghost predicate Valid()
      reads this
    {
      Distinct(sessions)
    }

    constructor ()
      ensures Valid() && State() == TaskState([], 0, false, PAGE_SIZE, false, false)
    {
      sessions, skip, hasMore := [], 0, false;
      loadedCount, isLoading, isLoadingMore := PAGE_SIZE, false, false;
    }

    // fetchSessions before its request; None when it does nothing.
    method BeginFetch(reset: bool) returns (targetSkip: Option<nat>)
      requires Valid()
      modifies this
      ensures Valid() && State() == Step(old(State()), BeginPage(reset))
      ensures targetSkip == if reset then Some(0)
                            else if old(isLoadingMore) || !old(hasMore) then None else Some(old(skip))
    {
      if !reset && (isLoadingMore || !hasMore) { return None; }
      targetSkip := Some(if reset then 0 else skip);
      if reset {
        isLoading, skip := true, 0;
      } else {
        isLoadingMore := true;
      }
    }

    // fetchSessions after its response; targetSkip is what was captured before the request.
    method FinishFetch(reset: bool, targetSkip: nat, items: seq<Session>, total: nat)
      requires Valid() && (reset ==> targetSkip == 0)
      modifies this
      ensures Valid() && State() == Step(old(State()), PageLoaded(reset, targetSkip, items, total))
    {
      StepShows(State(), PageLoaded(reset, targetSkip, items, total), "");
      if reset {
        sessions := Dedup(items);
        skip := |items|;
        loadedCount := if PAGE_SIZE > |items| then PAGE_SIZE else |items|;
      } else {
        sessions := Dedup(sessions + items);
        skip := targetSkip + |items|;
        loadedCount := if loadedCount > targetSkip + |items| then loadedCount else targetSkip + |items|;
      }
      var nextHasMore := targetSkip + |items| < total;
      hasMore := if |items| > 0 then nextHasMore else false;
      isLoading, isLoadingMore := false, false;
    }

    // A failed reset empties the list.
    method FailFetch(reset: bool)
      requires Valid()
      modifies this
      ensures Valid() && State() == Step(old(State()), PageFailed(reset))
    {
      if reset { sessions, hasMore := [], false; }
      isLoading, isLoadingMore := false, false;
    }

    method BeginSoftRefresh() returns (limit: nat)
      ensures limit == RefreshRequest(loadedCount)
    {
      limit := if PAGE_SIZE > loadedCount then PAGE_SIZE else loadedCount;
      if limit > REFRESH_LIMIT { limit := REFRESH_LIMIT; }
    }

    method FinishSoftRefresh(items: seq<Session>, total: nat)
      requires Valid()
      modifies this
      ensures Valid() && State() == Step(old(State()), SoftRefreshed(items, total))
    {
      StepShows(State(), SoftRefreshed(items, total), "");
      sessions := Dedup(items);
      skip := |items|;
      loadedCount := if PAGE_SIZE > |items| then PAGE_SIZE else |items|;
      hasMore := |items| < total;
    }

    method PrependSession(session: Session)
      requires Valid()
      modifies this
      ensures Valid() && State() == Step(old(State()), PrependShown(session))
    {
      StepShows(State(), PrependShown(session), "");
      if session.id in Ids(sessions) { return; }
      sessions := [session] + sessions;
    }

    method RemoveSession(id: Id)
      requires Valid()
      modifies this
      ensures Valid() && State() == Step(old(State()), RemoveShown(id))
    {
      StepShows(State(), RemoveShown(id), "");
      sessions := FilterOut(sessions, {id});
    }

    method UpdateSession(session: Session)
      requires Valid()
      modifies this
      ensures Valid() && State() == Step(old(State()), UpdateShown(session))
    {
      StepShows(State(), UpdateShown(session), "");
      sessions := Replaced(sessions, session);
    }
  }
}
