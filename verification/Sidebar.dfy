/**
 Actions over all mounted session lists (frontend/src/hooks/useSessionSidebarActions.ts):
 placing a moved session, toggling a favourite, deleting sessions.  The project lists and the
 uncategorised list keep tombstones (module SessionList); the lists of scheduled tasks do not
 (module ScheduledList).
 */
module Sidebar {
  import opened Basics
  import opened SessionList
  import opened ScheduledList

  datatype ProjectRef = ProjectRef(id: string, list: FilteredSessionList)

  predicate DistinctLists(lists: seq<FilteredSessionList>) {
    forall i, j :: 0 <= i < j < |lists| ==> lists[i] != lists[j]
  }

  predicate DistinctTasks(tasks: seq<ScheduledTaskList>) {
    forall i, j :: 0 <= i < j < |tasks| ==> tasks[i] != tasks[j]
  }

  function ProjectLists(refs: seq<ProjectRef>): (lists: seq<FilteredSessionList>)
    ensures |lists| == |refs| && forall i :: 0 <= i < |refs| ==> lists[i] == refs[i].list
  {
    seq(|refs|, i requires 0 <= i < |refs| => refs[i].list)
  }

  // The mounted list of a project.
  function Find(refs: seq<ProjectRef>, id: string): (r: Option<FilteredSessionList>)
    ensures r.Some? ==> exists i :: 0 <= i < |refs| && refs[i] == ProjectRef(id, r.value)
  {
    if refs == [] then None else if refs[0].id == id then Some(refs[0].list) else Find(refs[1..], id)
  }

  lemma {:induction false} FindIs(refs: seq<ProjectRef>, id: string)
    requires forall j, k :: 0 <= j < k < |refs| ==> refs[j].id != refs[k].id
    ensures forall i :: 0 <= i < |refs| && refs[i].id == id ==> Find(refs, id) == Some(refs[i].list)
    ensures Find(refs, id).Some? ==> exists i :: 0 <= i < |refs| && refs[i].id == id
  {
    if refs != [] {
      assert forall j :: 0 < j < |refs| ==> refs[j] == refs[1..][j - 1];
      FindIs(refs[1..], id);
    }
  }

  // ---------------------------------------------------------------- moving

  // A list after a move: the session leads it if it belongs there, and is removed with a
  // tombstone if it does not.
  function Placed(s: ListState, moved: Session, here: bool): ListState {
    var rest := Hiding(s.sessions, {moved.id});
    if here then s.(sessions := [moved] + rest, excluded := s.excluded - {moved.id})
    else s.(sessions := rest, excluded := s.excluded + {moved.id})
  }

  lemma PlacedBySteps(s: ListState, moved: Session)
    ensures Next(s, Remove(moved.id)) == Placed(s, moved, false)
    ensures Next(Placed(s, moved, false), Prepend(moved)) == Placed(s, moved, true)
    ensures Next(Placed(s, moved, true), Prepend(moved)) == Placed(s, moved, true)
  {
    HidingFacts(s.sessions, {moved.id});
    assert Placed(s, moved, true).sessions[0].id == moved.id;
    assert (s.excluded + {moved.id}) - {moved.id} == s.excluded - {moved.id};
    assert (s.excluded - {moved.id}) - {moved.id} == s.excluded - {moved.id};
  }

  // After a move a project list or the uncategorised list shows the session exactly if it
  // belongs there, has it tombstoned exactly if not, and every other session and tombstone
  // is where it was.
  lemma PlacedFacts(s: ListState, moved: Session, here: bool)
    ensures var s' := Placed(s, moved, here);
            && (moved.id in Ids(s'.sessions) <==> here)
            && (moved.id in s'.excluded <==> !here)
            && (here ==> s'.sessions[0] == moved)
            && Hiding(s'.sessions, {moved.id}) == Hiding(s.sessions, {moved.id})
            && s'.excluded - {moved.id} == s.excluded - {moved.id}
            && (Inv(s) ==> Inv(s'))
  {
    var rest := Hiding(s.sessions, {moved.id});
    HidingFacts(s.sessions, {moved.id});
    HidingNothing(rest, {moved.id});
    HidingAppend([moved], rest, {moved.id});
    IdsSnoc([], moved);
    IdsAppend([moved], rest);
    assert [] + [moved] == [moved] && Ids([]) == {};
    HidingAll([moved], {moved.id});
    PlacedBySteps(s, moved);
    if Inv(s) {
      StepInv(s, Remove(moved.id));
      StepInv(Placed(s, moved, false), Prepend(moved));
    }
  }

  // ---------------------------------------------------------------- favourites

  // A project list or the uncategorised list after a toggle; `isFavorites` says whether it is
  // the favourites list.
  function Toggled(s: ListState, updated: Session, isFavorite: bool, isFavorites: bool): ListState {
    if isFavorites && isFavorite then Next(Next(Kept(s, updated), Prepend(updated)), Update(updated))
    else if isFavorites && updated.id in Ids(s.sessions) then Next(s, Remove(updated.id))
    else Kept(s, updated)
  }

  function Kept(s: ListState, updated: Session): ListState {
    if updated.id in Ids(s.sessions) then Next(s, Update(updated)) else s
  }

  lemma ReplacedHolds(s: seq<Session>, x: Session)
    ensures x.id in Ids(s) ==> x in Replaced(s, x)
  {
    if x.id in Ids(s) {
      var i :| 0 <= i < |s| && s[i].id == x.id;
      assert Replaced(s, x)[i] == x;
    }
  }

  lemma KeptFacts(s: ListState, updated: Session)
    ensures var k := Kept(s, updated);
            && Ids(k.sessions) == Ids(s.sessions) && (Inv(s) ==> Inv(k))
            && (updated.id in Ids(s.sessions) ==> updated in k.sessions)
  {
    ReplacedIds(s.sessions, updated);
    ReplacedHolds(s.sessions, updated);
    if Inv(s) { StepInv(s, Update(updated)); }
  }

  lemma AddedFacts(k: ListState, updated: Session)
    ensures var a := Next(Next(k, Prepend(updated)), Update(updated));
            && Ids(a.sessions) == Ids(k.sessions) + {updated.id} && (Inv(k) ==> Inv(a)) && updated in a.sessions
  {
    var p := Next(k, Prepend(updated));
    IdsSnoc([], updated);
    assert [] + [updated] == [updated] && Ids([]) == {};
    IdsAppend([updated], k.sessions);
    ReplacedIds(p.sessions, updated);
    ReplacedHolds(p.sessions, updated);
    if Inv(k) {
      StepInv(k, Prepend(updated));
      StepInv(p, Update(updated));
    }
  }

  // Only the favourites list changes its membership, and it holds the session afterwards
  // exactly if it is a favourite.
  lemma ToggledMembership(s: ListState, updated: Session, isFavorite: bool, isFavorites: bool)
    ensures var s' := Toggled(s, updated, isFavorite, isFavorites);
            && Ids(s'.sessions) - {updated.id} == Ids(s.sessions) - {updated.id}
            && (!isFavorites ==> Ids(s'.sessions) == Ids(s.sessions))
            && (isFavorites ==> (updated.id in Ids(s'.sessions) <==> isFavorite))
            && (Inv(s) ==> Inv(s'))
            && (updated.id in Ids(s'.sessions) ==> updated in s'.sessions)
  {
    KeptFacts(s, updated);
    if isFavorites {
      if isFavorite {
        AddedFacts(Kept(s, updated), updated);
      } else if updated.id in Ids(s.sessions) {
        HidingFacts(s.sessions, {updated.id});
        if Inv(s) { StepInv(s, Remove(updated.id)); }
      }
    }
  }

  // Every copy of the session that the list shows is the given one.
  predicate ShowsOnly(s: seq<Session>, x: Session) { forall i :: 0 <= i < |s| && s[i].id == x.id ==> s[i] == x }

  lemma ReplacedShows(s: seq<Session>, x: Session)
    ensures ShowsOnly(Replaced(s, x), x)
  {}

  lemma KeptShows(s: ListState, updated: Session)
    ensures ShowsOnly(Kept(s, updated).sessions, updated)
  {
    ReplacedShows(s.sessions, updated);
    if updated.id !in Ids(s.sessions) {
      assert forall i :: 0 <= i < |s.sessions| ==> s.sessions[i].id in Ids(s.sessions);
    }
  }

  // A mounted list of either kind.
  datatype Mounted = Filtered(list: ListState) | Scheduled(task: TaskState)
  {
    function Shown(): seq<Session> { if Filtered? then list.sessions else task.shown }
  }

  // A toggle does not look at scheduled-task lists.
  function AfterToggle(m: Mounted, updated: Session, isFavorite: bool, isFavorites: bool): Mounted {
    match m
    case Filtered(s) => Filtered(Toggled(s, updated, isFavorite, isFavorites))
    case Scheduled(_) => m
  }

  // After a toggle what a list still shows of the session is the updated copy if and only
  // if it is no scheduled-task list or held that copy already.
  lemma ToggledCopyIff(m: Mounted, updated: Session, isFavorite: bool, isFavorites: bool)
    ensures ShowsOnly(AfterToggle(m, updated, isFavorite, isFavorites).Shown(), updated)
            <==> m.Filtered? || ShowsOnly(m.Shown(), updated)
  {
    if m.Filtered? {
      var s := m.list;
      KeptFacts(s, updated);
      if isFavorites && isFavorite {
        ReplacedShows(Next(Kept(s, updated), Prepend(updated)).sessions, updated);
      } else if isFavorites && updated.id in Ids(s.sessions) {
        HidingFacts(s.sessions, {updated.id});
      } else {
        KeptShows(s, updated);
      }
    }
  }

  // A scheduled-task list that shows the session as it was before the toggle still does.
  lemma ScheduledCopyIsStale(before: Session, updated: Session, isFavorite: bool) returns (s: TaskState)
    requires before.id == updated.id && before.favorite != updated.favorite
    ensures s.shown == [before]
    ensures var after := AfterToggle(Scheduled(s), updated, isFavorite, false);
            before in after.Shown() && !ShowsOnly(after.Shown(), updated)
  {
    s := TaskState([before], 1, false, PAGE_SIZE, false, false);
    assert s.shown[0].id == updated.id && s.shown[0] != updated;
    ToggledCopyIff(Scheduled(s), updated, isFavorite, false);
  }

  // ---------------------------------------------------------------- deleting

  function IdSet(ids: seq<Id>): set<Id> { set i | 0 <= i < |ids| :: ids[i] }

  lemma IdSetSnoc(ids: seq<Id>, k: nat)
    requires k < |ids|
    ensures IdSet(ids[..k + 1]) == IdSet(ids[..k]) + {ids[k]}
  {
    forall i | 0 <= i < k ensures ids[i] in IdSet(ids[..k + 1]) { assert ids[..k + 1][i] == ids[i]; }
    assert ids[..k + 1][k] == ids[k];
    forall x | x in IdSet(ids[..k + 1]) ensures x in IdSet(ids[..k]) + {ids[k]} {
      var i :| 0 <= i < k + 1 && ids[..k + 1][i] == x;
      if i < k { assert ids[..k][i] == x; }
    }
    forall x | x in IdSet(ids[..k]) ensures x in IdSet(ids[..k + 1]) {
      var i :| 0 <= i < k && ids[..k][i] == x;
      assert ids[..k + 1][i] == x;
    }
  }

  // A list with tombstones after a deletion.
  function Deleted(s: ListState, gone: set<Id>): ListState {
    s.(sessions := Hiding(s.sessions, gone), excluded := s.excluded + gone)
  }

  lemma DeletedNothing(s: ListState)
    ensures Deleted(s, {}) == s
  {
    HidingNothing(s.sessions, {});
  }

  lemma WithoutNothing(s: TaskState)
    ensures WithoutIds(s, {}) == s
  {
    HidingNothing(s.shown, {});
  }

  lemma DeletedOneMore(s: ListState, gone: set<Id>, id: Id)
    ensures Next(Deleted(s, gone), Remove(id)) == Deleted(s, gone + {id})
  {
    HidingTwice(s.sessions, gone, {id});
    assert s.excluded + gone + {id} == s.excluded + (gone + {id});
  }

  lemma WithoutOneMore(s: TaskState, gone: set<Id>, id: Id)
    ensures Step(WithoutIds(s, gone), RemoveShown(id)) == WithoutIds(s, gone + {id})
  {
    HidingTwice(s.shown, gone, {id});
  }

  // In a project list or the uncategorised list none of the deleted sessions is shown, all
  // are tombstoned, and the others stay, in order; so none comes back before it is added or
  // updated.
  lemma DeletedFacts(s: ListState, gone: set<Id>)
    ensures var s' := Deleted(s, gone);
            && Ids(s'.sessions) == Ids(s.sessions) - gone
            && (forall x :: x in s.sessions && x.id !in gone ==> x in s'.sessions)
            && gone <= s'.excluded && (Inv(s) ==> Inv(s'))
  {
    HidingFacts(s.sessions, gone);
    forall x | x in s.sessions && x.id !in gone ensures x in Hiding(s.sessions, gone) {
      HidingKeeps(s.sessions, gone, x);
    }
  }

  // So a deleted session stays away from these lists until it is added or updated, and from
  // a scheduled-task list exactly until a response or a prepend holds it.
  lemma DeletedStaysAway(s: ListState, gone: set<Id>, id: Id, ops: seq<Op>)
    requires Inv(s) && id in gone && forall i :: 0 <= i < |ops| ==> !Readds(ops[i], id)
    ensures id !in Ids(Run(Deleted(s, gone), ops).sessions)
  {
    DeletedFacts(s, gone);
    RemovedStaysAway(Deleted(s, gone), ops, id);
  }

  lemma DeletedFromTaskStaysAwayIff(s: TaskState, gone: set<Id>, id: Id, ops: seq<TaskOp>)
    requires id in gone
    ensures NeverShows(WithoutIds(s, gone), ops, id) <==> NoneBrings(ops, id)
  {
    WithoutFacts(s, gone);
    StaysAwayIff(WithoutIds(s, gone), ops, id);
  }

  // ---------------------------------------------------------------- the hook

  class SidebarActions {
    const projectRefs: seq<ProjectRef>
    const scheduledTaskRefs: seq<ScheduledTaskList>
    const uncategorizedList: FilteredSessionList
    const favoritesProject: Option<string>

    // Every mounted list with tombstones.
    ghost function Lists(): seq<FilteredSessionList> { ProjectLists(projectRefs) + [uncategorizedList] }

    // The mounted lists are objects of their own, and each is a valid list.
    ghost predicate Valid()
      reads Lists(), scheduledTaskRefs
    {
      && DistinctLists(Lists()) && DistinctTasks(scheduledTaskRefs)
      && (forall l :: l in Lists() ==> l.Valid())
      && (forall t :: t in scheduledTaskRefs ==> t.Valid())
    }

    constructor (projects: seq<ProjectRef>, scheduled: seq<ScheduledTaskList>, uncategorized: FilteredSessionList,
                 favorites: Option<string>)
      requires DistinctLists(ProjectLists(projects) + [uncategorized]) && DistinctTasks(scheduled)
      requires forall l :: l in ProjectLists(projects) + [uncategorized] ==> l.Valid()
      requires forall t :: t in scheduled ==> t.Valid()
      ensures Valid()
      ensures projectRefs == projects && scheduledTaskRefs == scheduled
      ensures uncategorizedList == uncategorized && favoritesProject == favorites
    {
      projectRefs, scheduledTaskRefs, uncategorizedList, favoritesProject := projects, scheduled, uncategorized, favorites;
    }

    function FavoritesRef(): Option<FilteredSessionList> {
      match favoritesProject case Some(id) => Find(projectRefs, id) case None => None
    }

    // The lists a moved session belongs to, as far as they are mounted.
    predicate BelongsTo(moved: Session, list: FilteredSessionList) {
      || (if moved.projectId != "" then Find(projectRefs, moved.projectId) == Some(list) else list == uncategorizedList)
      || (moved.favorite && FavoritesRef() == Some(list))
    }

    // Where a moved session is shown then, by the projects' ids.
    lemma WhereMoved(moved: Session, i: nat)
      requires DistinctLists(Lists()) && i < |projectRefs|
      requires forall j, k :: 0 <= j < k < |projectRefs| ==> projectRefs[j].id != projectRefs[k].id
      ensures BelongsTo(moved, projectRefs[i].list)
              <==> (moved.projectId != "" && moved.projectId == projectRefs[i].id)
                   || (moved.favorite && favoritesProject == Some(projectRefs[i].id))
      ensures BelongsTo(moved, uncategorizedList) <==> moved.projectId == ""
    {
      ListsAre();
      assert forall j :: 0 <= j < |projectRefs| ==> ProjectLists(projectRefs)[j] == projectRefs[j].list;
      FindIs(projectRefs, moved.projectId);
      if favoritesProject.Some? { FindIs(projectRefs, favoritesProject.value); }
    }

    // The removal loop over the project lists.
    method RemoveFromProjects(id: Id)
      requires DistinctLists(ProjectLists(projectRefs)) && forall l :: l in ProjectLists(projectRefs) ==> l.Valid()
      modifies ProjectLists(projectRefs)
      ensures forall l :: l in ProjectLists(projectRefs) ==> l.Valid() && l.State() == Next(old(l.State()), Remove(id))
    {
      ghost var lists := ProjectLists(projectRefs);
      for i := 0 to |projectRefs|
        invariant forall l :: l in lists ==> l.Valid()
        invariant forall j :: 0 <= j < i ==> lists[j].State() == Next(old(lists[j].State()), Remove(id))
        invariant forall j :: i <= j < |lists| ==> lists[j].State() == old(lists[j].State())
      {
        var list := projectRefs[i].list;
        assert list == lists[i];
        list.RemoveSession(id);
      }
    }

    // The removal loop over the scheduled-task lists.
    method RemoveFromTasks(id: Id)
      requires DistinctTasks(scheduledTaskRefs) && forall t :: t in scheduledTaskRefs ==> t.Valid()
      modifies scheduledTaskRefs
      ensures forall t :: t in scheduledTaskRefs ==> t.Valid() && t.State() == Step(old(t.State()), RemoveShown(id))
    {
      var tasks := scheduledTaskRefs;
      for i := 0 to |tasks|
        invariant forall t :: t in tasks ==> t.Valid()
        invariant forall j :: 0 <= j < i ==> tasks[j].State() == Step(old(tasks[j].State()), RemoveShown(id))
        invariant forall j :: i <= j < |tasks| ==> tasks[j].State() == old(tasks[j].State())
      {
        tasks[i].RemoveSession(id);
      }
    }

    // The three removals that a move and a delete start with.
    method RemoveEverywhere(id: Id)
      requires Valid()
      modifies Lists(), scheduledTaskRefs
      ensures Valid()
      ensures forall l :: l in Lists() ==> l.State() == Next(old(l.State()), Remove(id))
      ensures forall t :: t in scheduledTaskRefs ==> t.State() == Step(old(t.State()), RemoveShown(id))
    {
      ListsAre();
      assert forall i :: 0 <= i < |projectRefs| ==> Lists()[i] == ProjectLists(projectRefs)[i];
      RemoveFromProjects(id);
      RemoveFromTasks(id);
      uncategorizedList.RemoveSession(id);
    }

    lemma ListsAre()
      ensures forall l :: l in Lists() <==> l in ProjectLists(projectRefs) || l == uncategorizedList
      ensures DistinctLists(Lists()) ==> DistinctLists(ProjectLists(projectRefs)) && uncategorizedList !in ProjectLists(projectRefs)
    {
      var projects, all := ProjectLists(projectRefs), Lists();
      assert forall i :: 0 <= i < |projects| ==> all[i] == projects[i];
      assert all[|projects|] == uncategorizedList;
    }

    // A move: in the lists with tombstones the session is placed; from the scheduled-task
    // lists it is only taken out.
    method ApplyMovedSession(moved: Session)
      requires Valid()
      modifies Lists(), scheduledTaskRefs
      ensures Valid()
      ensures forall l :: l in Lists() ==> l.State() == Placed(old(l.State()), moved, BelongsTo(moved, l))
      ensures forall t :: t in scheduledTaskRefs ==> t.State() == WithoutIds(old(t.State()), {moved.id})
    {
      ghost var before := map l | l in Lists() :: l.State();
      RemoveEverywhere(moved.id);
      forall l | l in Lists() ensures l.State() == Placed(before[l], moved, l in {}) {
        PlacedBySteps(before[l], moved);
      }
      PlaceMoved(moved, before);
    }

    // The prepends of a move, after its removals.
    method PlaceMoved(moved: Session, ghost before: map<FilteredSessionList, ListState>)
      requires Valid() && before.Keys == set l | l in Lists()
      requires forall l :: l in Lists() ==> l.State() == Placed(before[l], moved, l in {})
      modifies Lists()
      ensures Valid()
      ensures forall l :: l in Lists() ==> l.State() == Placed(before[l], moved, BelongsTo(moved, l))
    {
      ghost var placed: set<FilteredSessionList> := {};
      FoundIsMounted(moved.projectId);
      var target := if moved.projectId != "" then Find(projectRefs, moved.projectId) else Some(uncategorizedList);
      if target.Some? {
        Place(target.value, moved, before, placed);
        placed := placed + {target.value};
      }
      if moved.favorite && favoritesProject.Some? {
        FoundIsMounted(favoritesProject.value);
        var favorites := Find(projectRefs, favoritesProject.value);
        if favorites.Some? {
          Place(favorites.value, moved, before, placed);
          placed := placed + {favorites.value};
        }
      }
      assert forall l :: l in placed <==> BelongsTo(moved, l);
    }

    lemma FoundIsMounted(id: string)
      ensures Find(projectRefs, id).Some? ==> Find(projectRefs, id).value in Lists()
      ensures uncategorizedList in Lists()
    {
      assert Lists()[|Lists()| - 1] == uncategorizedList;
      if Find(projectRefs, id).Some? {
        var i :| 0 <= i < |projectRefs| && projectRefs[i] == ProjectRef(id, Find(projectRefs, id).value);
        assert Lists()[i] == projectRefs[i].list;
      }
    }

    // Prepending to one list when those in `placed` have the session already.
    method Place(list: FilteredSessionList, moved: Session, ghost before: map<FilteredSessionList, ListState>,
                 ghost placed: set<FilteredSessionList>)
      requires Valid() && list in Lists() && before.Keys == set l | l in Lists()
      requires forall l :: l in Lists() ==> l.State() == Placed(before[l], moved, l in placed)
      modifies list
      ensures Valid()
      ensures forall l :: l in Lists() ==> l.State() == Placed(before[l], moved, l in placed + {list})
    {
      PlacedBySteps(before[list], moved);
      list.PrependSession(moved);
    }

    ghost function ToggledIn(s: ListState, updated: Session, isFavorite: bool, isFavorites: bool): ListState {
      if isFavorites && !isFavorite && updated.id in Ids(s.sessions) then Next(s, Remove(updated.id))
      else Kept(s, updated)
    }

    // The loop over the project lists in a toggle, apart from the favourites' own end.
    method ToggleIn(list: FilteredSessionList, updated: Session, isFavorite: bool, isFavorites: bool)
      requires list.Valid()
      modifies list
      ensures list.Valid() && list.State() == ToggledIn(old(list.State()), updated, isFavorite, isFavorites)
    {
      var found := false;
      for i := 0 to |list.sessions|
        invariant found <==> exists j :: 0 <= j < i && list.sessions[j].id == updated.id
      {
        if list.sessions[i].id == updated.id { found := true; }
      }
      assert found <==> updated.id in Ids(list.sessions);
      if !found { return; }
      if isFavorites && !isFavorite {
        list.RemoveSession(updated.id);
      } else {
        list.UpdateSession(updated);
      }
    }

    method ToggleProjects(updated: Session, isFavorite: bool, favorites: Option<FilteredSessionList>)
      requires DistinctLists(ProjectLists(projectRefs)) && forall l :: l in ProjectLists(projectRefs) ==> l.Valid()
      modifies ProjectLists(projectRefs)
      ensures forall l :: l in ProjectLists(projectRefs) ==>
                l.Valid() && l.State() == ToggledIn(old(l.State()), updated, isFavorite, favorites == Some(l))
    {
      ghost var projects := ProjectLists(projectRefs);
      for i := 0 to |projectRefs|
        invariant forall l :: l in projects ==> l.Valid()
        invariant forall j :: 0 <= j < i ==>
                    projects[j].State() == ToggledIn(old(projects[j].State()), updated, isFavorite, favorites == Some(projects[j]))
        invariant forall j :: i <= j < |projects| ==> projects[j].State() == old(projects[j].State())
      {
        var list := projectRefs[i].list;
        assert list == projects[i];
        ToggleIn(list, updated, isFavorite, favorites == Some(list));
      }
    }

    // A toggle leaves the scheduled-task lists as they are.
    method HandleToggleFavorite(updated: Session, isFavorite: bool)
      requires Valid()
      modifies Lists()
      ensures Valid()
      ensures forall l :: l in Lists() ==>
                l.State() == Toggled(old(l.State()), updated, isFavorite, FavoritesRef() == Some(l))
      ensures forall t :: t in scheduledTaskRefs ==> t.State() == old(t.State())
    {
      ListsAre();
      var favorites := FavoritesRef();
      if favorites.Some? { FoundIsProject(favoritesProject.value); }
      ToggleIn(uncategorizedList, updated, isFavorite, false);
      assert forall i :: 0 <= i < |projectRefs| ==> Lists()[i] == ProjectLists(projectRefs)[i];
      ToggleProjects(updated, isFavorite, favorites);
      if isFavorite && favorites.Some? {
        favorites.value.PrependSession(updated);
        favorites.value.UpdateSession(updated);
      }
    }

    lemma FoundIsProject(id: string)
      ensures Find(projectRefs, id).Some? ==> Find(projectRefs, id).value in ProjectLists(projectRefs)
    {
      if Find(projectRefs, id).Some? {
        var i :| 0 <= i < |projectRefs| && projectRefs[i] == ProjectRef(id, Find(projectRefs, id).value);
        assert ProjectLists(projectRefs)[i] == projectRefs[i].list;
      }
    }

    // Batch deletion: every list loses every deleted session, and the lists with tombstones
    // remember their ids.
    method ConfirmBatchDelete(deletedIds: seq<Id>)
      requires Valid()
      modifies Lists(), scheduledTaskRefs
      ensures Valid()
      ensures forall l :: l in Lists() ==> l.State() == Deleted(old(l.State()), IdSet(deletedIds))
      ensures forall t :: t in scheduledTaskRefs ==> t.State() == WithoutIds(old(t.State()), IdSet(deletedIds))
    {
      ghost var lists := map l | l in Lists() :: l.State();
      ghost var tasks := map t | t in scheduledTaskRefs :: t.State();
      assert deletedIds[..|deletedIds|] == deletedIds && IdSet(deletedIds[..0]) == {};
      forall l | l in Lists() { DeletedNothing(l.State()); }
      forall t | t in scheduledTaskRefs { WithoutNothing(t.State()); }
      for k := 0 to |deletedIds|
        invariant Valid() && DeletedFrom(lists, tasks, IdSet(deletedIds[..k]))
      {
        IdSetSnoc(deletedIds, k);
        DeleteOneMore(deletedIds[k], lists, tasks, IdSet(deletedIds[..k]));
      }
    }

    // The mounted lists as they were, without the ids in `gone`.
    ghost predicate DeletedFrom(lists: map<FilteredSessionList, ListState>, tasks: map<ScheduledTaskList, TaskState>,
                                gone: set<Id>)
      reads Lists(), scheduledTaskRefs
    {
      && (forall l :: l in Lists() ==> l in lists && l.State() == Deleted(lists[l], gone))
      && (forall t :: t in scheduledTaskRefs ==> t in tasks && t.State() == WithoutIds(tasks[t], gone))
    }

    method DeleteOneMore(id: Id, ghost lists: map<FilteredSessionList, ListState>,
                         ghost tasks: map<ScheduledTaskList, TaskState>, ghost gone: set<Id>)
      requires Valid() && DeletedFrom(lists, tasks, gone)
      modifies Lists(), scheduledTaskRefs
      ensures Valid() && DeletedFrom(lists, tasks, gone + {id})
    {
      RemoveEverywhere(id);
      forall l | l in Lists() ensures l.State() == Deleted(lists[l], gone + {id}) {
        DeletedOneMore(lists[l], gone, id);
      }
      forall t | t in scheduledTaskRefs ensures t.State() == WithoutIds(tasks[t], gone + {id}) {
        WithoutOneMore(tasks[t], gone, id);
      }
    }
  }
}
