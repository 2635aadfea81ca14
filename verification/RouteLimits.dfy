/**
 What route registration does not promise (src/infra/websocket.py): exactly when a connected
 user's route can be lost, exactly when a prune is wrong, and runs in which both happen.
 */
module RouteLimits {
  import opened Basics
  import opened Routes
  import opened RouteRecovery

  // ---------------------------------------------------------------- when a route is kept

  // "A route exists exactly for connected users" fails under delay.  A connected user's key
  // that lasts until the next tick can be lost in a steady run if and only if a delayed DEL
  // of an earlier disconnect is still pending.
  lemma KeyIsLostIff(s: State, u: User)
    requires Inv(s) && u in s.connections && Keyed(s, u)
    ensures (exists run :: IsRun(s, run) && SteadyRun(s, run, u) && !RouteLive(Final(s, run), u)) <==> !NoDel(s, u)
  {
    if NoDel(s, u) {
      forall run | IsRun(s, run) && SteadyRun(s, run, u) ensures RouteLive(Final(s, run), u) {
        KeyRun(s, run, u, 0);
        KeyedIsLive(Final(s, run), u);
      }
    } else {
      var op :| op in s.ops && op.user == u && op.count == 0 && op.stage == 0;
      LateUnregisterDropsRoute(s, op, u);
      OneStep(s, OpStep(op, true), u);
    }
  }

  lemma LateUnregisterDropsRoute(s: State, op: Op, u: User)
    requires op in s.ops && op.user == u && op.count == 0 && op.stage == 0
    ensures !RouteLive(Next(s, OpStep(op, true)), u)
    ensures Next(s, OpStep(op, true)).connections == s.connections
  {}

  // A registered user can be lost in a steady run if and only if an unregistration or a
  // prune is still pending.
  lemma RegistrationIsLostIff(s: State, u: User)
    requires Inv(s) && u in s.connections && Stable(s, u)
    ensures (exists run :: IsRun(s, run) && SteadyRun(s, run, u) && !Registered(Final(s, run), u)) <==> !Drained(s, u)
  {
    if Drained(s, u) {
      forall run | IsRun(s, run) && SteadyRun(s, run, u) ensures Registered(Final(s, run), u) {
        StaysRegistered(s, run, u);
      }
    } else if u in s.prunes {
      OneStep(s, PruneDo(u), u);
    } else {
      var op :| op in s.ops && op.user == u && op.count == 0;
      OneStep(s, OpStep(op, true), u);
    }
  }

  lemma OneStep(s: State, a: Action, u: User)
    requires Enabled(s, a) && Steady(s, a, u)
    ensures IsRun(s, [a]) && SteadyRun(s, [a], u) && Final(s, [a]) == Next(s, a)
  {
    assert [a][1..] == [];
  }

  // ---------------------------------------------------------------- when a prune is right

  // A successful SET, or DEL, of the user's route key.
  predicate SetsKey(s: State, a: Action, u: User) {
    || (a.OpStep? && a.ok && a.op.user == u && a.op.count > 0 && a.op.stage == 0)
    || (a.RefreshStep? && a.ok && a.user == u && u in s.tasks && s.tasks[u].Syncing?
        && s.tasks[u].count > 0 && s.tasks[u].stage == 0)
  }

  predicate DeletesKey(s: State, a: Action, u: User) {
    || (a.OpStep? && a.ok && a.op.user == u && a.op.count == 0 && a.op.stage == 0)
    || (a.RefreshStep? && a.ok && a.user == u && u in s.tasks && s.tasks[u].Syncing?
        && s.tasks[u].count == 0 && s.tasks[u].stage == 0)
  }

  predicate KeepsWritten(s: State, run: seq<Action>, u: User)
    requires IsRun(s, run)
    decreases |run|
  {
    run == [] || (!DeletesKey(s, run[0], u) && KeepsWritten(Next(s, run[0]), run[1..], u))
  }

  // Some SET of the run, less than 60 seconds before `end`, is followed by no DEL.
  predicate WrittenLately(s: State, run: seq<Action>, u: User, end: nat)
    requires IsRun(s, run)
    decreases |run|
  {
    run != [] &&
    (|| (SetsKey(s, run[0], u) && end < s.now + ROUTE_TTL && KeepsWritten(Next(s, run[0]), run[1..], u))
     || WrittenLately(Next(s, run[0]), run[1..], u, end))
  }

  lemma KeyChange(s: State, a: Action, u: User)
    requires Enabled(s, a)
    ensures var s' := Next(s, a);
            && s'.now >= s.now
            && (SetsKey(s, a, u) ==> u in s'.routes && s'.routes[u] == s.now + ROUTE_TTL)
            && (DeletesKey(s, a, u) ==> u !in s'.routes)
            && (!SetsKey(s, a, u) && !DeletesKey(s, a, u) ==>
                  (u in s'.routes <==> u in s.routes) && (u in s.routes ==> s'.routes[u] == s.routes[u]))
  {
    if a.OpStep? { KeyChangeByOp(s, a.op, a.ok, u); } else if a.RefreshStep? { KeyChangeByRefresh(s, a, u); }
  }

  lemma KeyChangeByOp(s: State, op: Op, ok: bool, u: User)
    ensures var s', a := DoOp(s, op, ok), OpStep(op, ok);
            && s'.now == s.now
            && (SetsKey(s, a, u) ==> u in s'.routes && s'.routes[u] == s.now + ROUTE_TTL)
            && (DeletesKey(s, a, u) ==> u !in s'.routes)
            && (!SetsKey(s, a, u) && !DeletesKey(s, a, u) ==>
                  (u in s'.routes <==> u in s.routes) && (u in s.routes ==> s'.routes[u] == s.routes[u]))
  {}

  lemma KeyChangeByRefresh(s: State, a: Action, u: User)
    requires Enabled(s, a) && a.RefreshStep?
    ensures var s' := DoRefreshStep(s, a.user, a.ok);
            && s'.now == s.now
            && (SetsKey(s, a, u) ==> u in s'.routes && s'.routes[u] == s.now + ROUTE_TTL)
            && (DeletesKey(s, a, u) ==> u !in s'.routes)
            && (!SetsKey(s, a, u) && !DeletesKey(s, a, u) ==>
                  (u in s'.routes <==> u in s.routes) && (u in s.routes ==> s'.routes[u] == s.routes[u]))
  {}

  // A route is live at the end of a run exactly if it was written lately, or was there
  // before, for long enough, and not deleted.
  lemma {:induction false} RouteLiveIff(s: State, run: seq<Action>, u: User, end: nat)
    requires IsRun(s, run) && end >= Final(s, run).now && (u in s.routes ==> s.routes[u] <= s.now + ROUTE_TTL)
    ensures end >= s.now
    ensures (u in Final(s, run).routes && end < Final(s, run).routes[u])
            <==> WrittenLately(s, run, u, end) || (u in s.routes && end < s.routes[u] && KeepsWritten(s, run, u))
    decreases |run|
  {
    if run != [] {
      KeyChange(s, run[0], u);
      RouteLiveIff(Next(s, run[0]), run[1..], u, end);
    }
  }

  // A sender that saw no route key drops the membership of a live route if and only if a
  // SET between its GET and its SREM, by a delayed write or a refresh, is still in force.
  lemma PruneIsWrongIff(s: State, run: seq<Action>, u: User)
    requires Enabled(s, PruneSee(u)) && IsRun(Next(s, PruneSee(u)), run)
    requires Enabled(Final(Next(s, PruneSee(u)), run), PruneDo(u))
    ensures
      var seen := Next(s, PruneSee(u));
      var dropped := Next(Final(seen, run), PruneDo(u));
      && !(SetLive(dropped, u) && dropped.sets[u].listed)
      && (RouteLive(dropped, u) <==> WrittenLately(seen, run, u, dropped.now))
  {
    var seen := Next(s, PruneSee(u));
    RouteLiveIff(seen, run, u, Final(seen, run).now);
  }

  // ---------------------------------------------------------------- failing runs

  lemma {:induction false} RunAppend(s: State, first: seq<Action>, second: seq<Action>)
    requires IsRun(s, first) && IsRun(Final(s, first), second)
    ensures IsRun(s, first + second) && Final(s, first + second) == Final(Final(s, first), second)
    decreases |first|
  {
    if first == [] {
      AppendEmpty(second);
    } else {
      TailOfAppend(first, second);
      RunAppend(Next(s, first[0]), first[1..], second);
    }
  }

  lemma Extend(s: State, run: seq<Action>, a: Action)
    requires IsRun(s, run) && Enabled(Final(s, run), a)
    ensures IsRun(s, run + [a]) && Final(s, run + [a]) == Next(Final(s, run), a)
  {
    assert [a][1..] == [];
    RunAppend(s, run, [a]);
  }

  // A user who left at once, with the writes of both calls still delayed; and who came back.
  ghost predicate LeftAtOnce(s: State, u: User) {
    && s.connections == map[] && s.tasks == map[] && s.lock.Free?
    && s.ops == multiset{Op(u, 1, 0), Op(u, 0, 0)} && Untouched(s)
  }

  ghost predicate BackAtOnce(s: State, u: User) {
    && u in s.connections && u in s.tasks && s.tasks[u] == Sleeping(s.now + REFRESH_INTERVAL)
    && s.ops == multiset{Op(u, 1, 0), Op(u, 0, 0), Op(u, 1, 0)} && Untouched(s)
  }

  predicate Untouched(s: State) {
    s.prunes == multiset{} && s.routes == map[] && s.sets == map[] && 2 * s.latency + REFRESH_INTERVAL < ROUTE_TTL
  }

  lemma Leaves(s: State, u: User)
    requires Init(s)
    ensures var run := [Connect(u, 1), Disconnect(u, 1)] + [DisconnectEnd];
            IsRun(s, run) && LeftAtOnce(Final(s, run), u)
  {
    var s1 := JoinsFirst(s, u);
    OneStep(s, Connect(u, 1), u);
    assert [Connect(u, 1)] + [Disconnect(u, 1)] == [Connect(u, 1), Disconnect(u, 1)];
    Extend(s, [Connect(u, 1)], Disconnect(u, 1));
    assert Next(s1, Disconnect(u, 1)).connections == map[] && Next(s1, Disconnect(u, 1)).tasks == map[];
    Extend(s, [Connect(u, 1), Disconnect(u, 1)], DisconnectEnd);
  }

  lemma JoinsFirst(s: State, u: User) returns (s1: State)
    requires Init(s)
    ensures s1 == Next(s, Connect(u, 1)) && s1.lock.Free? && s1.connections == map[u := {1}]
    ensures s1.tasks.Keys == {u} && s1.ops == multiset{Op(u, 1, 0)} && Untouched(s1)
  {
    s1 := Next(s, Connect(u, 1));
    assert {} + {1} == {1};
  }

  lemma Returns(s: State, u: User)
    requires LeftAtOnce(s, u)
    ensures BackAtOnce(Next(s, Connect(u, 2)), u)
  {
    assert {} + {2} == {2};
  }

  lemma ComesBack(s: State, u: User) returns (run: seq<Action>)
    requires Init(s)
    ensures IsRun(s, run) && BackAtOnce(Final(s, run), u)
  {
    run := [Connect(u, 1), Disconnect(u, 1)] + [DisconnectEnd];
    Leaves(s, u);
    Returns(Final(s, run), u);
    Extend(s, run, Connect(u, 2));
    run := run + [Connect(u, 2)];
  }

  // The first delayed write restores the key while the delayed DEL is still pending, so the
  // key can be lost: a run from the start that ends connected and without a route.
  lemma ConnectedWithoutRoute(s: State, u: User) returns (run: seq<Action>)
    requires Init(s)
    ensures IsRun(s, run) && u in Final(s, run).connections && !RouteLive(Final(s, run), u)
  {
    run := ComesBack(s, u);
    var write := OpStep(Op(u, 1, 0), true);
    Extend(s, run, write);
    run := run + [write];
    var keyed := Final(s, run);
    assert Op(u, 0, 0) in keyed.ops;
    RefreshTaskIffConnected(s, run, u);
    KeyIsLostIff(keyed, u);
    var rest :| IsRun(keyed, rest) && SteadyRun(keyed, rest, u) && !RouteLive(Final(keyed, rest), u);
    SteadyStaysConnected(keyed, rest, u);
    RunAppend(s, run, rest);
    run := run + rest;
  }

  lemma {:induction false} SteadyStaysConnected(s: State, run: seq<Action>, u: User)
    requires u in s.connections && IsRun(s, run) && SteadyRun(s, run, u)
    ensures u in Final(s, run).connections
    decreases |run|
  {
    if run != [] { SteadyStaysConnected(Next(s, run[0]), run[1..], u); }
  }

  // The instance is listed, its key is gone, and a write that restores it is still delayed.
  ghost predicate ListedWithoutKey(s: State, u: User) {
    u in s.connections && Op(u, 1, 0) in s.ops && SetLive(s, u) && s.sets[u].listed && !RouteLive(s, u)
  }

  lemma LosesKey(s: State, u: User) returns (run: seq<Action>)
    requires BackAtOnce(s, u)
    ensures IsRun(s, run) && ListedWithoutKey(Final(s, run), u)
  {
    var set_, add, del := OpStep(Op(u, 1, 0), true), OpStep(Op(u, 1, 1), true), OpStep(Op(u, 0, 0), true);
    var s1 := FirstSet(s, u);
    OneStep(s, set_, u);
    var s2 := FirstAdd(s1, u);
    Extend(s, [set_], add);
    LateDel(s2, u);
    Extend(s, [set_] + [add], del);
    run := [set_] + [add] + [del];
  }

  lemma FirstSet(s: State, u: User) returns (s1: State)
    requires BackAtOnce(s, u)
    ensures s1 == Next(s, OpStep(Op(u, 1, 0), true)) && u in s1.connections && s1.sets == map[]
    ensures s1.ops == multiset{Op(u, 1, 1), Op(u, 0, 0), Op(u, 1, 0)}
  {
    s1 := Next(s, OpStep(Op(u, 1, 0), true));
  }

  lemma FirstAdd(s: State, u: User) returns (s1: State)
    requires u in s.connections && s.sets == map[] && s.ops == multiset{Op(u, 1, 1), Op(u, 0, 0), Op(u, 1, 0)}
    ensures s1 == Next(s, OpStep(Op(u, 1, 1), true)) && u in s1.connections
    ensures u in s1.sets && s1.sets[u] == RouteSet(true, Never)
    ensures Op(u, 0, 0) in s1.ops && Op(u, 1, 0) in s1.ops
  {
    s1 := Next(s, OpStep(Op(u, 1, 1), true));
  }

  lemma LateDel(s: State, u: User)
    requires u in s.connections && u in s.sets && s.sets[u] == RouteSet(true, Never)
    requires Op(u, 0, 0) in s.ops && Op(u, 1, 0) in s.ops
    ensures ListedWithoutKey(Next(s, OpStep(Op(u, 0, 0), true)), u)
  {
    LateUnregisterDropsRoute(s, Op(u, 0, 0), u);
  }

  // A run from the start in which a prune drops the membership of a live route: the sender
  // looks after the delayed DEL and before the second delayed write.
  lemma PruneCanDropLiveRoute(s: State, u: User) returns (run: seq<Action>)
    requires Init(s)
    ensures IsRun(s, run)
    ensures var f := Final(s, run); u in f.connections && RouteLive(f, u) && SetLive(f, u) && !f.sets[u].listed
  {
    var back := ComesBack(s, u);
    var lose := LosesKey(Final(s, back), u);
    RunAppend(s, back, lose);
    run := back + lose;
    var prune := PrunesTooLate(Final(s, run), u);
    RunAppend(s, run, prune);
    run := run + prune;
  }

  lemma PrunesTooLate(s: State, u: User) returns (run: seq<Action>)
    requires ListedWithoutKey(s, u)
    ensures IsRun(s, run)
    ensures var f := Final(s, run); u in f.connections && RouteLive(f, u) && SetLive(f, u) && !f.sets[u].listed
  {
    var between := [OpStep(Op(u, 1, 0), true)];
    var seen := Next(s, PruneSee(u));
    OneStep(s, PruneSee(u), u);
    OneStep(seen, between[0], u);
    PruneIsWrongIff(s, between, u);
    RunAppend(s, [PruneSee(u)], between);
    Extend(s, [PruneSee(u)] + between, PruneDo(u));
    run := [PruneSee(u)] + between + [PruneDo(u)];
  }
}
