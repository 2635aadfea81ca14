/**
 Self-stabilisation of the routes (src/infra/websocket.py): how a connected user's route key
 and membership come back, whatever delayed writes, Redis errors and prunes did to them.
 */
module RouteRecovery {
  import opened Routes

  // ---------------------------------------------------------------- the key comes back

  // No delayed DEL of the user is left.
  ghost predicate NoDel(s: State, u: User) {
    forall op :: op in s.ops && op.user == u && op.count == 0 ==> op.stage > 0
  }

  // The user keeps a socket and their refresh writes succeed.  Delayed writes may fail or
  // land at any time, and senders may prune.
  predicate Steady(s: State, a: Action, u: User) {
    match a
    case Disconnect(v, ws) => v == u ==> u in s.connections && s.connections[u] - {ws} != {}
    case CleanupOne(v, ws) => v == u ==> u in s.connections && s.connections[u] - {ws} != {}
    case RefreshStep(v, ok) => v == u ==> ok
    case _ => true
  }

  predicate SteadyRun(s: State, run: seq<Action>, u: User)
    requires IsRun(s, run)
    decreases |run|
  {
    run == [] || (Steady(s, run[0], u) && SteadyRun(Next(s, run[0]), run[1..], u))
  }

  ghost predicate RouteAfter(s: State, u: User, t: nat) { u in s.routes && s.routes[u] > t }

  // How long the route key must last at this point of the refresh cycle: until the end of
  // the next tick, or of the one after it when this tick has already written the key.
  function Horizon(s: State, u: User): nat
    requires u in s.tasks
  {
    var t := s.tasks[u];
    t.wake + s.latency + (if t.Syncing? && t.stage > 0 then REFRESH_INTERVAL + s.latency else 0)
  }

  // The route key lasts until a tick has renewed it.
  ghost predicate Keyed(s: State, u: User)
    requires u in s.tasks
  {
    RouteAfter(s, u, Horizon(s, u))
  }

  // A tick is under way, and if it has written the route key the key is still there.
  ghost predicate Fresh(s: State, u: User)
    requires u in s.tasks
  {
    s.tasks[u].Syncing? && (s.tasks[u].stage > 0 ==> Keyed(s, u))
  }

  ghost predicate KeepsKey(s: State, s': State, u: User)
    requires u in s.tasks
  {
    && u in s'.connections && u in s'.tasks && NoDel(s', u)
    && (Keyed(s, u) ==> Keyed(s', u))
    && (Fresh(s, u) ==> if s'.tasks[u].Sleeping? then Keyed(s', u) else Fresh(s', u))
  }

  lemma KeyStep(s: State, a: Action, u: User)
    requires Inv(s) && u in s.connections && NoDel(s, u) && Enabled(s, a) && Steady(s, a, u)
    ensures KeepsKey(s, Next(s, a), u)
  {
    if a.OpStep? { KeyDelayed(s, a, u); }
    else if a.RefreshRead? || a.RefreshStep? { KeyRefreshing(s, a, u); }
    else if a.Connect? || a.Disconnect? || a.CleanupOne? { KeyConnections(s, a, u); }
    else { KeyRest(s, a, u); }
  }

  lemma KeyDelayed(s: State, a: Action, u: User)
    requires Inv(s) && u in s.connections && NoDel(s, u) && Enabled(s, a) && a.OpStep?
    ensures KeepsKey(s, Next(s, a), u)
  {
    if a.op.user == u { assert a.op.count == 0 ==> a.op.stage > 0; }
  }

  lemma KeyRefreshing(s: State, a: Action, u: User)
    requires Inv(s) && u in s.connections && NoDel(s, u) && Enabled(s, a) && Steady(s, a, u)
    requires a.RefreshRead? || a.RefreshStep?
    ensures KeepsKey(s, Next(s, a), u)
  {}

  lemma KeyConnections(s: State, a: Action, u: User)
    requires Inv(s) && u in s.connections && NoDel(s, u) && Enabled(s, a) && Steady(s, a, u)
    requires a.Connect? || a.Disconnect? || a.CleanupOne?
    ensures KeepsKey(s, Next(s, a), u)
  {
    SteadyTask(s, a, u);
    if a.Disconnect? { KeyDisconnecting(s, a, u); }
  }

  lemma KeyDisconnecting(s: State, a: Action, u: User)
    requires u in s.connections && NoDel(s, u) && Enabled(s, a) && Steady(s, a, u) && a.Disconnect?
    ensures NoDel(Next(s, a), u)
  {}

  // A steady action of the connections leaves the user's task and everybody's routes alone.
  lemma SteadyTask(s: State, a: Action, u: User)
    requires Inv(s) && u in s.connections && Enabled(s, a) && Steady(s, a, u)
    requires a.Connect? || a.Disconnect? || a.CleanupOne?
    ensures var s' := Next(s, a);
            && u in s'.connections && u in s'.tasks && s'.tasks[u] == s.tasks[u]
            && s'.routes == s.routes && s'.sets == s.sets && s'.prunes == s.prunes
            && s'.now == s.now && s'.latency == s.latency
  {
    if a.Connect? { ConnectTask(s, a.user, a.socket, u); }
    else if a.Disconnect? { DisconnectTask(s, a, u); }
    else { CleanupTask(s, a, u); }
  }

  lemma ConnectTask(s: State, v: User, ws: Socket, u: User)
    requires Inv(s) && u in s.connections
    ensures var s' := DoConnect(s, v, ws);
            && u in s'.connections && u in s'.tasks && s'.tasks[u] == s.tasks[u]
            && s'.routes == s.routes && s'.sets == s.sets && s'.prunes == s.prunes
            && s'.now == s.now && s'.latency == s.latency
  {}

  lemma DisconnectTask(s: State, a: Action, u: User)
    requires Inv(s) && u in s.connections && a.Disconnect? && Enabled(s, a) && Steady(s, a, u)
    ensures var s' := Next(s, a);
            && u in s'.connections && u in s'.tasks && s'.tasks[u] == s.tasks[u]
            && s'.routes == s.routes && s'.sets == s.sets && s'.prunes == s.prunes
            && s'.now == s.now && s'.latency == s.latency
  {}

  lemma CleanupTask(s: State, a: Action, u: User)
    requires Inv(s) && u in s.connections && a.CleanupOne? && Enabled(s, a) && Steady(s, a, u)
    ensures var s' := Next(s, a);
            && u in s'.connections && u in s'.tasks && s'.tasks[u] == s.tasks[u]
            && s'.routes == s.routes && s'.sets == s.sets && s'.prunes == s.prunes
            && s'.now == s.now && s'.latency == s.latency
  {}

  lemma KeyRest(s: State, a: Action, u: User)
    requires Inv(s) && u in s.connections && NoDel(s, u) && Enabled(s, a)
    requires a.DisconnectEnd? || a.CleanupBegin? || a.CleanupEnd? || a.PruneSee? || a.PruneDo? || a.Touch? || a.Tick?
    ensures KeepsKey(s, Next(s, a), u)
  {}

  // How one action moves the refresh cycle: it stays, starts a tick, or ends one.
  lemma CycleStep(s: State, a: Action, u: User)
    requires Inv(s) && u in s.tasks && Enabled(s, a) && u in Next(s, a).tasks
    ensures var t, t' := s.tasks[u], Next(s, a).tasks[u];
            || (t'.wake == t.wake && (t.Syncing? ==> t'.Syncing?) && (t.Sleeping? && t'.Syncing? ==> t'.stage == 0))
            || (t.Syncing? && t'.Sleeping? && t'.wake <= t.wake + s.latency + REFRESH_INTERVAL)
  {
    if !IsRefreshOf(a, u) { OtherActionsLeaveTask(s, a, u); }
  }

  lemma OtherActionsLeaveTask(s: State, a: Action, u: User)
    requires Inv(s) && u in s.tasks && Enabled(s, a) && u in Next(s, a).tasks && !IsRefreshOf(a, u)
    ensures Next(s, a).tasks[u] == s.tasks[u]
  {}

  // The key is there for good, or will be by time `limit`.
  ghost predicate KeyedBy(s: State, u: User, limit: nat)
    requires u in s.tasks
  {
    var t := s.tasks[u];
    || Keyed(s, u)
    || ((Fresh(s, u) || t.Sleeping?) && t.wake + s.latency <= limit)
    || t.wake + s.latency + REFRESH_INTERVAL + s.latency <= limit
  }

  lemma {:induction false} KeyRun(s: State, run: seq<Action>, u: User, limit: nat)
    requires Inv(s) && u in s.connections && NoDel(s, u) && KeyedBy(s, u, limit)
    requires IsRun(s, run) && SteadyRun(s, run, u)
    ensures var f := Final(s, run);
            && Inv(f) && f.latency == s.latency && u in f.connections && NoDel(f, u)
            && KeyedBy(f, u, limit) && (Keyed(s, u) ==> Keyed(f, u))
    decreases |run|
  {
    if run != [] {
      StepInv(s, run[0]);
      KeyStep(s, run[0], u);
      CycleStep(s, run[0], u);
      KeyRun(Next(s, run[0]), run[1..], u, limit);
    }
  }

  lemma KeyedIsLive(s: State, u: User)
    requires Inv(s) && u in s.tasks && Keyed(s, u)
    ensures RouteLive(s, u) && !Enabled(s, PruneSee(u))
  {}

  // From any reachable state in which the user is connected and no delayed DEL of theirs is
  // left, and whatever else is or is not there, every steady run has the route key back
  // after one refresh period and two latencies, keeps it from then on, and so lets no
  // further prune of the user start.
  lemma RouteRestoredByNextTick(s: State, run: seq<Action>, u: User)
    requires Inv(s) && u in s.connections && NoDel(s, u) && IsRun(s, run) && SteadyRun(s, run, u)
    ensures Final(s, run).now > s.now + REFRESH_INTERVAL + 2 * s.latency ==>
              RouteLive(Final(s, run), u) && !Enabled(Final(s, run), PruneSee(u))
  {
    KeyIsBack(s, run, u);
    if Keyed(Final(s, run), u) { KeyedIsLive(Final(s, run), u); }
  }

  lemma KeyIsBack(s: State, run: seq<Action>, u: User)
    requires Inv(s) && u in s.connections && NoDel(s, u) && IsRun(s, run) && SteadyRun(s, run, u)
    ensures var f := Final(s, run);
            && Inv(f) && f.latency == s.latency && u in f.connections && NoDel(f, u)
            && (f.now > s.now + REFRESH_INTERVAL + 2 * s.latency ==> Keyed(f, u))
  {
    KeyRun(s, run, u, s.now + REFRESH_INTERVAL + 2 * s.latency);
  }

  // ---------------------------------------------------------------- the membership comes back

  // The user is connected, and no delayed unregistration and no prune of theirs is left.
  ghost predicate Drained(s: State, u: User) {
    && u in s.connections
    && (forall op :: op in s.ops && op.user == u ==> op.count > 0)
    && u !in s.prunes
  }

  // A steady action that does not begin a prune of the user.
  predicate Calm(s: State, a: Action, u: User) { Steady(s, a, u) && a != PruneSee(u) }

  predicate CalmRun(s: State, run: seq<Action>, u: User)
    requires IsRun(s, run)
    decreases |run|
  {
    run == [] || (Calm(s, run[0], u) && CalmRun(Next(s, run[0]), run[1..], u))
  }

  // The route key lasts, and the shared set, if it exists, will not expire before the tick
  // has renewed it; once the tick has issued SADD this instance is listed.
  ghost predicate Routed(s: State, u: User)
    requires u in s.tasks
  {
    var t := s.tasks[u];
    && Keyed(s, u)
    && (SetLive(s, u) ==> s.sets[u].ttl.After(t.wake + s.latency))
    && (t.Syncing? && t.stage == 2 ==> SetLive(s, u) && s.sets[u].listed)
  }

  // Registered, and for long enough that the next tick comes first.
  ghost predicate Stable(s: State, u: User)
    requires u in s.tasks
  {
    Routed(s, u) && SetLive(s, u) && s.sets[u].listed
  }

  // A calm action keeps what has been established, or completes the tick.
  ghost predicate KeepsSet(s: State, s': State, u: User)
    requires u in s.tasks && u in s'.tasks
  {
    && Drained(s', u)
    && (Stable(s, u) ==> Stable(s', u))
    && (Routed(s, u) ==> Routed(s', u) && (s.tasks[u].Syncing? && s'.tasks[u].Sleeping? ==> Stable(s', u)))
    && (Fresh(s, u) && s'.tasks[u].Sleeping? ==> Routed(s', u))
  }

  lemma CalmStep(s: State, a: Action, u: User)
    requires Inv(s) && Drained(s, u) && Enabled(s, a) && Calm(s, a, u)
    ensures KeepsKey(s, Next(s, a), u) && KeepsSet(s, Next(s, a), u)
  {
    KeyStep(s, a, u);
    if a.OpStep? { CalmDelayed(s, a.op, a.ok, u); }
    else if a.RefreshRead? || a.RefreshStep? { CalmRefreshing(s, a, u); }
    else if a.Connect? || a.Disconnect? || a.CleanupOne? { CalmConnections(s, a, u); }
    else { CalmRest(s, a, u); }
  }

  lemma CalmConnections(s: State, a: Action, u: User)
    requires Inv(s) && Drained(s, u) && Enabled(s, a) && Calm(s, a, u) && KeepsKey(s, Next(s, a), u)
    requires a.Connect? || a.Disconnect? || a.CleanupOne?
    ensures KeepsSet(s, Next(s, a), u)
  {
    SteadyTask(s, a, u);
    ConnectionsDrain(s, a, u);
  }

  lemma ConnectionsDrain(s: State, a: Action, u: User)
    requires Drained(s, u) && Enabled(s, a) && Steady(s, a, u)
    requires a.Connect? || a.Disconnect? || a.CleanupOne?
    ensures forall op :: op in Next(s, a).ops && op.user == u ==> op.count > 0
  {}

  lemma CalmRest(s: State, a: Action, u: User)
    requires Inv(s) && Drained(s, u) && Enabled(s, a) && Calm(s, a, u) && KeepsKey(s, Next(s, a), u)
    requires a.DisconnectEnd? || a.CleanupBegin? || a.CleanupEnd? || a.PruneSee? || a.PruneDo? || a.Touch? || a.Tick?
    ensures KeepsSet(s, Next(s, a), u)
  {}

  lemma CalmRefreshing(s: State, a: Action, u: User)
    requires Inv(s) && Drained(s, u) && Enabled(s, a) && Calm(s, a, u) && KeepsKey(s, Next(s, a), u)
    requires a.RefreshRead? || a.RefreshStep?
    ensures KeepsSet(s, Next(s, a), u)
  {}

  lemma CalmDelayed(s: State, op: Op, ok: bool, u: User)
    requires Inv(s) && Drained(s, u) && op in s.ops && KeepsKey(s, DoOp(s, op, ok), u)
    ensures KeepsSet(s, DoOp(s, op, ok), u)
  {
    DelayedDrains(s, op, ok, u);
    if ok && op.user == u && op.stage > 0 {
      if op.stage == 1 { DelayedAdd(s, op, u); } else { DelayedExpire(s, op, u); }
    }
  }

  lemma DelayedDrains(s: State, op: Op, ok: bool, u: User)
    requires Drained(s, u) && op in s.ops
    ensures Drained(DoOp(s, op, ok), u)
  {}

  lemma DelayedAdd(s: State, op: Op, u: User)
    requires Inv(s) && Drained(s, u) && op in s.ops && op.user == u && op.stage == 1
    requires KeepsKey(s, DoOp(s, op, true), u) && Drained(DoOp(s, op, true), u)
    ensures KeepsSet(s, DoOp(s, op, true), u)
  {}

  lemma DelayedExpire(s: State, op: Op, u: User)
    requires Inv(s) && Drained(s, u) && op in s.ops && op.user == u && op.stage > 1
    requires KeepsKey(s, DoOp(s, op, true), u) && Drained(DoOp(s, op, true), u)
    ensures KeepsSet(s, DoOp(s, op, true), u)
  {}

  // On the way to being registered for good by time `limit`.
  ghost predicate Converging(s: State, u: User, limit: nat)
    requires u in s.tasks
  {
    var t := s.tasks[u];
    var period := REFRESH_INTERVAL + s.latency;
    || Stable(s, u)
    || (Routed(s, u) && t.wake + s.latency <= limit)
    || ((Fresh(s, u) || t.Sleeping?) && t.wake + s.latency + period <= limit)
    || t.wake + s.latency + 2 * period <= limit
  }

  lemma {:induction false} ConvergingRun(s: State, run: seq<Action>, u: User, limit: nat)
    requires Inv(s) && Drained(s, u) && Converging(s, u, limit) && IsRun(s, run) && CalmRun(s, run, u)
    ensures var f := Final(s, run);
            Inv(f) && f.latency == s.latency && Drained(f, u) && Converging(f, u, limit) && (Stable(s, u) ==> Stable(f, u))
    decreases |run|
  {
    if run != [] {
      StepInv(s, run[0]);
      CalmStep(s, run[0], u);
      CycleStep(s, run[0], u);
      ConvergingRun(Next(s, run[0]), run[1..], u, limit);
    }
  }

  // From any reachable drained state every run without a new prune of the user has them
  // registered once two refresh periods have passed (the second is needed only when the
  // shared set expired in the middle of the first tick), and keeps them registered.
  lemma RegisteredUnlessPruned(s: State, run: seq<Action>, u: User)
    requires Inv(s) && Drained(s, u) && IsRun(s, run) && CalmRun(s, run, u)
    ensures Final(s, run).now > s.now + 2 * REFRESH_INTERVAL + 3 * s.latency ==> Registered(Final(s, run), u)
  {
    ConvergingRun(s, run, u, s.now + 2 * REFRESH_INTERVAL + 3 * s.latency);
  }

  // Once the key is back no prune of the user can begin, so a steady run is a calm one, and
  // what was pending against them only becomes less.
  lemma {:induction false} PendingOnlyDrains(s: State, run: seq<Action>, u: User)
    requires Inv(s) && u in s.connections && NoDel(s, u) && Keyed(s, u) && IsRun(s, run) && SteadyRun(s, run, u)
    ensures CalmRun(s, run, u)
    ensures Final(s, run).prunes[u] <= s.prunes[u]
    ensures forall op :: op in Final(s, run).ops && op.user == u && op.count == 0 ==> op in s.ops
    decreases |run|
  {
    if run != [] {
      var s' := Next(s, run[0]);
      KeyedIsLive(s, u);
      StepInv(s, run[0]);
      KeyStep(s, run[0], u);
      PrunesStep(s, run[0], u);
      PendingStep(s, run[0], u);
      PendingOnlyDrains(s', run[1..], u);
    }
  }

  lemma PrunesStep(s: State, a: Action, u: User)
    requires Enabled(s, a) && a != PruneSee(u)
    ensures Next(s, a).prunes[u] <= s.prunes[u]
  {}

  lemma PendingStep(s: State, a: Action, u: User)
    requires Inv(s) && u in s.connections && NoDel(s, u) && Enabled(s, a) && Steady(s, a, u)
    ensures forall op :: op in Next(s, a).ops && op.user == u && op.count == 0 ==> op in s.ops
  {
    if a.OpStep? { PendingOp(s, a.op, a.ok, u); }
  }

  // A delayed unregistration without its DEL has one command left.
  lemma PendingOp(s: State, op: Op, ok: bool, u: User)
    requires NoDel(s, u) && op in s.ops
    ensures forall o :: o in DoOp(s, op, ok).ops && o.user == u && o.count == 0 ==> o in s.ops
  {}

  // Self-stabilisation, with prunes allowed: from any reachable state in which the user is
  // connected and no delayed DEL is left, every steady run `first` that outlasts a refresh
  // period and two latencies brings the key back; if nothing is pending against the user
  // then, every steady run `second` has them registered after two more periods.
  lemma SelfStabilises(s: State, first: seq<Action>, second: seq<Action>, u: User)
    requires Inv(s) && u in s.connections && NoDel(s, u) && IsRun(s, first) && SteadyRun(s, first, u)
    requires IsRun(Final(s, first), second) && SteadyRun(Final(s, first), second, u)
    ensures var m := Final(s, first);
            && m.now > s.now + REFRESH_INTERVAL + 2 * s.latency && Drained(m, u)
            && Final(m, second).now > m.now + 2 * REFRESH_INTERVAL + 3 * s.latency
            ==> Registered(Final(m, second), u)
  {
    var m := Final(s, first);
    KeyIsBack(s, first, u);
    if Keyed(m, u) && Drained(m, u) {
      PendingOnlyDrains(m, second, u);
      RegisteredUnlessPruned(m, second, u);
    }
  }

  // A registered user with nothing pending stays registered through every steady run:
  // 20 < 60.
  lemma StaysRegistered(s: State, run: seq<Action>, u: User)
    requires Inv(s) && Drained(s, u) && Stable(s, u) && IsRun(s, run) && SteadyRun(s, run, u)
    ensures Registered(Final(s, run), u)
  {
    PendingOnlyDrains(s, run, u);
    ConvergingRun(s, run, u, 0);
  }
}
