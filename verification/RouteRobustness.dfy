/**
 What the ratio of the refresh interval to the routes' time to live buys (src/infra/websocket.py):
 a registered user stays registered although refresh ticks fail, as long as no two consecutive
 ones do.
 */
module RouteRobustness {
  import opened Routes
  import opened RouteRecovery

  // The user keeps a socket, and no tick fails right after a failed one.
  predicate Lenient(s: State, a: Action, u: User, failed: bool) {
    match a
    case Disconnect(v, ws) => v == u ==> u in s.connections && s.connections[u] - {ws} != {}
    case CleanupOne(v, ws) => v == u ==> u in s.connections && s.connections[u] - {ws} != {}
    case RefreshStep(v, ok) => v == u ==> ok || !failed
    case _ => true
  }

  // Whether the user's last tick failed.
  function FailedAfter(s: State, a: Action, u: User, failed: bool): bool
    requires Enabled(s, a)
  {
    if !(a.RefreshStep? && a.user == u) then failed
    else if !a.ok then true
    else failed && !Op(u, s.tasks[u].count, s.tasks[u].stage).Last()
  }

  predicate LenientRun(s: State, run: seq<Action>, u: User, failed: bool)
    requires IsRun(s, run)
    decreases |run|
  {
    run == [] ||
    (Lenient(s, run[0], u, failed)
     && LenientRun(Next(s, run[0]), run[1..], u, FailedAfter(s, run[0], u, failed)))
  }

  // How long key and membership must last beyond the end of the next tick: until the end of
  // the one after it, unless the last one failed.
  function Grace(s: State, failed: bool): nat { if failed then 0 else REFRESH_INTERVAL + s.latency }

  // Registered for long enough that one more tick may fail, unless the last one did.
  ghost predicate Robust(s: State, u: User, failed: bool)
    requires u in s.tasks
  {
    var t := s.tasks[u];
    && (if t.Syncing? && t.stage > 0 then u in s.routes && s.routes[u] >= t.wake + ROUTE_TTL
        else RouteAfter(s, u, t.wake + s.latency + Grace(s, failed)))
    && SetLive(s, u) && s.sets[u].listed && s.sets[u].ttl.After(t.wake + s.latency + Grace(s, failed))
  }

  ghost predicate Ample(s: State) { 3 * s.latency + 2 * REFRESH_INTERVAL < ROUTE_TTL }

  lemma RobustIsRegistered(s: State, u: User, failed: bool)
    requires Inv(s) && Ample(s) && u in s.tasks && Robust(s, u, failed)
    ensures Registered(s, u) && !Enabled(s, PruneSee(u))
  {}

  // The end of a tick whose commands all succeeded leaves room for a failure.
  lemma FullTickIsRobust(s: State, u: User)
    requires Inv(s) && Ample(s) && u in s.tasks && s.tasks[u].Syncing? && s.tasks[u].stage == 2
    requires u in s.routes && s.routes[u] >= s.tasks[u].wake + ROUTE_TTL
    requires SetLive(s, u) && s.sets[u].listed
    ensures u in DoRefreshStep(s, u, true).tasks && Robust(DoRefreshStep(s, u, true), u, false)
  {}

  lemma RobustStep(s: State, a: Action, u: User, failed: bool)
    requires Inv(s) && Ample(s) && Drained(s, u) && Robust(s, u, failed) && Enabled(s, a) && Lenient(s, a, u, failed)
    ensures var s' := Next(s, a);
            Drained(s', u) && u in s'.tasks && Robust(s', u, FailedAfter(s, a, u, failed))
  {
    RobustIsRegistered(s, u, failed);
    if a.OpStep? {
      DelayedDrains(s, a.op, a.ok, u);
      RobustDelayed(s, a.op, a.ok, u, failed);
    } else if a.RefreshStep? && a.user == u {
      RobustTick(s, a.ok, u, failed);
    } else if a.Connect? || a.Disconnect? || a.CleanupOne? {
      SteadyTask(s, a, u);
      ConnectionsDrain(s, a, u);
    } else {
      RobustRest(s, a, u, failed);
    }
  }

  lemma RobustDelayed(s: State, op: Op, ok: bool, u: User, failed: bool)
    requires Inv(s) && Ample(s) && Drained(s, u) && Robust(s, u, failed) && op in s.ops
    ensures Robust(DoOp(s, op, ok), u, failed)
  {
    if op.user == u { assert op.count > 0; }
  }

  lemma RobustTick(s: State, ok: bool, u: User, failed: bool)
    requires Inv(s) && Ample(s) && Drained(s, u) && Robust(s, u, failed) && s.tasks[u].Syncing? && (ok || !failed)
    ensures var s' := DoRefreshStep(s, u, ok);
            Drained(s', u) && u in s'.tasks && Robust(s', u, FailedAfter(s, RefreshStep(u, ok), u, failed))
  {
    if ok && s.tasks[u].stage == 2 { FullTickIsRobust(s, u); }
  }

  lemma RobustRest(s: State, a: Action, u: User, failed: bool)
    requires Inv(s) && Ample(s) && Drained(s, u) && Robust(s, u, failed) && Enabled(s, a) && a != PruneSee(u)
    requires !a.OpStep? && !(a.RefreshStep? && a.user == u) && !a.Connect? && !a.Disconnect? && !a.CleanupOne?
    ensures var s' := Next(s, a); Drained(s', u) && u in s'.tasks && Robust(s', u, failed)
  {
    if a.RefreshRead? || a.RefreshStep? {
      RobustReading(s, a, u, failed);
    } else if a.PruneDo? || a.Touch? {
      RobustForeign(s, a, u, failed);
    } else {
      RobustQuiet(s, a, u, failed);
    }
  }

  lemma RobustReading(s: State, a: Action, u: User, failed: bool)
    requires Inv(s) && Ample(s) && Drained(s, u) && Robust(s, u, failed) && Enabled(s, a)
    requires a.RefreshRead? || (a.RefreshStep? && a.user != u)
    ensures var s' := Next(s, a); Drained(s', u) && u in s'.tasks && Robust(s', u, failed)
  {}

  lemma RobustForeign(s: State, a: Action, u: User, failed: bool)
    requires Inv(s) && Ample(s) && Drained(s, u) && Robust(s, u, failed) && Enabled(s, a)
    requires a.PruneDo? || a.Touch?
    ensures var s' := Next(s, a); Drained(s', u) && u in s'.tasks && Robust(s', u, failed)
  {}

  // The remaining actions change neither the user's task nor Redis.
  lemma RobustQuiet(s: State, a: Action, u: User, failed: bool)
    requires Inv(s) && Ample(s) && Drained(s, u) && Robust(s, u, failed) && Enabled(s, a) && a != PruneSee(u)
    requires a.DisconnectEnd? || a.CleanupBegin? || a.CleanupEnd? || a.PruneSee? || a.Tick?
    ensures var s' := Next(s, a); Drained(s', u) && u in s'.tasks && Robust(s', u, failed)
  {
    assert s.tasks[u].wake + s.latency >= Next(s, a).now;
  }

  // A registered user with nothing pending stays registered through every run in which no
  // two consecutive ticks of theirs fail.
  lemma {:induction false} SurvivesFailures(s: State, run: seq<Action>, u: User, failed: bool)
    requires Inv(s) && Ample(s) && Drained(s, u) && Robust(s, u, failed)
    requires IsRun(s, run) && LenientRun(s, run, u, failed)
    ensures Registered(Final(s, run), u)
    decreases |run|
  {
    if run == [] {
      RobustIsRegistered(s, u, failed);
    } else {
      StepInv(s, run[0]);
      RobustStep(s, run[0], u, failed);
      SurvivesFailures(Next(s, run[0]), run[1..], u, FailedAfter(s, run[0], u, failed));
    }
  }
}
