/**
 Route registration (src/infra/websocket.py, ConnectionManager).

 One process keeps, under a lock, the open sockets of each user and one refresh task per
 user with sockets.  It mirrors the map into Redis: a route key with a time to live and
 membership in the user's route set.  The Redis calls run outside the lock, so each
 synchronisation is a delayed sequence of writes (`ops`) that may land in any order,
 late, or not at all.  Every action is the code between two awaits; a Redis command takes
 effect in the action that issues it.  Other processes appear as `Touch` (they keep the
 shared set key alive) and as the two halves of a prune.
 */
module Routes {
  import opened Basics

  type User = string
  type Socket = nat

  const ROUTE_TTL: nat := 60
  const REFRESH_INTERVAL: nat := 20

  // A call of _sync_route_registration and the Redis command it issues next.
  datatype Op = Op(user: User, count: nat, stage: nat)
  {
    predicate Last() { if count > 0 then stage >= 2 else stage >= 1 }
  }

  // The refresh loop of one user: asleep until `wake`, or in the writes of the tick that
  // was due at `wake`.
  datatype Refresh = Sleeping(wake: nat) | Syncing(wake: nat, count: nat, stage: nat)

  datatype Lock = Free | Stopping(user: User) | Cleaning(todo: set<(User, Socket)>, emptied: set<User>)

  datatype Expiry = Never | At(time: nat)
  {
    predicate After(t: nat) { Never? || time > t }
  }

  // The shared set of instances serving a user: whether it lists this one.
  datatype RouteSet = RouteSet(listed: bool, ttl: Expiry)

  datatype State = State(
    connections: map<User, set<Socket>>,
    tasks: map<User, Refresh>,
    lock: Lock,
    ops: multiset<Op>,
    prunes: multiset<User>,          // senders that saw no route key and will drop our membership
    routes: map<User, nat>,          // expiry of our route key
    sets: map<User, RouteSet>,
    now: nat,
    latency: nat)                    // bound on how late a refresh tick finishes

  datatype Action =
    | Connect(user: User, socket: Socket)
    | Disconnect(user: User, socket: Socket)
    | DisconnectEnd
    | CleanupBegin(pairs: set<(User, Socket)>)
    | CleanupOne(user: User, socket: Socket)
    | CleanupEnd
    | OpStep(op: Op, ok: bool)
    | RefreshRead(user: User)
    | RefreshStep(user: User, ok: bool)
    | PruneSee(user: User)
    | PruneDo(user: User)
    | Touch(user: User)
    | Tick(seconds: nat)

  predicate RouteLive(s: State, u: User) { u in s.routes && s.now < s.routes[u] }

  predicate SetLive(s: State, u: User) { u in s.sets && s.sets[u].ttl.After(s.now) }

  predicate Registered(s: State, u: User) { RouteLive(s, u) && SetLive(s, u) && s.sets[u].listed }

  // ---------------------------------------------------------------- transitions

  // The Redis command at `stage` of a synchronisation with `count` connections: SET with a
  // time to live, SADD, EXPIRE; or, without connections, DEL, SREM.
  function WrittenRoutes(s: State, u: User, count: nat, stage: nat): map<User, nat> {
    if stage != 0 then s.routes
    else if count > 0 then s.routes[u := s.now + ROUTE_TTL]
    else s.routes - {u}
  }

  function WrittenSet(s: State, u: User, count: nat, stage: nat): RouteSet
    requires stage != 0
    requires SetLive(s, u) || (count > 0 && stage == 1)
  {
    if count == 0 then RouteSet(false, s.sets[u].ttl)
    else if stage == 1 then RouteSet(true, if SetLive(s, u) then s.sets[u].ttl else Never)
    else RouteSet(s.sets[u].listed, At(s.now + ROUTE_TTL))
  }

  function WrittenSets(s: State, u: User, count: nat, stage: nat): map<User, RouteSet> {
    if stage != 0 && (SetLive(s, u) || (count > 0 && stage == 1))
    then s.sets[u := WrittenSet(s, u, count, stage)]
    else s.sets
  }

  predicate Enabled(s: State, a: Action) {
    match a
    case Connect(_, _) => s.lock.Free?
    case Disconnect(_, _) => s.lock.Free?
    case DisconnectEnd => s.lock.Stopping?
    case CleanupBegin(_) => s.lock.Free?
    case CleanupOne(u, ws) => s.lock.Cleaning? && (u, ws) in s.lock.todo
    case CleanupEnd => s.lock.Cleaning? && s.lock.todo == {}
    case OpStep(op, _) => op in s.ops
    case RefreshRead(u) => s.lock.Free? && u in s.tasks && s.tasks[u].Sleeping? && s.tasks[u].wake <= s.now
    case RefreshStep(u, _) => u in s.tasks && s.tasks[u].Syncing?
    case PruneSee(u) => SetLive(s, u) && s.sets[u].listed && !RouteLive(s, u)
    case PruneDo(u) => u in s.prunes
    case Touch(_) => true
    // Time does not run past the point by which a refresh tick is finished.
    case Tick(d) => forall u :: u in s.tasks ==> s.now + d <= s.tasks[u].wake + s.latency
  }

  function DoConnect(s: State, u: User, ws: Socket): State {
    var bucket := (if u in s.connections then s.connections[u] else {}) + {ws};
    s.(connections := s.connections[u := bucket],
       tasks := if |bucket| == 1 && u !in s.tasks then s.tasks[u := Sleeping(s.now + REFRESH_INTERVAL)]
                else s.tasks,
       ops := s.ops + multiset{Op(u, |bucket|, 0)})
  }

  function DoDisconnect(s: State, u: User, ws: Socket): State {
    if u !in s.connections then s.(ops := s.ops + multiset{Op(u, 0, 0)})
    else
      var bucket := s.connections[u] - {ws};
      if bucket == {} then Released(s, u).(lock := Stopping(u))
      else s.(connections := s.connections[u := bucket], ops := s.ops + multiset{Op(u, |bucket|, 0)})
  }

  // An emptied bucket goes together with its refresh task.
  function Released(s: State, u: User): State {
    s.(connections := s.connections - {u}, tasks := s.tasks - {u})
  }

  function DoCleanupOne(s: State, u: User, ws: Socket): State
    requires s.lock.Cleaning?
  {
    var todo := s.lock.todo - {(u, ws)};
    if u !in s.connections then s.(lock := Cleaning(todo, s.lock.emptied))
    else
      var bucket := s.connections[u] - {ws};
      if bucket == {} then Released(s, u).(lock := Cleaning(todo, s.lock.emptied + {u}))
      else s.(connections := s.connections[u := bucket], lock := Cleaning(todo, s.lock.emptied))
  }

  function Unregistrations(users: set<User>): (r: multiset<Op>)
    ensures forall op :: op in r <==> op.user in users && op.count == 0 && op.stage == 0
  {
    multiset(set u | u in users :: Op(u, 0, 0))
  }

  function DoOp(s: State, op: Op, ok: bool): State {
    var rest := s.ops - multiset{op};
    if !ok then s.(ops := rest)
    else s.(routes := WrittenRoutes(s, op.user, op.count, op.stage),
            sets := WrittenSets(s, op.user, op.count, op.stage),
            ops := if op.Last() then rest else rest + multiset{op.(stage := op.stage + 1)})
  }

  function DoRefreshRead(s: State, u: User): State
    requires u in s.tasks
  {
    var count := if u in s.connections then |s.connections[u]| else 0;
    if count == 0 then s.(tasks := s.tasks - {u})
    else s.(tasks := s.tasks[u := Syncing(s.tasks[u].wake, count, 0)])
  }

  function DoRefreshStep(s: State, u: User, ok: bool): State
    requires u in s.tasks && s.tasks[u].Syncing?
  {
    var t := s.tasks[u];
    if !ok then s.(tasks := s.tasks[u := Sleeping(s.now + REFRESH_INTERVAL)])
    else s.(routes := WrittenRoutes(s, u, t.count, t.stage),
            sets := WrittenSets(s, u, t.count, t.stage),
            tasks := s.tasks[u := if Op(u, t.count, t.stage).Last() then Sleeping(s.now + REFRESH_INTERVAL)
                                  else Syncing(t.wake, t.count, t.stage + 1)])
  }

  function DoPrune(s: State, u: User): State {
    var s1 := s.(prunes := s.prunes - multiset{u});
    if SetLive(s, u) then s1.(sets := s.sets[u := RouteSet(false, s.sets[u].ttl)]) else s1
  }

  function DoTouch(s: State, u: User): State {
    s.(sets := s.sets[u := RouteSet(SetLive(s, u) && s.sets[u].listed, At(s.now + ROUTE_TTL))])
  }

  function Next(s: State, a: Action): State
    requires Enabled(s, a)
  {
    match a
    case Connect(u, ws) => DoConnect(s, u, ws)
    case Disconnect(u, ws) => DoDisconnect(s, u, ws)
    case DisconnectEnd => s.(lock := Free, ops := s.ops + multiset{Op(s.lock.user, 0, 0)})
    case CleanupBegin(pairs) => s.(lock := Cleaning(pairs, {}))
    case CleanupOne(u, ws) => DoCleanupOne(s, u, ws)
    case CleanupEnd => s.(lock := Free, ops := s.ops + Unregistrations(s.lock.emptied))
    case OpStep(op, ok) => DoOp(s, op, ok)
    case RefreshRead(u) => DoRefreshRead(s, u)
    case RefreshStep(u, ok) => DoRefreshStep(s, u, ok)
    case PruneSee(u) => s.(prunes := s.prunes + multiset{u})
    case PruneDo(u) => DoPrune(s, u)
    case Touch(u) => DoTouch(s, u)
    case Tick(d) => s.(now := s.now + d)
  }

  // ---------------------------------------------------------------- invariant

  predicate Init(s: State) {
    s.connections == map[] && s.tasks == map[] && s.lock.Free? && s.ops == multiset{} && s.prunes == multiset{}
    && s.routes == map[] && s.sets == map[] && 2 * s.latency + REFRESH_INTERVAL < ROUTE_TTL
  }

  // A refresh task lives exactly while its user has sockets; expiries and wake-ups lie
  // within their periods; a user whose task is being stopped has no sockets.
  ghost predicate Inv(s: State) {
    && 2 * s.latency + REFRESH_INTERVAL < ROUTE_TTL
    && s.tasks.Keys == s.connections.Keys
    && (forall u :: u in s.connections ==> s.connections[u] != {})
    && (forall u :: u in s.tasks ==>
          s.tasks[u].wake <= s.now + (if s.tasks[u].Sleeping? then REFRESH_INTERVAL else 0)
          && s.now <= s.tasks[u].wake + s.latency)
    && (forall u :: u in s.tasks && s.tasks[u].Syncing? ==> s.tasks[u].count > 0 && s.tasks[u].stage <= 2)
    && (forall u :: u in s.routes ==> s.routes[u] <= s.now + ROUTE_TTL)
    && (s.lock.Stopping? ==> s.lock.user !in s.connections)
    && (s.lock.Cleaning? ==> s.lock.emptied !! s.connections.Keys)
  }

  // The actions are taken in groups, so that each proof below stays small.
  lemma StepInv(s: State, a: Action)
    requires Inv(s) && Enabled(s, a)
    ensures Inv(Next(s, a)) && Next(s, a).latency == s.latency
  {
    if a.Connect? || a.RefreshRead? { InvConnecting(s, a); }
    else if a.Disconnect? { InvDisconnecting(s, a); }
    else if a.CleanupOne? { InvCleaning(s, a); }
    else if a.OpStep? { InvDelayed(s, a); }
    else if a.RefreshStep? { InvRefreshing(s, a); }
  }

  lemma InvConnecting(s: State, a: Action)
    requires Inv(s) && Enabled(s, a) && (a.Connect? || a.RefreshRead?)
    ensures Inv(Next(s, a)) && Next(s, a).latency == s.latency
  { if a.Connect? { ConnectKeepsTasks(s, a.user, a.socket); } }

  lemma InvDisconnecting(s: State, a: Action)
    requires Inv(s) && Enabled(s, a) && (a.Disconnect?)
    ensures Inv(Next(s, a)) && Next(s, a).latency == s.latency
  {}

  lemma InvCleaning(s: State, a: Action)
    requires Inv(s) && Enabled(s, a) && (a.CleanupOne?)
    ensures Inv(Next(s, a)) && Next(s, a).latency == s.latency
  {}

  lemma InvDelayed(s: State, a: Action)
    requires Inv(s) && Enabled(s, a) && (a.OpStep?)
    ensures Inv(Next(s, a)) && Next(s, a).latency == s.latency
  {}

  lemma InvRefreshing(s: State, a: Action)
    requires Inv(s) && Enabled(s, a) && (a.RefreshStep?)
    ensures Inv(Next(s, a)) && Next(s, a).latency == s.latency
  {}

  lemma ConnectKeepsTasks(s: State, u: User, ws: Socket)
    requires Inv(s) && s.lock.Free?
    ensures Next(s, Connect(u, ws)).tasks.Keys == Next(s, Connect(u, ws)).connections.Keys
  {
    if u !in s.connections {
      assert {} + {ws} == {ws};
    } else {
      assert s.connections.Keys + {u} == s.connections.Keys;
      assert Next(s, Connect(u, ws)).connections.Keys == s.connections.Keys;
    }
  }

  // ---------------------------------------------------------------- runs

  predicate IsRun(s: State, run: seq<Action>)
    decreases |run|
  {
    run == [] || (Enabled(s, run[0]) && IsRun(Next(s, run[0]), run[1..]))
  }

  function Final(s: State, run: seq<Action>): State
    requires IsRun(s, run)
    decreases |run|
  {
    if run == [] then s else Final(Next(s, run[0]), run[1..])
  }

  // In every reachable state a user has a refresh task if and only if they have a socket.
  lemma {:induction false} RefreshTaskIffConnected(s: State, run: seq<Action>, u: User)
    requires (Init(s) || Inv(s)) && IsRun(s, run)
    ensures Inv(Final(s, run))
    ensures u in Final(s, run).tasks <==> (u in Final(s, run).connections && Final(s, run).connections[u] != {})
    decreases |run|
  {
    if run != [] {
      StepInv(s, run[0]);
      RefreshTaskIffConnected(Next(s, run[0]), run[1..], u);
    }
  }

  function Bucket(s: State, u: User): set<Socket> { if u in s.connections then s.connections[u] else {} }

  // Whether the user's bucket holds the socket after the run, read off its actions: since it
  // was there or connected, until it disconnects or is cleaned up.
  function HeldAfter(run: seq<Action>, held: bool, u: User, ws: Socket): bool {
    if run == [] then held
    else
      match run[0]
      case Connect(v, x) => HeldAfter(run[1..], held || (v == u && x == ws), u, ws)
      case Disconnect(v, x) => HeldAfter(run[1..], held && !(v == u && x == ws), u, ws)
      case CleanupOne(v, x) => HeldAfter(run[1..], held && !(v == u && x == ws), u, ws)
      case _ => HeldAfter(run[1..], held, u, ws)
  }

  // In every run, whatever else happens, a bucket holds exactly the sockets that connected
  // and have neither disconnected nor been cleaned up since.
  lemma {:induction false} InBucketIff(s: State, run: seq<Action>, u: User, ws: Socket)
    requires IsRun(s, run)
    ensures ws in Bucket(Final(s, run), u) <==> HeldAfter(run, ws in Bucket(s, u), u, ws)
    decreases |run|
  {
    if run != [] {
      BucketStep(s, run[0], u, ws);
      InBucketIff(Next(s, run[0]), run[1..], u, ws);
    }
  }

  lemma BucketStep(s: State, a: Action, u: User, ws: Socket)
    requires Enabled(s, a)
    ensures ws in Bucket(Next(s, a), u)
            <==> match a
                 case Connect(v, x) => ws in Bucket(s, u) || (v == u && x == ws)
                 case Disconnect(v, x) => ws in Bucket(s, u) && !(v == u && x == ws)
                 case CleanupOne(v, x) => ws in Bucket(s, u) && !(v == u && x == ws)
                 case _ => ws in Bucket(s, u)
  {
    match a
    case Connect(v, x) =>
    case Disconnect(v, x) => DisconnectBucket(s, v, x, u);
    case CleanupOne(v, x) => CleanupBucket(s, v, x, u);
    case OpStep(op, ok) => OpKeepsBuckets(s, op, ok);
    case RefreshStep(v, ok) => RefreshKeepsBuckets(s, v, ok);
    case _ => BucketsStay(s, a);
  }

  lemma DisconnectBucket(s: State, v: User, x: Socket, u: User)
    ensures Bucket(DoDisconnect(s, v, x), u) == if v == u then Bucket(s, u) - {x} else Bucket(s, u)
  {}

  lemma CleanupBucket(s: State, v: User, x: Socket, u: User)
    requires s.lock.Cleaning?
    ensures Bucket(DoCleanupOne(s, v, x), u) == if v == u then Bucket(s, u) - {x} else Bucket(s, u)
  {}

  lemma OpKeepsBuckets(s: State, op: Op, ok: bool)
    ensures DoOp(s, op, ok).connections == s.connections
  {}

  lemma RefreshKeepsBuckets(s: State, u: User, ok: bool)
    requires u in s.tasks && s.tasks[u].Syncing?
    ensures DoRefreshStep(s, u, ok).connections == s.connections && DoRefreshStep(s, u, ok).ops == s.ops
  {}

  lemma BucketsStay(s: State, a: Action)
    requires Enabled(s, a) && !a.Connect? && !a.Disconnect? && !a.CleanupOne? && !a.OpStep? && !a.RefreshStep?
    ensures Next(s, a).connections == s.connections
  {
    match a
    case RefreshRead(_) =>
    case PruneDo(_) =>
    case Touch(_) =>
    case _ =>
  }

  // The users whose registration an action sets off: whoever connects or disconnects, at
  // once or when their refresh task has been stopped, and whom a cleanup has left without sockets.
  function Registering(s: State, a: Action): set<User>
    requires Enabled(s, a)
  {
    match a
    case Connect(u, _) => {u}
    case Disconnect(u, ws) => if u in s.connections && s.connections[u] <= {ws} then {} else {u}
    case DisconnectEnd => {s.lock.user}
    case CleanupEnd => s.lock.emptied
    case _ => {}
  }

  // Each registration that is set off carries the number of sockets its user has by then;
  // there is one for each of these users and no other.
  lemma RegistrationIsCurrent(s: State, a: Action, op: Op)
    requires Inv(s) && Enabled(s, a) && !a.OpStep?
    ensures Next(s, a).ops[op]
            == s.ops[op] + (if op.user in Registering(s, a) && op == Op(op.user, |Bucket(Next(s, a), op.user)|, 0) then 1 else 0)
  {
    if a.CleanupEnd? {
      UnregistersOnce(s.lock.emptied, op);
    } else if a.RefreshStep? {
      RefreshKeepsBuckets(s, a.user, a.ok);
    } else if !a.Connect? && !a.Disconnect? && !a.DisconnectEnd? {
      OpsStay(s, a);
    }
  }

  lemma UnregistersOnce(users: set<User>, op: Op)
    ensures Unregistrations(users)[op] == if op.user in users && op == Op(op.user, 0, 0) then 1 else 0
  {
    assert op in Unregistrations(users) <==> op.user in users && op.count == 0 && op.stage == 0;
  }

  lemma OpsStay(s: State, a: Action)
    requires Enabled(s, a) && !a.OpStep? && !a.RefreshStep?
    requires !a.Connect? && !a.Disconnect? && !a.DisconnectEnd? && !a.CleanupEnd?
    ensures Next(s, a).ops == s.ops
  {}

  predicate NoConnect(run: seq<Action>, u: User) {
    forall i :: 0 <= i < |run| ==> !(run[i].Connect? && run[i].user == u)
  }

  predicate IsRefreshOf(a: Action, u: User) {
    (a.RefreshRead? || a.RefreshStep?) && a.user == u
  }

  // Once the disconnect that cancels a user's refresh task has run, no write of that task
  // follows until the user connects again.
  lemma {:induction false} NoRefreshAfterDisconnect(s: State, run: seq<Action>, u: User)
    requires Inv(s) && u !in s.connections && IsRun(s, run) && NoConnect(run, u)
    ensures forall i :: 0 <= i < |run| ==> !IsRefreshOf(run[i], u)
    ensures u !in Final(s, run).connections
    decreases |run|
  {
    if run != [] {
      assert !(run[0].Connect? && run[0].user == u);
      StepInv(s, run[0]);
      assert u !in Next(s, run[0]).connections;
      var rest := run[1..];
      assert forall i :: 0 <= i < |rest| ==> rest[i] == run[i + 1];
      NoRefreshAfterDisconnect(Next(s, run[0]), rest, u);
      forall i | 0 <= i < |run| ensures !IsRefreshOf(run[i], u) {
        if i > 0 { assert run[i] == rest[i - 1]; }
      }
    }
  }

  // ---------------------------------------------------------------- stale routes vanish

  // The user is gone and no delayed positive write of theirs is left.
  ghost predicate Gone(s: State, u: User) {
    u !in s.connections && forall op :: op in s.ops && op.user == u ==> op.count == 0
  }

  ghost predicate ExpiresBy(s: State, u: User, deadline: nat) {
    u in s.routes ==> s.routes[u] <= deadline
  }

  lemma GoneStep(s: State, a: Action, u: User, deadline: nat)
    requires Inv(s) && Gone(s, u) && ExpiresBy(s, u, deadline) && Enabled(s, a)
    requires !(a.Connect? && a.user == u)
    ensures Gone(Next(s, a), u) && ExpiresBy(Next(s, a), u, deadline)
  {
    if a.OpStep? { GoneDelayed(s, a, u, deadline); }
    else if a.RefreshStep? || a.PruneDo? || a.Touch? { GoneRedis(s, a, u, deadline); }
  }

  lemma GoneDelayed(s: State, a: Action, u: User, deadline: nat)
    requires Inv(s) && Gone(s, u) && ExpiresBy(s, u, deadline) && Enabled(s, a) && a.OpStep?
    ensures Gone(Next(s, a), u) && ExpiresBy(Next(s, a), u, deadline)
  {}

  lemma GoneRedis(s: State, a: Action, u: User, deadline: nat)
    requires Inv(s) && Gone(s, u) && ExpiresBy(s, u, deadline) && Enabled(s, a)
    requires a.RefreshStep? || a.PruneDo? || a.Touch?
    ensures Gone(Next(s, a), u) && ExpiresBy(Next(s, a), u, deadline)
  {}

  // A stale route of a disconnected user is never extended and is dead within 60 seconds.
  lemma {:induction false} StaleRouteVanishes(s: State, run: seq<Action>, u: User, deadline: nat)
    requires Inv(s) && Gone(s, u) && ExpiresBy(s, u, deadline) && IsRun(s, run) && NoConnect(run, u)
    ensures ExpiresBy(Final(s, run), u, deadline)
    ensures Final(s, run).now >= deadline ==> !RouteLive(Final(s, run), u)
    decreases |run|
  {
    if run != [] {
      assert !(run[0].Connect? && run[0].user == u);
      assert forall i :: 0 <= i < |run[1..]| ==> run[1..][i] == run[i + 1];
      StepInv(s, run[0]);
      GoneStep(s, run[0], u, deadline);
      StaleRouteVanishes(Next(s, run[0]), run[1..], u, deadline);
    }
  }

  lemma StaleRouteGoneInSixtySeconds(s: State, run: seq<Action>, u: User)
    requires Inv(s) && Gone(s, u) && IsRun(s, run) && NoConnect(run, u)
    ensures Final(s, run).now >= s.now + ROUTE_TTL ==> !RouteLive(Final(s, run), u)
  {
    StaleRouteVanishes(s, run, u, s.now + ROUTE_TTL);
  }
}
