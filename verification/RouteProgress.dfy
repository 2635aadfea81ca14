/**
 What the route mirror (src/infra/websocket.py) gets done: time can always go on, each refresh
 tick and each delayed synchronisation carries out its commands in order, a cleanup drops
 exactly its pairs, and what is pending is what was begun and not yet done.
 */
module RouteProgress {
  import opened Routes

  // ---------------------------------------------------------------- time

  function Seconds(run: seq<Action>): nat {
    if run == [] then 0 else (if run[0].Tick? then run[0].seconds else 0) + Seconds(run[1..])
  }

  lemma {:induction false} TimePasses(s: State, run: seq<Action>)
    requires IsRun(s, run)
    ensures Final(s, run).now == s.now + Seconds(run) && Final(s, run).latency == s.latency
    decreases |run|
  {
    if run != [] {
      ClockStep(s, run[0]);
      TimePasses(Next(s, run[0]), run[1..]);
    }
  }

  lemma ClockStep(s: State, a: Action)
    requires Enabled(s, a)
    ensures Next(s, a).now == s.now + (if a.Tick? then a.seconds else 0) && Next(s, a).latency == s.latency
  {
    match a
    case OpStep(op, ok) => OpClock(s, op, ok);
    case RefreshStep(u, ok) => RefreshClock(s, u, ok);
    case _ =>
  }

  lemma OpClock(s: State, op: Op, ok: bool)
    ensures DoOp(s, op, ok).now == s.now && DoOp(s, op, ok).latency == s.latency
  {}

  lemma RefreshClock(s: State, u: User, ok: bool)
    requires u in s.tasks && s.tasks[u].Syncing?
    ensures DoRefreshStep(s, u, ok).now == s.now && DoRefreshStep(s, u, ok).latency == s.latency
  {}

  // Unless the lock is held, a second can pass or a refresh tick that is due has a step.
  lemma NeverStuck(s: State)
    requires Inv(s) && s.lock.Free?
    ensures Enabled(s, Tick(1)) || exists u :: Enabled(s, RefreshRead(u)) || Enabled(s, RefreshStep(u, true))
  {
    if !Enabled(s, Tick(1)) {
      var u :| u in s.tasks && s.now + 1 > s.tasks[u].wake + s.latency;
      assert if s.tasks[u].Sleeping? then Enabled(s, RefreshRead(u)) else Enabled(s, RefreshStep(u, true));
    }
  }

  // ---------------------------------------------------------------- a refresh tick

  // The three commands of a tick, one at a time.
  lemma TickSets(s: State, u: User)
    requires u in s.tasks && s.tasks[u].Syncing? && s.tasks[u].stage == 0 && s.tasks[u].count > 0
    ensures DoRefreshStep(s, u, true)
            == s.(routes := s.routes[u := s.now + 60], tasks := s.tasks[u := Syncing(s.tasks[u].wake, s.tasks[u].count, 1)])
  {}

  lemma TickLists(s: State, u: User)
    requires u in s.tasks && s.tasks[u].Syncing? && s.tasks[u].stage == 1 && s.tasks[u].count > 0
    ensures DoRefreshStep(s, u, true)
            == s.(sets := s.sets[u := RouteSet(true, if SetLive(s, u) then s.sets[u].ttl else Never)],
                  tasks := s.tasks[u := Syncing(s.tasks[u].wake, s.tasks[u].count, 2)])
  {}

  lemma TickRenews(s: State, u: User)
    requires u in s.tasks && s.tasks[u].Syncing? && s.tasks[u].stage == 2 && s.tasks[u].count > 0 && SetLive(s, u)
    ensures DoRefreshStep(s, u, true)
            == s.(sets := s.sets[u := RouteSet(s.sets[u].listed, At(s.now + 60))], tasks := s.tasks[u := Sleeping(s.now + 20)])
  {}

  lemma PutTwice<V>(m: map<User, V>, u: User, a: V, b: V)
    ensures m[u := a][u := b] == m[u := b]
  {}

  // A tick that is due reads the number of sockets, sets the key for 60 seconds, lists the
  // instance, lets the set expire in 60 seconds, and sleeps for 20: nothing else changes.
  lemma TickWrites(s: State, u: User)
    requires Inv(s) && s.lock.Free? && u in s.tasks && s.tasks[u].Sleeping? && s.tasks[u].wake <= s.now
    ensures Enabled(s, RefreshRead(u)) && Bucket(s, u) != {}
    ensures var s1 := Next(s, RefreshRead(u));
            && s1 == s.(tasks := s.tasks[u := Syncing(s.tasks[u].wake, |Bucket(s, u)|, 0)])
            && DoneTick(s1, u) == s.(routes := s.routes[u := s.now + 60], sets := s.sets[u := RouteSet(true, At(s.now + 60))],
                                     tasks := s.tasks[u := Sleeping(s.now + 20)])
  {
    var s1 := DoRefreshRead(s, u);
    TickStarts(s, u);
    TickDone(s1, u);
    PutTwice(s.tasks, u, s1.tasks[u], Sleeping(s.now + 20));
  }

  lemma TickStarts(s: State, u: User)
    requires Inv(s) && u in s.tasks
    ensures Bucket(s, u) != {}
    ensures DoRefreshRead(s, u) == s.(tasks := s.tasks[u := Syncing(s.tasks[u].wake, |Bucket(s, u)|, 0)])
  {}

  lemma TickDone(s: State, u: User)
    requires u in s.tasks && s.tasks[u].Syncing? && s.tasks[u].stage == 0 && s.tasks[u].count > 0
    ensures DoneTick(s, u) == s.(routes := s.routes[u := s.now + 60], sets := s.sets[u := RouteSet(true, At(s.now + 60))],
                                 tasks := s.tasks[u := Sleeping(s.now + 20)])
  {
    var t := s.tasks[u];
    var s2 := DoRefreshStep(s, u, true);
    TickSets(s, u);
    var s3 := DoRefreshStep(s2, u, true);
    TickLists(s2, u);
    TickRenews(s3, u);
    PutTwice(s.tasks, u, s2.tasks[u], s3.tasks[u]);
    PutTwice(s.tasks, u, s3.tasks[u], Sleeping(s.now + 20));
    PutTwice(s.sets, u, s3.sets[u], RouteSet(true, At(s.now + 60)));
  }

  function DoneTick(s: State, u: User): State
    requires u in s.tasks && s.tasks[u].Syncing? && s.tasks[u].stage == 0 && s.tasks[u].count > 0
  {
    DoRefreshStep(DoRefreshStep(DoRefreshStep(s, u, true), u, true), u, true)
  }

  // A tick whose command raises sleeps on, and is due again in 20 seconds.
  lemma FailedTickSleeps(s: State, u: User)
    requires u in s.tasks && s.tasks[u].Syncing?
    ensures Next(s, RefreshStep(u, false)) == s.(tasks := s.tasks[u := Sleeping(s.now + 20)])
  {}

  // ---------------------------------------------------------------- delayed synchronisations

  // The commands of a synchronisation, one at a time.
  lemma FirstCommand(s: State, op: Op)
    requires op in s.ops && op.stage == 0
    ensures DoOp(s, op, true)
            == s.(routes := if op.count > 0 then s.routes[op.user := s.now + 60] else s.routes - {op.user},
                  ops := s.ops - multiset{op} + multiset{op.(stage := 1)})
  {}

  lemma SecondCommand(s: State, op: Op)
    requires op in s.ops && op.stage == 1 && op.count > 0
    ensures DoOp(s, op, true)
            == s.(sets := s.sets[op.user := RouteSet(true, if SetLive(s, op.user) then s.sets[op.user].ttl else Never)],
                  ops := s.ops - multiset{op} + multiset{op.(stage := 2)})
  {}

  lemma ThirdCommand(s: State, op: Op)
    requires op in s.ops && op.stage == 2 && op.count > 0 && SetLive(s, op.user)
    ensures DoOp(s, op, true)
            == s.(sets := s.sets[op.user := RouteSet(s.sets[op.user].listed, At(s.now + 60))], ops := s.ops - multiset{op})
  {}

  lemma LastRemoval(s: State, op: Op)
    requires op in s.ops && op.stage == 1 && op.count == 0
    ensures DoOp(s, op, true)
            == s.(sets := if SetLive(s, op.user) then s.sets[op.user := RouteSet(false, s.sets[op.user].ttl)] else s.sets,
                  ops := s.ops - multiset{op})
  {}

  lemma OneForAnother(ops: multiset<Op>, a: Op, b: Op)
    ensures b in ops - multiset{a} + multiset{b} && ops - multiset{a} + multiset{b} - multiset{b} == ops - multiset{a}
  {}

  // A registration sets the key for 60 seconds, lists the instance, lets the set expire in
  // 60 seconds, and is done; between its commands other actions can come.
  lemma RegistrationWrites(s: State, op: Op)
    requires op in s.ops && op.stage == 0 && op.count > 0
    ensures op.(stage := 1) in DoOp(s, op, true).ops
    ensures op.(stage := 2) in DoOp(DoOp(s, op, true), op.(stage := 1), true).ops
    ensures DoOp(DoOp(DoOp(s, op, true), op.(stage := 1), true), op.(stage := 2), true)
            == s.(routes := s.routes[op.user := s.now + 60], sets := s.sets[op.user := RouteSet(true, At(s.now + 60))],
                  ops := s.ops - multiset{op})
  {
    TwoCommands(s, op);
    var s2 := DoOp(DoOp(s, op, true), op.(stage := 1), true);
    ThirdCommand(s2, op.(stage := 2));
    PutTwice(s.sets, op.user, s2.sets[op.user], RouteSet(true, At(s.now + 60)));
    OneForAnother(s.ops, op, op.(stage := 2));
  }

  lemma TwoCommands(s: State, op: Op)
    requires op in s.ops && op.stage == 0 && op.count > 0
    ensures op.(stage := 1) in DoOp(s, op, true).ops
    ensures DoOp(DoOp(s, op, true), op.(stage := 1), true)
            == s.(routes := s.routes[op.user := s.now + 60],
                  sets := s.sets[op.user := RouteSet(true, if SetLive(s, op.user) then s.sets[op.user].ttl else Never)],
                  ops := s.ops - multiset{op} + multiset{op.(stage := 2)})
  {
    FirstCommand(s, op);
    OneForAnother(s.ops, op, op.(stage := 1));
    SecondCommand(DoOp(s, op, true), op.(stage := 1));
  }

  // An unregistration takes key and membership away.
  lemma UnregistrationWrites(s: State, op: Op)
    requires op in s.ops && op.stage == 0 && op.count == 0
    ensures op.(stage := 1) in DoOp(s, op, true).ops
    ensures var f := DoOp(DoOp(s, op, true), op.(stage := 1), true);
            && op.user !in f.routes && !Registered(f, op.user) && !(SetLive(f, op.user) && f.sets[op.user].listed)
            && f.routes == s.routes - {op.user} && f.ops == s.ops - multiset{op}
  {
    FirstCommand(s, op);
    OneForAnother(s.ops, op, op.(stage := 1));
    LastRemoval(DoOp(s, op, true), op.(stage := 1));
  }

  // A command that raises ends its synchronisation, and changes nothing else.
  lemma FailureEndsOperation(s: State, op: Op)
    requires op in s.ops
    ensures Next(s, OpStep(op, false)) == s.(ops := s.ops - multiset{op})
  {}

  // ---------------------------------------------------------------- the shared set and prunes

  // Another instance keeps the set alive for 60 seconds, without listing or unlisting this one.
  lemma TouchRenews(s: State, u: User, d: nat)
    ensures Enabled(s, Touch(u))
    ensures var s' := Next(s, Touch(u));
            && (s'.sets[u].listed <==> SetLive(s, u) && s.sets[u].listed) && s'.routes == s.routes
            && (SetLive(s'.(now := s.now + d), u) <==> d < 60)
  {}

  function Seen(run: seq<Action>, u: User): nat {
    if run == [] then 0 else (if run[0] == PruneSee(u) then 1 else 0) + Seen(run[1..], u)
  }

  function Done(run: seq<Action>, u: User): nat {
    if run == [] then 0 else (if run[0] == PruneDo(u) then 1 else 0) + Done(run[1..], u)
  }

  // The prunes pending against a user are those that have seen no key and not removed the
  // member yet.
  lemma {:induction false} PrunesPending(s: State, run: seq<Action>, u: User)
    requires IsRun(s, run)
    ensures Final(s, run).prunes[u] + Done(run, u) == s.prunes[u] + Seen(run, u)
    decreases |run|
  {
    if run != [] {
      PruneStep(s, run[0], u);
      PrunesPending(Next(s, run[0]), run[1..], u);
    }
  }

  lemma PruneStep(s: State, a: Action, u: User)
    requires Enabled(s, a)
    ensures Next(s, a).prunes[u] + (if a == PruneDo(u) then 1 else 0) == s.prunes[u] + (if a == PruneSee(u) then 1 else 0)
  {
    match a
    case OpStep(op, ok) => OpPrunes(s, op, ok);
    case RefreshStep(v, ok) => RefreshPrunes(s, v, ok);
    case _ =>
  }

  lemma OpPrunes(s: State, op: Op, ok: bool)
    ensures DoOp(s, op, ok).prunes == s.prunes
  {}

  lemma RefreshPrunes(s: State, u: User, ok: bool)
    requires u in s.tasks && s.tasks[u].Syncing?
    ensures DoRefreshStep(s, u, ok).prunes == s.prunes
  {}

  // ---------------------------------------------------------------- a cleanup

  // Midway: the pairs that are not to do any more are gone, and nothing else is; the users
  // who have lost their last socket are known.
  ghost predicate Dropped(before: State, pairs: set<(User, Socket)>, s: State) {
    && s.lock.Cleaning? && s.lock.todo <= pairs
    && (forall u, ws :: ws in Bucket(s, u) <==> ws in Bucket(before, u) && !((u, ws) in pairs && (u, ws) !in s.lock.todo))
    && (forall u :: u in s.lock.emptied <==> u in before.connections && u !in s.connections)
  }

  lemma CleanupStep(before: State, pairs: set<(User, Socket)>, s: State, a: Action)
    requires Inv(before) && Inv(s) && Dropped(before, pairs, s) && Enabled(s, a) && !a.CleanupEnd?
    ensures Dropped(before, pairs, Next(s, a))
  {
    match a
    case CleanupOne(u, ws) => OnePairGone(before, pairs, s, u, ws);
    case OpStep(op, ok) => OpKeepsLock(s, op, ok);
    case RefreshStep(u, ok) => RefreshKeepsLock(s, u, ok);
    case _ => LockStays(s, a);
  }

  lemma OnePairGone(before: State, pairs: set<(User, Socket)>, s: State, u: User, ws: Socket)
    requires Inv(before) && Inv(s) && Dropped(before, pairs, s) && (u, ws) in s.lock.todo
    ensures Dropped(before, pairs, DoCleanupOne(s, u, ws))
  {
    var s' := DoCleanupOne(s, u, ws);
    forall v ensures Bucket(s', v) == if v == u then Bucket(s, v) - {ws} else Bucket(s, v) {
      CleanupBucket(s, u, ws, v);
    }
    OnePairDone(s, u, ws);
    assert u in s.connections ==> u in before.connections by {
      if x :| x in Bucket(s, u) { assert x in Bucket(before, u); }
    }
  }

  lemma OnePairDone(s: State, u: User, ws: Socket)
    requires Inv(s) && s.lock.Cleaning? && (u, ws) in s.lock.todo
    ensures var s' := DoCleanupOne(s, u, ws);
            && s'.lock.Cleaning? && s'.lock.todo == s.lock.todo - {(u, ws)}
            && (forall v :: v in s'.connections <==> v in s.connections && !(v == u && s.connections[u] <= {ws}))
            && s'.lock.emptied == s.lock.emptied + (if u in s.connections && s.connections[u] <= {ws} then {u} else {})
  {
    if u in s.connections { assert s.connections[u] - {ws} == {} <==> s.connections[u] <= {ws}; }
  }

  lemma OpKeepsLock(s: State, op: Op, ok: bool)
    ensures DoOp(s, op, ok).lock == s.lock && DoOp(s, op, ok).connections == s.connections
  {}

  lemma RefreshKeepsLock(s: State, u: User, ok: bool)
    requires u in s.tasks && s.tasks[u].Syncing?
    ensures DoRefreshStep(s, u, ok).lock == s.lock && DoRefreshStep(s, u, ok).connections == s.connections
  {}

  lemma LockStays(s: State, a: Action)
    requires Enabled(s, a) && s.lock.Cleaning? && !a.CleanupOne? && !a.CleanupEnd? && !a.OpStep? && !a.RefreshStep?
    ensures Next(s, a).lock == s.lock && Next(s, a).connections == s.connections
  {
    match a
    case PruneDo(_) =>
    case Touch(_) =>
    case _ =>
  }

  predicate StillCleaning(run: seq<Action>) { forall i :: 0 <= i < |run| ==> !run[i].CleanupEnd? }

  lemma {:induction false} CleanupRun(before: State, pairs: set<(User, Socket)>, s: State, run: seq<Action>)
    requires Inv(before) && Inv(s) && Dropped(before, pairs, s) && IsRun(s, run) && StillCleaning(run)
    ensures Inv(Final(s, run)) && Dropped(before, pairs, Final(s, run))
    decreases |run|
  {
    if run != [] {
      assert !run[0].CleanupEnd?;
      StepInv(s, run[0]);
      CleanupStep(before, pairs, s, run[0]);
      assert forall i :: 0 <= i < |run[1..]| ==> run[1..][i] == run[i + 1];
      CleanupRun(before, pairs, Next(s, run[0]), run[1..]);
    }
  }

  lemma CleanupEnds(s: State, pairs: set<(User, Socket)>, f: State)
    requires Inv(s) && Inv(f) && Dropped(s, pairs, f) && f.lock.todo == {}
    ensures var e := Next(f, CleanupEnd);
            && e.lock.Free?
            && (forall u, ws :: ws in Bucket(e, u) <==> ws in Bucket(s, u) && (u, ws) !in pairs)
            && (forall u :: u in Registering(f, CleanupEnd) <==> Bucket(s, u) != {} && Bucket(e, u) == {})
  {
    assert forall u :: Bucket(Next(f, CleanupEnd), u) == Bucket(f, u);
  }

  // A cleanup can end exactly when all its pairs have been gone through.  Then, whatever
  // happened meanwhile, exactly these are gone, the lock is free again, and exactly the
  // users who lost their last socket are unregistered.
  lemma CleanupDrops(s: State, pairs: set<(User, Socket)>, run: seq<Action>)
    requires Inv(s) && Enabled(s, CleanupBegin(pairs))
    requires IsRun(Next(s, CleanupBegin(pairs)), run) && StillCleaning(run)
    ensures var f := Final(Next(s, CleanupBegin(pairs)), run);
            && f.lock.Cleaning?
            && (Enabled(f, CleanupEnd) <==> f.lock.todo == {})
            && (forall p :: p in f.lock.todo ==> Enabled(f, CleanupOne(p.0, p.1)) && Next(f, CleanupOne(p.0, p.1)).lock.todo == f.lock.todo - {p})
            && (Enabled(f, CleanupEnd) ==>
                  var e := Next(f, CleanupEnd);
                  && e.lock.Free?
                  && (forall u, ws :: ws in Bucket(e, u) <==> ws in Bucket(s, u) && (u, ws) !in pairs)
                  && (forall u :: u in Registering(f, CleanupEnd) <==> Bucket(s, u) != {} && Bucket(e, u) == {}))
  {
    var b := Next(s, CleanupBegin(pairs));
    StepInv(s, CleanupBegin(pairs));
    CleanupRun(s, pairs, b, run);
    var f := Final(b, run);
    if f.lock.todo == {} { CleanupEnds(s, pairs, f); }
  }
}
