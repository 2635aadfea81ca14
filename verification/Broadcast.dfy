/**
 `send_to_user_with_broadcast` (src/infra/websocket.py) over all processes: read the user's
 route set, prune members without a live route, publish to the others, and fall back to
 local delivery when nothing was published.
 */
module Broadcast {
  import opened Basics
  import opened Delivery

  type RouteSets = map<User, set<Instance>>

  function Lookup(sets: RouteSets, u: User): set<Instance> { if u in sets then sets[u] else {} }

  // The part of Redis that concerns routes: live route keys and the per-user sets.
  class RouteTable {
    var live: set<(Instance, User)>
    var members: RouteSets

    function Members(u: User): set<Instance>
      reads this
    {
      Lookup(members, u)
    }

    method RemoveMember(u: User, i: Instance)
      modifies `members
      ensures Members(u) == old(Members(u)) - {i}
      ensures forall v :: v != u ==> Members(v) == old(Members(v))
    {
      if u in members { members := members[u := members[u] - {i}]; }
    }
  }

  // What a send may do to the routes of its user, and to nobody else's: remove members,
  // but none whose route is live, and drop routes of sockets that failed.
  ghost predicate OnlyPruned(redis: RouteTable, u: User, members: RouteSets, live: set<(Instance, User)>)
    reads redis
  {
    && (forall i :: i in Lookup(members, u) && i !in redis.Members(u) ==> (i, u) !in redis.live)
    && redis.Members(u) <= Lookup(members, u) && redis.live <= live
    && forall v :: v != u ==> redis.Members(v) == Lookup(members, v)
  }

  // The instances whose rank in sorted order is below the fan-out limit.
  ghost function Chosen(s: set<Instance>): set<Instance> {
    set i | i in s && |Below(s, i)| < ROUTE_SCAN_LIMIT
  }

  ghost function Below(s: set<Instance>, i: Instance): set<Instance> { set j | j in s && j < i }

  predicate Ascending(ids: seq<Instance>) { forall a, b :: 0 <= a < b < |ids| ==> ids[a] < ids[b] }

  method Smallest(s: set<Instance>) returns (least: Instance)
    requires s != {}
    ensures least in s && forall i :: i in s ==> least <= i
  {
    least :| least in s;
    var todo := s - {least};
    while todo != {}
      invariant least in s && todo <= s
      invariant forall i :: i in s && i !in todo ==> least <= i
      decreases |todo|
    {
      var i :| i in todo;
      if i < least { least := i; }
      todo := todo - {i};
    }
  }

  method Sorted(s: set<Instance>) returns (ids: seq<Instance>)
    ensures Ascending(ids) && forall i :: i in s <==> i in ids
  {
    ids := [];
    var todo := s;
    while todo != {}
      invariant todo <= s && Ascending(ids)
      invariant forall i :: i in s <==> i in ids || i in todo
      invariant forall a, j :: 0 <= a < |ids| && j in todo ==> ids[a] < j
      decreases |todo|
    {
      var least := Smallest(todo);
      ids := ids + [least];
      todo := todo - {least};
    }
  }

  ghost function Elements(ids: seq<Instance>): set<Instance> { set i | i in ids }

  lemma {:induction false} ElementsSize(ids: seq<Instance>)
    requires Ascending(ids)
    ensures |Elements(ids)| == |ids|
  {
    if ids == [] {
      assert Elements(ids) == {};
    } else {
      var init, last := ids[..|ids| - 1], ids[|ids| - 1];
      ElementsSize(init);
      assert ids == init + [last];
      assert Elements(ids) == Elements(init) + {last};
      assert last !in init;
    }
  }

  // Slicing the sorted list takes exactly the chosen instances.
  lemma FirstAreChosen(s: set<Instance>, ids: seq<Instance>, n: nat)
    requires Ascending(ids) && (forall i :: i in s <==> i in ids)
    requires n == Min(|ids|, ROUTE_SCAN_LIMIT)
    ensures forall i :: i in ids[..n] <==> i in Chosen(s)
  {
    forall k | 0 <= k < |ids|
      ensures |Below(s, ids[k])| == k
    {
      ElementsSize(ids[..k]);
      assert Below(s, ids[k]) == Elements(ids[..k]);
    }
    forall i | i in Chosen(s) ensures i in ids[..n] {
      var k :| 0 <= k < |ids| && ids[k] == i;
      assert |Below(s, ids[k])| == k;
    }
    forall i | i in ids[..n] ensures i in Chosen(s) {
      var k :| 0 <= k < n && ids[k] == i;
      assert |Below(s, ids[k])| == k;
    }
  }

  // Up to the limit nobody is left out.
  lemma FewAreAllChosen(s: set<Instance>)
    requires |s| <= ROUTE_SCAN_LIMIT
    ensures Chosen(s) == s
  {
    forall i | i in s ensures i in Chosen(s) {
      assert Below(s, i) < s;
      SmallerSubset(Below(s, i), s);
    }
  }

  lemma SmallerSubset(a: set<Instance>, b: set<Instance>)
    requires a < b
    ensures |a| < |b|
  {
    assert b == a + (b - a);
    assert b - a != {};
  }

  type Managers = map<Instance, ConnectionManager>

  ghost predicate Network(managers: Managers)
    reads managers.Values
  {
    forall i :: i in managers ==> managers[i].instance == i && managers[i].Valid()
  }

  // The instances a publish reaches: chosen, with a live route, and listening.
  ghost function Reached(members: set<Instance>, live: set<(Instance, User)>, hub: set<Instance>, u: User): set<Instance> {
    set i | i in Chosen(members) && (i, u) in live && i in hub
  }

  // When nothing was published the sender delivers locally, and only then.
  ghost function Receivers(reached: set<Instance>, sender: Instance): set<Instance> {
    if reached == {} then {sender} else reached
  }

  function AfterDelivery(c: Connections, u: User, m: Message, healthy: set<Socket>): Connections {
    if Deliverable(m) then Without(c, Broken(c, u, healthy)) else c
  }

  function Handed(c: Connections, u: User, m: Message, healthy: set<Socket>): set<(User, Socket)> {
    if Deliverable(m) then Received(c, u, healthy) else {}
  }

  // One publish, or the local fallback: the handler of instance i, including the
  // unregistration that follows when its last socket of the user failed.
  method Deliver(manager: ConnectionManager, redis: RouteTable, healthy: set<Socket>, u: User, m: Message)
    returns (count: nat)
    requires manager.Valid()
    modifies manager, redis
    ensures manager.Valid()
    ensures manager.connections == AfterDelivery(old(manager.connections), u, m, healthy)
    ensures manager.sent == old(manager.sent) + multiset(Handed(old(manager.connections), u, m, healthy))
    ensures count == |Handed(old(manager.connections), u, m, healthy)|
    ensures GivenUp(redis, old(redis.live), old(redis.Members(u)), u,
                    if LosesAll(old(manager.connections), u, m, healthy) then {manager.instance} else {})
    ensures forall v :: v != u ==> redis.Members(v) == old(redis.Members(v))
  {
    var emptied;
    count, emptied := manager.SendToUserLocal(u, m, healthy);
    AddressedSize(u, Bucket(old(manager.connections), u) * healthy);
    OnlyThisUser(old(manager.connections), u, healthy);
    LosesAllIff(old(manager.connections), u, m, healthy);
    RoutesOfOne(manager.instance, u);
    if u in emptied {
      redis.live := redis.live - {(manager.instance, u)};
      redis.RemoveMember(u, manager.instance);
    }
  }

  // The user has sockets on the instance, and the message fails on each of them.
  ghost predicate LosesAll(c: Connections, u: User, m: Message, healthy: set<Socket>) {
    Deliverable(m) && u in c && c[u] * healthy == {}
  }

  ghost function Routes(instances: set<Instance>, u: User): set<(Instance, User)> { set i | i in instances :: (i, u) }

  lemma RoutesOfOne(i: Instance, u: User)
    ensures Routes({i}, u) == {(i, u)} && Routes({}, u) == {}
  {
    assert i in {i};
  }

  // Exactly the given instances have given up route and membership.
  ghost predicate GivenUp(redis: RouteTable, live: set<(Instance, User)>, members: set<Instance>, u: User, gone: set<Instance>)
    reads redis
  {
    redis.live == live - Routes(gone, u) && redis.Members(u) == members - gone
  }

  lemma LosesAllIff(c: Connections, u: User, m: Message, healthy: set<Socket>)
    requires forall v :: v in c ==> c[v] != {}
    ensures LosesAll(c, u, m, healthy) <==> u in c && u !in AfterDelivery(c, u, m, healthy)
  {
    if u in c && Deliverable(m) {
      forall ws ensures ws in Kept(c, Broken(c, u, healthy), u) <==> ws in c[u] * healthy {
        assert (u, ws) in Broken(c, u, healthy) <==> ws in c[u] - healthy;
      }
      assert Kept(c, Broken(c, u, healthy), u) == c[u] * healthy;
    }
  }

  lemma {:induction false} AddressedSize(u: User, sockets: set<Socket>)
    ensures |Addressed(u, sockets)| == |sockets|
    decreases |sockets|
  {
    if ws :| ws in sockets {
      AddressedSize(u, sockets - {ws});
      assert Addressed(u, sockets) == Addressed(u, sockets - {ws}) + {(u, ws)};
    } else {
      assert Addressed(u, sockets) == {};
    }
  }

  lemma OnlyThisUser(c: Connections, u: User, healthy: set<Socket>)
    requires forall v :: v in c ==> c[v] != {}
    ensures forall v :: v != u ==>
              (v in c <==> v in Without(c, Broken(c, u, healthy)))
              && (v in c ==> Without(c, Broken(c, u, healthy))[v] == c[v])
  {
    forall v | v != u && v in c
      ensures Kept(c, Broken(c, u, healthy), v) == c[v]
    {}
  }

  // The state of the instances when the message was sent.
  datatype Before = Before(connections: Connections, sent: multiset<(User, Socket)>)

  ghost function Snapshot(managers: Managers): map<Instance, Before>
    reads managers.Values
  {
    map i | i in managers :: Before(managers[i].connections, managers[i].sent)
  }

  ghost predicate Outcome(manager: ConnectionManager, b: Before, receives: bool, u: User, m: Message, healthy: set<Socket>)
    reads manager
  {
    && manager.sent == b.sent + multiset(if receives then Handed(b.connections, u, m, healthy) else {})
    && manager.connections == if receives then AfterDelivery(b.connections, u, m, healthy) else b.connections
  }

  // The members of `receivers` have handed the message once to each socket that works;
  // every other instance is as it was.
  ghost predicate Handled(managers: Managers, before: map<Instance, Before>, receivers: set<Instance>,
                          u: User, m: Message, healthy: set<Socket>)
    requires before.Keys == managers.Keys
    reads managers.Values
  {
    forall i :: i in managers ==> Outcome(managers[i], before[i], i in receivers, u, m, healthy)
  }

  // Exactly the served instances on which the message failed everywhere have given up route
  // and membership, and exactly the members in `pruned` have been removed besides.
  ghost predicate Traced(redis: RouteTable, before: map<Instance, Before>, served: set<Instance>, pruned: set<Instance>,
                         u: User, m: Message, healthy: set<Socket>, members: RouteSets, live: set<(Instance, User)>)
    reads redis
  {
    var losers := Losers(before, served, u, m, healthy);
    redis.live == live - Routes(losers, u) && redis.Members(u) == Lookup(members, u) - pruned - losers
  }

  ghost function Losers(before: map<Instance, Before>, served: set<Instance>, u: User, m: Message, healthy: set<Socket>): set<Instance> {
    set i | i in served && i in before && LosesAll(before[i].connections, u, m, healthy)
  }

  // Delivery to one instance leaves the others alone.
  method HandTo(
    i: Instance, managers: Managers, redis: RouteTable, healthy: set<Socket>, u: User, m: Message,
    ghost before: map<Instance, Before>, ghost served: set<Instance>)
    returns (count: nat)
    requires Network(managers) && i in managers && i !in served && before.Keys == managers.Keys
    requires Handled(managers, before, served, u, m, healthy)
    modifies managers[i], redis
    ensures Network(managers) && Handled(managers, before, served + {i}, u, m, healthy)
    ensures count == |Handed(before[i].connections, u, m, healthy)|
    ensures GivenUp(redis, old(redis.live), old(redis.Members(u)), u,
                    if LosesAll(before[i].connections, u, m, healthy) then {i} else {})
    ensures forall v :: v != u ==> redis.Members(v) == old(redis.Members(v))
  {
    assert Outcome(managers[i], before[i], false, u, m, healthy);
    count := Deliver(managers[i], redis, healthy, u, m);
    assert managers[i].sent == before[i].sent + multiset(Handed(before[i].connections, u, m, healthy));
    forall j | j in managers
      ensures Outcome(managers[j], before[j], j in served + {i}, u, m, healthy)
    {
      if j != i {
        assert managers[j].instance != managers[i].instance;
        assert old(Outcome(managers[j], before[j], j in served, u, m, healthy));
      }
    }
  }

  // The same, with what it does to the routes.
  method DeliverTo(
    i: Instance, managers: Managers, redis: RouteTable, healthy: set<Socket>, u: User, m: Message,
    ghost before: map<Instance, Before>, ghost served: set<Instance>, ghost pruned: set<Instance>,
    ghost members: RouteSets, ghost live: set<(Instance, User)>)
    returns (count: nat)
    requires OnlyPruned(redis, u, members, live) && Traced(redis, before, served, pruned, u, m, healthy, members, live)
    requires Network(managers) && i in managers && i !in served && before.Keys == managers.Keys
    requires Handled(managers, before, served, u, m, healthy)
    modifies managers[i], redis
    ensures Network(managers) && Handled(managers, before, served + {i}, u, m, healthy)
    ensures count == |Handed(before[i].connections, u, m, healthy)|
    ensures OnlyPruned(redis, u, members, live)
    ensures Traced(redis, before, served + {i}, pruned, u, m, healthy, members, live)
    ensures old(redis.live) - {(i, u)} <= redis.live <= old(redis.live)
  {
    OneMoreServed(before, served, i, u, m, healthy, live, Lookup(members, u) - pruned);
    RoutesOfOne(i, u);
    count := HandTo(i, managers, redis, healthy, u, m, before, served);
  }

  lemma OneMoreServed(before: map<Instance, Before>, served: set<Instance>, i: Instance, u: User, m: Message,
                      healthy: set<Socket>, live: set<(Instance, User)>, members: set<Instance>)
    requires i in before
    ensures var gone := if LosesAll(before[i].connections, u, m, healthy) then {i} else {};
            var losers, losers' := Losers(before, served, u, m, healthy), Losers(before, served + {i}, u, m, healthy);
            && losers' == losers + gone && members - losers - gone == members - losers'
            && live - Routes(losers, u) - Routes(gone, u) == live - Routes(losers', u)
  {}

  // One iteration of the publish loop: prune the member, or publish to it.
  method Visit(
    i: Instance, managers: Managers, redis: RouteTable, hub: set<Instance>, healthy: set<Socket>,
    u: User, m: Message, ghost before: map<Instance, Before>, ghost served: set<Instance>, ghost pruned: set<Instance>,
    ghost members: RouteSets, ghost live: set<(Instance, User)>)
    returns (published: bool)
    requires OnlyPruned(redis, u, members, live) && Traced(redis, before, served, pruned, u, m, healthy, members, live)
    requires Network(managers) && hub <= managers.Keys && i !in served && before.Keys == managers.Keys
    requires Handled(managers, before, served, u, m, healthy)
    modifies managers.Values, redis
    ensures Network(managers) && published == ((i, u) in old(redis.live) && i in hub)
    ensures Handled(managers, before, if published then served + {i} else served, u, m, healthy)
    ensures OnlyPruned(redis, u, members, live)
    ensures Traced(redis, before, if published then served + {i} else served,
                   if (i, u) in old(redis.live) then pruned else pruned + {i}, u, m, healthy, members, live)
    ensures old(redis.live) - {(i, u)} <= redis.live <= old(redis.live)
  {
    published := false;
    if (i, u) !in redis.live {
      redis.RemoveMember(u, i);
    } else if i in hub {
      var _ := DeliverTo(i, managers, redis, healthy, u, m, before, served, pruned, members, live);
      published := true;
    }
  }

  ghost predicate ServedUpTo(ids: seq<Instance>, reached: set<Instance>, k: nat, served: set<Instance>) {
    && served <= reached
    && forall j :: 0 <= j < |ids| ==> (ids[j] in served <==> j < k && ids[j] in reached)
  }

  lemma ServeNext(ids: seq<Instance>, reached: set<Instance>, k: nat, served: set<Instance>)
    requires Ascending(ids) && k < |ids| && ServedUpTo(ids, reached, k, served)
    ensures ids[k] !in served
    ensures ServedUpTo(ids, reached, k + 1, if ids[k] in reached then served + {ids[k]} else served)
    ensures |served + {ids[k]}| == |served| + 1
  {}

  lemma AllServed(ids: seq<Instance>, reached: set<Instance>, served: set<Instance>)
    requires (forall i :: i in reached ==> i in ids) && ServedUpTo(ids, reached, |ids|, served)
    ensures served == reached
  {}

  // A visit to member k leaves the routes of the later ones alone.
  lemma StillAhead(ids: seq<Instance>, k: nat, u: User, hub: set<Instance>, reached: set<Instance>,
                   was: set<(Instance, User)>, live: set<(Instance, User)>)
    requires Ascending(ids) && k < |ids| && was - {(ids[k], u)} <= live <= was
    requires forall j :: k <= j < |ids| ==> ((ids[j], u) in was && ids[j] in hub <==> ids[j] in reached)
    ensures forall j :: k < j < |ids| ==> ((ids[j], u) in live && ids[j] in hub <==> ids[j] in reached)
    ensures forall j :: k < j < |ids| ==> ((ids[j], u) in live <==> (ids[j], u) in was)
  {}

  // The members before k without a live route.
  ghost predicate DeadUpTo(ids: seq<Instance>, k: nat, u: User, live: set<(Instance, User)>, pruned: set<Instance>) {
    forall i :: i in pruned <==> exists j :: 0 <= j < k && j < |ids| && ids[j] == i && (i, u) !in live
  }

  lemma OneMoreDead(ids: seq<Instance>, k: nat, u: User, live: set<(Instance, User)>, pruned: set<Instance>)
    requires k < |ids| && DeadUpTo(ids, k, u, live, pruned)
    ensures DeadUpTo(ids, k + 1, u, live, if (ids[k], u) in live then pruned else pruned + {ids[k]})
  {
    var pruned' := if (ids[k], u) in live then pruned else pruned + {ids[k]};
    forall i ensures i in pruned' <==> exists j :: 0 <= j < k + 1 && ids[j] == i && (i, u) !in live {
      if j :| 0 <= j < k + 1 && ids[j] == i && (i, u) !in live {
        if j < k { assert i in pruned; }
      }
    }
  }

  // The publish loop before member k.
  ghost predicate Midway(
    k: nat, ids: seq<Instance>, published: nat, managers: Managers, redis: RouteTable, hub: set<Instance>,
    healthy: set<Socket>, u: User, m: Message, before: map<Instance, Before>, reached: set<Instance>,
    served: set<Instance>, pruned: set<Instance>, members: RouteSets, live: set<(Instance, User)>)
    requires before.Keys == managers.Keys
    reads managers.Values, redis
  {
    && Network(managers) && ServedUpTo(ids, reached, k, served) && published == |served|
    && Handled(managers, before, served, u, m, healthy) && OnlyPruned(redis, u, members, live)
    && Traced(redis, before, served, pruned, u, m, healthy, members, live) && DeadUpTo(ids, k, u, live, pruned)
    && (forall j :: k <= j < |ids| ==> ((ids[j], u) in redis.live <==> (ids[j], u) in live))
    && forall j :: k <= j < |ids| ==> ((ids[j], u) in redis.live && ids[j] in hub <==> ids[j] in reached)
  }

  // One iteration of the publish loop.
  method PublishNext(
    k: nat, ids: seq<Instance>, published: nat, managers: Managers, redis: RouteTable, hub: set<Instance>,
    healthy: set<Socket>, u: User, m: Message, ghost before: map<Instance, Before>, ghost reached: set<Instance>,
    ghost served: set<Instance>, ghost pruned: set<Instance>, ghost members: RouteSets, ghost live: set<(Instance, User)>)
    returns (published': nat, ghost served': set<Instance>, ghost pruned': set<Instance>)
    requires before.Keys == managers.Keys && hub <= managers.Keys && Ascending(ids) && k < |ids|
    requires Midway(k, ids, published, managers, redis, hub, healthy, u, m, before, reached, served, pruned, members, live)
    modifies managers.Values, redis
    ensures Midway(k + 1, ids, published', managers, redis, hub, healthy, u, m, before, reached, served', pruned', members, live)
  {
    ServeNext(ids, reached, k, served);
    ghost var was := redis.live;
    OneMoreDead(ids, k, u, live, pruned);
    var reachable := Visit(ids[k], managers, redis, hub, healthy, u, m, before, served, pruned, members, live);
    StillAhead(ids, k, u, hub, reached, was, redis.live);
    published', served' := published, served;
    pruned' := if (ids[k], u) in live then pruned else pruned + {ids[k]};
    if reachable { published', served' := published + 1, served + {ids[k]}; }
  }

  method Publish(
    ids: seq<Instance>, managers: Managers, redis: RouteTable, hub: set<Instance>, healthy: set<Socket>,
    u: User, m: Message, ghost reached: set<Instance>)
    returns (published: nat, ghost pruned: set<Instance>)
    requires Network(managers) && hub <= managers.Keys && Ascending(ids)
    requires forall i :: i in reached <==> i in ids && (i, u) in redis.live && i in hub
    modifies managers.Values, redis
    ensures Network(managers) && published == |reached|
    ensures Handled(managers, old(Snapshot(managers)), reached, u, m, healthy)
    ensures OnlyPruned(redis, u, old(redis.members), old(redis.live))
    ensures forall i :: i in pruned <==> i in ids && (i, u) !in old(redis.live)
    ensures Traced(redis, old(Snapshot(managers)), reached, pruned, u, m, healthy, old(redis.members), old(redis.live))
  {
    published := 0;
    ghost var before, members, live := Snapshot(managers), redis.members, redis.live;
    ghost var served: set<Instance> := {};
    pruned := {};
    for k := 0 to |ids|
      invariant Midway(k, ids, published, managers, redis, hub, healthy, u, m, before, reached, served, pruned, members, live)
    {
      published, served, pruned := PublishNext(k, ids, published, managers, redis, hub, healthy, u, m, before, reached,
                                               served, pruned, members, live);
    }
    AllServed(ids, reached, served);
    AllDead(ids, u, live, pruned);
  }

  lemma AllDead(ids: seq<Instance>, u: User, live: set<(Instance, User)>, pruned: set<Instance>)
    requires DeadUpTo(ids, |ids|, u, live, pruned)
    ensures forall i :: i in pruned <==> i in ids && (i, u) !in live
  {}

  // The members without a live route that a send comes to.
  ghost function Dead(members: set<Instance>, live: set<(Instance, User)>, u: User): set<Instance> {
    set i | i in Chosen(members) && (i, u) !in live
  }

  // The local delivery of a send that has reached nobody.
  method FallBack(
    sender: Instance, managers: Managers, redis: RouteTable, healthy: set<Socket>, u: User, m: Message,
    ghost before: map<Instance, Before>, ghost pruned: set<Instance>,
    ghost members: RouteSets, ghost live: set<(Instance, User)>)
    returns (count: nat)
    requires OnlyPruned(redis, u, members, live) && Traced(redis, before, {}, pruned, u, m, healthy, members, live)
    requires Network(managers) && sender in managers && before.Keys == managers.Keys
    requires Handled(managers, before, {}, u, m, healthy)
    modifies managers[sender], redis
    ensures Network(managers) && Handled(managers, before, {sender}, u, m, healthy)
    ensures count == |Handed(before[sender].connections, u, m, healthy)| && OnlyPruned(redis, u, members, live)
    ensures Traced(redis, before, {sender}, pruned, u, m, healthy, members, live)
  {
    assert {} + {sender} == {sender};
    count := DeliverTo(sender, managers, redis, healthy, u, m, before, {}, pruned, members, live);
  }

  // The sorted first members, and a publish to each.
  method PublishToChosen(
    managers: Managers, redis: RouteTable, hub: set<Instance>, healthy: set<Socket>, u: User, m: Message)
    returns (published: nat)
    requires Network(managers) && hub <= managers.Keys
    modifies managers.Values, redis
    ensures Network(managers) && OnlyPruned(redis, u, old(redis.members), old(redis.live))
    ensures var reached := Reached(old(redis.Members(u)), old(redis.live), hub, u);
            && Handled(managers, old(Snapshot(managers)), reached, u, m, healthy) && published == |reached|
            && Traced(redis, old(Snapshot(managers)), reached, Dead(old(redis.Members(u)), old(redis.live), u),
                      u, m, healthy, old(redis.members), old(redis.live))
  {
    ghost var dead := Dead(redis.Members(u), redis.live, u);
    ghost var reached := Reached(redis.Members(u), redis.live, hub, u);
    var ids := Sorted(redis.Members(u));
    var n := if |ids| < ROUTE_SCAN_LIMIT then |ids| else ROUTE_SCAN_LIMIT;
    FirstAreChosen(redis.Members(u), ids, n);
    ghost var pruned;
    published, pruned := Publish(ids[..n], managers, redis, hub, healthy, u, m, reached);
    assert pruned == dead;
  }

  // The publishes, and the local fallback.
  method PublishOrFallBack(
    sender: Instance, managers: Managers, redis: RouteTable, hub: set<Instance>, healthy: set<Socket>,
    u: User, m: Message)
    returns (published: nat)
    requires Network(managers) && sender in managers && hub <= managers.Keys
    modifies managers.Values, redis
    ensures Network(managers) && OnlyPruned(redis, u, old(redis.members), old(redis.live))
    ensures var reached := Reached(old(redis.Members(u)), old(redis.live), hub, u);
            && Handled(managers, old(Snapshot(managers)), Receivers(reached, sender), u, m, healthy)
            && published == (if reached == {} then |Handed(old(managers[sender].connections), u, m, healthy)|
                             else |reached|)
            && Traced(redis, old(Snapshot(managers)), Receivers(reached, sender),
                      Dead(old(redis.Members(u)), old(redis.live), u), u, m, healthy, old(redis.members), old(redis.live))
  {
    ghost var dead := Dead(redis.Members(u), redis.live, u);
    ghost var reached := Reached(redis.Members(u), redis.live, hub, u);
    published := PublishToChosen(managers, redis, hub, healthy, u, m);
    if published == 0 {
      assert reached == {};
      published := FallBack(sender, managers, redis, healthy, u, m, old(Snapshot(managers)), dead, old(redis.members), old(redis.live));
    }
  }

  method SendToUserWithBroadcast(
    sender: Instance, managers: Managers, redis: RouteTable, hub: set<Instance>, healthy: set<Socket>,
    u: User, m: Message)
    returns (published: nat)
    requires Network(managers) && sender in managers && hub <= managers.Keys
    modifies managers.Values, redis
    ensures Network(managers)
    // An oversized envelope is dropped.
    ensures m.envelopeBytes > MESSAGE_MAX_BYTES ==>
              && published == 0 && redis.live == old(redis.live) && redis.members == old(redis.members)
              && Handled(managers, old(Snapshot(managers)), {}, u, m, healthy)
    // Otherwise the receivers, and they alone, hand the message to their working sockets.
    ensures m.envelopeBytes <= MESSAGE_MAX_BYTES ==>
              var reached := Reached(old(redis.Members(u)), old(redis.live), hub, u);
              && Handled(managers, old(Snapshot(managers)), Receivers(reached, sender), u, m, healthy)
              && published == if reached == {} then |Handed(old(managers[sender].connections), u, m, healthy)|
                              else |reached|
    // Pruning never removes a member whose route is live; exactly the chosen members without
    // one are removed, and exactly the receivers that lost their last socket unregister.
    ensures OnlyPruned(redis, u, old(redis.members), old(redis.live))
    ensures m.envelopeBytes <= MESSAGE_MAX_BYTES ==>
              Traced(redis, old(Snapshot(managers)),
                     Receivers(Reached(old(redis.Members(u)), old(redis.live), hub, u), sender),
                     Dead(old(redis.Members(u)), old(redis.live), u), u, m, healthy, old(redis.members), old(redis.live))
  {
    if m.envelopeBytes > MESSAGE_MAX_BYTES { return 0; }
    published := PublishOrFallBack(sender, managers, redis, hub, healthy, u, m);
  }

  // Every connection of the user is registered, live and listened to, and nothing else is.
  ghost predicate InSync(before: map<Instance, Before>, members: set<Instance>, live: set<(Instance, User)>,
                         hub: set<Instance>, u: User)
  {
    && (forall i :: i in before ==> (u in before[i].connections <==> i in members))
    && (forall i :: i in members ==> i in before && (i, u) in live && i in hub)
  }

  // When the routes were in sync and within the fan-out limit, what a send leaves behind is
  // one delivery to each working socket of the user on every instance, and nothing else:
  // no socket is missed, and the fallback repeats nothing.
  lemma ExactlyOnceWhenInSync(
    managers: Managers, before: map<Instance, Before>, members: set<Instance>, live: set<(Instance, User)>,
    hub: set<Instance>, healthy: set<Socket>, u: User, m: Message, sender: Instance)
    requires before.Keys == managers.Keys && InSync(before, members, live, hub, u)
    requires |members| <= ROUTE_SCAN_LIMIT && Deliverable(m)
    requires Handled(managers, before, Receivers(Reached(members, live, hub, u), sender), u, m, healthy)
    ensures forall i :: i in managers ==>
              managers[i].sent == before[i].sent + multiset(Received(before[i].connections, u, healthy))
  {
    FewAreAllChosen(members);
    assert Reached(members, live, hub, u) == members;
    forall i | i in managers
      ensures managers[i].sent == before[i].sent + multiset(Received(before[i].connections, u, healthy))
    {
      assert Outcome(managers[i], before[i], i in Receivers(members, sender), u, m, healthy);
      if i !in Receivers(members, sender) {
        assert Bucket(before[i].connections, u) * healthy == {};
        assert Received(before[i].connections, u, healthy) == {};
      }
    }
  }

  // A member the send publishes to: among the first 100 in order, with a live route and a
  // listening hub.
  ghost predicate Served(members: set<Instance>, live: set<(Instance, User)>, hub: set<Instance>, u: User, i: Instance) {
    i in members && |Below(members, i)| < ROUTE_SCAN_LIMIT && (i, u) in live && i in hub
  }

  ghost predicate AllDelivered(managers: Managers, before: map<Instance, Before>, u: User, healthy: set<Socket>)
    requires before.Keys == managers.Keys
    reads managers.Values
  {
    forall i, ws :: i in managers && ws in Bucket(before[i].connections, u) && ws in healthy ==>
      managers[i].sent[(u, ws)] > before[i].sent[(u, ws)]
  }

  // A send reaches every working socket of the user on every instance if and only if each
  // instance that has one is served or, when no member is served, is the sender itself.
  lemma EveryoneReachedIff(
    managers: Managers, before: map<Instance, Before>, members: set<Instance>, live: set<(Instance, User)>,
    hub: set<Instance>, healthy: set<Socket>, u: User, m: Message, sender: Instance)
    requires before.Keys == managers.Keys && Deliverable(m)
    requires Handled(managers, before, Receivers(Reached(members, live, hub, u), sender), u, m, healthy)
    ensures AllDelivered(managers, before, u, healthy) <==>
              forall i :: i in before && Bucket(before[i].connections, u) * healthy != {} ==>
                || Served(members, live, hub, u, i)
                || (i == sender && forall j :: j in members ==> !Served(members, live, hub, u, j))
  {
    var receivers := Receivers(Reached(members, live, hub, u), sender);
    DeliveredIffReceivers(managers, before, receivers, healthy, u, m);
    forall i | i in before
      ensures i in receivers <==>
                Served(members, live, hub, u, i) || (i == sender && forall j :: j in members ==> !Served(members, live, hub, u, j))
    {
      ReceivesIff(members, live, hub, u, sender, i);
    }
  }

  lemma DeliveredIffReceivers(
    managers: Managers, before: map<Instance, Before>, receivers: set<Instance>, healthy: set<Socket>, u: User, m: Message)
    requires before.Keys == managers.Keys && Deliverable(m)
    requires Handled(managers, before, receivers, u, m, healthy)
    ensures AllDelivered(managers, before, u, healthy) <==>
              forall i :: i in before && Bucket(before[i].connections, u) * healthy != {} ==> i in receivers
  {
    forall i, ws | i in managers
      ensures managers[i].sent[(u, ws)] > before[i].sent[(u, ws)] <==>
                i in receivers && ws in Bucket(before[i].connections, u) && ws in healthy
    {
      AtMostOnce(managers, before, receivers, healthy, u, m, i, u, ws);
    }
    if AllDelivered(managers, before, u, healthy) {
      forall i | i in before && Bucket(before[i].connections, u) * healthy != {} ensures i in receivers {
        var ws :| ws in Bucket(before[i].connections, u) * healthy;
        assert managers[i].sent[(u, ws)] > before[i].sent[(u, ws)];
      }
    } else {
      var i, ws :| i in managers && ws in Bucket(before[i].connections, u) && ws in healthy
                   && managers[i].sent[(u, ws)] <= before[i].sent[(u, ws)];
      assert ws in Bucket(before[i].connections, u) * healthy && i !in receivers;
    }
  }

  lemma ReceivesIff(members: set<Instance>, live: set<(Instance, User)>, hub: set<Instance>, u: User, sender: Instance, i: Instance)
    ensures i in Receivers(Reached(members, live, hub, u), sender) <==>
              Served(members, live, hub, u, i) || (i == sender && forall j :: j in members ==> !Served(members, live, hub, u, j))
  {
    var reached := Reached(members, live, hub, u);
    forall j ensures j in reached <==> Served(members, live, hub, u, j) {}
    if reached == {} {
      forall j | j in members ensures !Served(members, live, hub, u, j) { assert j !in reached; }
    } else {
      var j :| j in reached;
      assert j in members && Served(members, live, hub, u, j);
    }
  }

  // What a send adds to the log of any instance for any user and socket is nothing or one
  // delivery; it is one exactly for the working sockets of the addressed user on a receiver.
  lemma AtMostOnce(
    managers: Managers, before: map<Instance, Before>, receivers: set<Instance>, healthy: set<Socket>,
    u: User, m: Message, i: Instance, v: User, ws: Socket)
    requires before.Keys == managers.Keys && i in managers
    requires Handled(managers, before, receivers, u, m, healthy)
    ensures managers[i].sent[(v, ws)] == before[i].sent[(v, ws)]
              + (if v == u && i in receivers && Deliverable(m) && ws in Bucket(before[i].connections, u) && ws in healthy
                 then 1 else 0)
  {
    assert Outcome(managers[i], before[i], i in receivers, u, m, healthy);
    HandedCount(before[i].connections, u, m, healthy, v, ws);
  }

  lemma HandedCount(c: Connections, u: User, m: Message, healthy: set<Socket>, v: User, ws: Socket)
    ensures multiset(Handed(c, u, m, healthy))[(v, ws)]
            == if v == u && Deliverable(m) && ws in Bucket(c, u) && ws in healthy then 1 else 0
  {
    assert (v, ws) in Handed(c, u, m, healthy) <==> v == u && Deliverable(m) && ws in Bucket(c, u) && ws in healthy;
  }
}
