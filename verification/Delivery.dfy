/**
 Delivery of a message to every socket of a user (src/infra/websocket.py): the lock-guarded
 map of one process, and `send_to_user_with_broadcast` over all processes.  A publish is
 modelled as the delivery by the subscribed instance; Redis calls do not fail.
 */
module Delivery {
  import opened Basics
  import R = Routes

  type User = R.User
  type Socket = R.Socket
  type Instance = nat

  const ROUTE_SCAN_LIMIT: nat := 100
  const MESSAGE_MAX_BYTES: nat := 256 * 1024

  // Whether the message is truthy, and the bytes of its two serialisations.
  datatype Message = Message(truthy: bool, envelopeBytes: nat, textBytes: nat)

  predicate Deliverable(m: Message) { m.truthy && m.textBytes <= MESSAGE_MAX_BYTES }

  type Connections = map<User, set<Socket>>

  function Bucket(c: Connections, u: User): set<Socket> { if u in c then c[u] else {} }

  // The sockets that stay when the pairs in `gone` are dropped; an empty bucket goes too.
  function Kept(c: Connections, gone: set<(User, Socket)>, u: User): set<Socket> {
    set ws | ws in Bucket(c, u) && (u, ws) !in gone
  }

  function Without(c: Connections, gone: set<(User, Socket)>): Connections {
    map u | u in c && Kept(c, gone, u) != {} :: Kept(c, gone, u)
  }

  function Addressed(u: User, sockets: set<Socket>): set<(User, Socket)> {
    set ws | ws in sockets :: (u, ws)
  }

  // The sockets of user u that a delivery attempt on one process reaches, and the others.
  function Received(c: Connections, u: User, healthy: set<Socket>): set<(User, Socket)> {
    Addressed(u, Bucket(c, u) * healthy)
  }

  function Broken(c: Connections, u: User, healthy: set<Socket>): set<(User, Socket)> {
    Addressed(u, Bucket(c, u) - healthy)
  }

  lemma TwoRemovals<V>(m: map<User, V>, a: set<User>, b: set<User>)
    ensures (m - a) - b == m - (a + b)
  {}

  lemma NothingGone(c: Connections, pairs: set<(User, Socket)>)
    requires forall u :: u in c ==> c[u] != {}
    ensures Without(c, pairs - pairs) == c && Without(c, {}) == c
  {
    assert pairs - pairs == {};
    assert forall u :: u in c ==> Kept(c, {}, u) == c[u];
  }

  function Dropped(c: Connections, u: User, ws: Socket): Connections {
    if u !in c then c else if c[u] - {ws} == {} then c - {u} else c[u := c[u] - {ws}]
  }

  lemma OneMoreGone(c: Connections, pairs: set<(User, Socket)>, todo: set<(User, Socket)>, u: User, ws: Socket)
    requires todo <= pairs && (u, ws) in todo
    ensures Without(c, pairs - (todo - {(u, ws)})) == Dropped(Without(c, pairs - todo), u, ws)
  {
    var gone := pairs - todo;
    assert pairs - (todo - {(u, ws)}) == gone + {(u, ws)};
    assert forall v :: v != u ==> Kept(c, gone + {(u, ws)}, v) == Kept(c, gone, v);
    assert Kept(c, gone + {(u, ws)}, u) == Kept(c, gone, u) - {ws};
  }

  lemma OneMoreAddressed(u: User, done: set<Socket>, ws: Socket)
    requires ws !in done
    ensures multiset(Addressed(u, done + {ws})) == multiset(Addressed(u, done)) + multiset{(u, ws)}
  {
    assert Addressed(u, done + {ws}) == Addressed(u, done) + {(u, ws)};
    assert (u, ws) !in Addressed(u, done);
  }

  class ConnectionManager {
    const instance: Instance
    var connections: Connections
    var refreshTasks: map<User, R.Refresh>
    ghost var sent: multiset<(User, Socket)>   // every send_text that succeeded

    ghost predicate Valid()
      reads this
    {
      && refreshTasks.Keys == connections.Keys
      && forall u :: u in connections ==> connections[u] != {}
    }

    // The lock-guarded part of the state, as module Routes sees it.
    ghost function Locked(now: nat, lock: R.Lock, ops: multiset<R.Op>): R.State
      reads this
    {
      R.State(connections, refreshTasks, lock, ops, multiset{}, map[], map[], now, 0)
    }

    // The critical section of connect.
    method Connect(ws: Socket, u: User, now: nat) returns (count: nat)
      requires Valid()
      modifies `connections, `refreshTasks
      ensures Valid()
      ensures count > 0 && Locked(now, R.Free, multiset{R.Op(u, count, 0)})
                           == R.DoConnect(old(Locked(now, R.Free, multiset{})), u, ws)
      // The user's bucket gains the socket, and every other bucket is as it was.
      ensures Bucket(connections, u) == Bucket(old(connections), u) + {ws} && count == |Bucket(connections, u)|
      ensures forall v :: v != u ==> Bucket(connections, v) == Bucket(old(connections), v)
    {
      if u !in connections { connections := connections[u := {}]; }
      connections := connections[u := connections[u] + {ws}];
      count := |connections[u]|;
      if count == 1 { EnsureRefreshTask(u, now); }
      assert ws in connections[u];
    }

    method EnsureRefreshTask(u: User, now: nat)
      modifies `refreshTasks
      ensures refreshTasks == if u in old(refreshTasks) then old(refreshTasks)
                              else old(refreshTasks)[u := R.Sleeping(now + R.REFRESH_INTERVAL)]
    {
      if u in refreshTasks { return; }
      refreshTasks := refreshTasks[u := R.Sleeping(now + R.REFRESH_INTERVAL)];
    }

    // The critical section of disconnect; the lock stays held while an emptied user's task
    // is being stopped.
    method Disconnect(ws: Socket, u: User, now: nat) returns (count: nat, stopping: bool)
      requires Valid()
      modifies `connections, `refreshTasks
      ensures Valid() && stopping == (u in old(connections) && u !in connections)
      ensures Locked(now, if stopping then R.Stopping(u) else R.Free,
                     if stopping then multiset{} else multiset{R.Op(u, count, 0)})
              == R.DoDisconnect(old(Locked(now, R.Free, multiset{})), u, ws)
      ensures Bucket(connections, u) == Bucket(old(connections), u) - {ws} && count == |Bucket(connections, u)|
      ensures forall v :: v != u ==> Bucket(connections, v) == Bucket(old(connections), v)
    {
      count, stopping := 0, false;
      if u in connections {
        connections := connections[u := connections[u] - {ws}];
        count := |connections[u]|;
        if count == 0 {
          connections := connections - {u};
          refreshTasks := refreshTasks - {u};
          stopping := true;
        }
      }
    }

    // One iteration of the cleanup loop; `lost` holds the user if that was their last socket.
    method DropSocket(u: User, ws: Socket) returns (lost: set<User>)
      requires Valid()
      modifies `connections, `refreshTasks
      ensures Valid() && connections == Dropped(old(connections), u, ws)
      ensures connections.Keys <= old(connections).Keys && lost == old(connections).Keys - connections.Keys
      ensures refreshTasks == old(refreshTasks) - lost
    {
      lost := {};
      if u !in connections { return; }
      var bucket := connections[u] - {ws};
      if bucket == {} {
        connections := connections - {u};
        refreshTasks := refreshTasks - {u};
        lost := {u};
      } else {
        connections := connections[u := bucket];
      }
    }

    // Midway through a cleanup: the pairs outside `todo` are gone.
    ghost predicate Cleaned(before: Connections, tasks: map<User, R.Refresh>, pairs: set<(User, Socket)>,
                            todo: set<(User, Socket)>, emptied: set<User>)
      reads this
    {
      && connections == Without(before, pairs - todo)
      && emptied == before.Keys - connections.Keys
      && refreshTasks == tasks - emptied
    }

    method DropNext(pair: (User, Socket), emptied: set<User>, ghost before: Connections,
                    ghost tasks: map<User, R.Refresh>, ghost pairs: set<(User, Socket)>,
                    ghost todo: set<(User, Socket)>)
      returns (emptied': set<User>)
      requires Valid() && todo <= pairs && pair in todo && Cleaned(before, tasks, pairs, todo, emptied)
      modifies `connections, `refreshTasks
      ensures Valid() && Cleaned(before, tasks, pairs, todo - {pair}, emptied')
    {
      var (u, ws) := pair;
      OneMoreGone(before, pairs, todo, u, ws);
      var lost := DropSocket(u, ws);
      TwoRemovals(tasks, emptied, lost);
      emptied' := emptied + lost;
    }

    // Drops the pairs one by one, in any order, and reports the users left without sockets.
    method CleanupDisconnected(disconnected: set<(User, Socket)>) returns (emptied: set<User>)
      requires Valid()
      modifies `connections, `refreshTasks
      ensures Valid() && connections == Without(old(connections), disconnected)
      ensures emptied == old(connections).Keys - connections.Keys
      ensures refreshTasks == old(refreshTasks) - emptied
    {
      ghost var before, tasks := connections, refreshTasks;
      emptied := {};
      var todo := disconnected;
      NothingGone(before, disconnected);
      while todo != {}
        invariant Valid() && todo <= disconnected && Cleaned(before, tasks, disconnected, todo, emptied)
        decreases |todo|
      {
        var pair :| pair in todo;
        emptied := DropNext(pair, emptied, before, tasks, disconnected, todo);
        todo := todo - {pair};
      }
      assert disconnected - {} == disconnected;
    }

    // Sends to each socket of a snapshot and collects those that fail.
    method SendEach(u: User, sockets: set<Socket>, healthy: set<Socket>) returns (count: nat, failed: set<Socket>)
      modifies `sent
      ensures failed == sockets - healthy && count == |sockets * healthy|
      ensures sent == old(sent) + multiset(Addressed(u, sockets * healthy))
    {
      count, failed := 0, {};
      var todo := sockets;
      ghost var done: set<Socket> := {};
      while todo != {}
        invariant todo <= sockets
        invariant forall ws :: ws in done <==> ws in sockets && ws !in todo && ws in healthy
        invariant forall ws :: ws in failed <==> ws in sockets && ws !in todo && ws !in healthy
        invariant count == |done| && sent == old(sent) + multiset(Addressed(u, done))
        decreases |todo|
      {
        var ws :| ws in todo;
        if ws in healthy {
          OneMoreAddressed(u, done, ws);
          done := done + {ws};
          sent := sent + multiset{(u, ws)};
          count := count + 1;
        } else {
          failed := failed + {ws};
        }
        todo := todo - {ws};
      }
      assert done == sockets * healthy;
    }

    // Sends to every local socket of the user and forgets those that fail.
    method SendToUserLocal(u: User, m: Message, healthy: set<Socket>) returns (count: nat, emptied: set<User>)
      requires Valid()
      modifies this
      ensures Valid()
      // Only an empty message and one of more than 256 KiB go nowhere.
      ensures !m.truthy || m.textBytes > 262144 ==>
                count == 0 && emptied == {} && connections == old(connections) && sent == old(sent)
      ensures m.truthy && m.textBytes <= 262144 ==>
                && count == |Bucket(old(connections), u) * healthy|
                && sent == old(sent) + multiset(Received(old(connections), u, healthy))
                && connections == Without(old(connections), Broken(old(connections), u, healthy))
                && emptied == old(connections).Keys - connections.Keys
    {
      count, emptied := 0, {};
      if !m.truthy || m.textBytes > MESSAGE_MAX_BYTES { return; }
      var failed;
      count, failed := SendEach(u, Bucket(connections, u), healthy);
      if failed == {} {
        NothingGone(connections, {});
        assert Addressed(u, {}) == {};
        assert Bucket(connections, u) - healthy == {};
        return;
      }
      emptied := CleanupDisconnected(Addressed(u, failed));
    }
  }
}
