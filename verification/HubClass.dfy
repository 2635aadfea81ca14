/**
 The hub object itself: its fields, and for each of its operations the code between two
 awaits, proved to be one step of the protocol in module PubSubHub.
 */
module HubClass {
  import opened Basics
  import opened P = PubSubHub

  lemma Untouched(r: Registry, token: Token)
    requires forall c :: c in r ==> r[c] != map[]
    ensures forall c :: c in r && token !in r[c] ==>
              c in RemoveToken(r, token) && RemoveToken(r, token)[c] == r[c]
  {
    forall c | c in r && token !in r[c]
      ensures c in RemoveToken(r, token) && RemoveToken(r, token)[c] == r[c]
    {
      assert r[c].Keys - {token} == r[c].Keys && r[c].Keys != {};
      assert r[c] - {token} == r[c];
    }
  }

  lemma NotRegistered(r: Registry, token: Token)
    requires forall c :: c in r ==> r[c] != map[] && token !in r[c]
    ensures RemoveToken(r, token) == r
  {
    Untouched(r, token);
    assert RemoveToken(r, token).Keys == r.Keys;
  }

  lemma RemovedFrom(r: Registry, ch: Channel, token: Token)
    requires TokensDisjoint(r) && ch in r && token in r[ch]
    requires forall c :: c in r ==> r[c] != map[]
    ensures RemoveToken(r, token) == if r[ch].Keys - {token} == {} then r - {ch} else r[ch := r[ch] - {token}]
  {
    Untouched(r, token);
    var after := if r[ch].Keys - {token} == {} then r - {ch} else r[ch := r[ch] - {token}];
    assert forall c :: c in r && c != ch ==> token !in r[c];
    assert RemoveToken(r, token).Keys == after.Keys;
  }

  // An action that changes no registration keeps the invariant, and coverage if it holds.
  lemma StepKeeps(s: HubState, a: Action)
    requires Inv(s) && Enabled(s, a) && !a.Subscribe? && !a.Unsubscribe?
    ensures Inv(Next(s, a)) && (Covered(s) ==> Covered(Next(s, a)))
  {
    StepInv(s, a);
    if Covered(s) { CoverageIffNoHazard(s, a); }
  }

  class RedisPubSubHub {
    var subscriptions: Registry
    var nextToken: Token
    var running: bool
    var pubsub: Option<Conn>
    var nextConn: Conn
    var expectedDisconnects: set<Conn>
    ghost var closed: set<Conn>
    ghost var phase: Phase
    var delay: nat
    var resubscribeTask: Option<Poke>
    var nextPoke: nat
    var semaphore: nat
    const maxHandlerTasks: nat
    var handlerTasks: set<nat>
    var nextTask: nat
    const maxMessageBytes: nat
    ghost var nextMessage: nat
    ghost var dispatched: map<nat, seq<Token>>
    ghost var started: seq<(nat, Token)>

    ghost function State(): HubState
      reads this
    {
      HubState(subscriptions, nextToken, running, pubsub, nextConn, expectedDisconnects, closed, phase,
               delay, resubscribeTask, nextPoke, semaphore, maxHandlerTasks, handlerTasks, nextTask,
               maxMessageBytes, nextMessage, dispatched, started)
    }

    ghost predicate Valid()
      reads this
    {
      Inv(State())
    }

    // __init__ followed by start: the limits are raised to at least one.
    constructor (limit: int, maxBytes: int)
      ensures Valid() && Init(State()) && Covered(State())
      ensures maxHandlerTasks == Max(1, limit) && maxMessageBytes == Max(1, maxBytes)
      ensures subscriptions == map[]
    {
      subscriptions, nextToken := map[], 0;
      running, pubsub, nextConn := true, None, 0;
      expectedDisconnects, closed := {}, {};
      phase, delay := Starting, 1;
      resubscribeTask, nextPoke := None, 0;
      semaphore, maxHandlerTasks := Max(1, limit), Max(1, limit);
      handlerTasks, nextTask := {}, 0;
      maxMessageBytes := Max(1, maxBytes);
      nextMessage, dispatched, started := 0, map[], [];
    }

    method ScheduleResubscribe(inLoop: bool)
      requires running
      modifies `resubscribeTask, `nextPoke
      ensures State() == Schedule(old(State()), inLoop)
    {
      if !inLoop { return; }
      if resubscribeTask.Some? && resubscribeTask.value.stage != Finished { return; }
      resubscribeTask := Some(Poke(nextPoke, Scheduled));
      nextPoke := nextPoke + 1;
    }

    method Subscribe(channel: Channel, handler: Handler, inLoop: bool) returns (token: Token)
      requires Valid()
      modifies this
      ensures token == old(nextToken)
      ensures State() == DoSubscribe(old(State()), channel, handler, inLoop)
      ensures Valid()
      ensures old(Covered(State())) ==> (Covered(State()) <==> !old(Hazard(State(), P.Subscribe(channel, handler, inLoop))))
    {
      StepInv(State(), P.Subscribe(channel, handler, inLoop));
      if Covered(State()) { CoverageIffNoHazard(State(), P.Subscribe(channel, handler, inLoop)); }
      token := AddHandler(channel, handler);
      if running { ScheduleResubscribe(inLoop); }
    }

    // _subscriptions is a defaultdict: a new channel starts with no handlers.
    method AddHandler(channel: Channel, handler: Handler) returns (token: Token)
      modifies `subscriptions, `nextToken
      ensures token == old(nextToken) && nextToken == token + 1
      ensures subscriptions == Register(old(subscriptions), channel, token, handler)
    {
      token := nextToken;
      nextToken := nextToken + 1;
      if channel !in subscriptions {
        subscriptions := subscriptions[channel := map[]];
      }
      var handlers: map<Token, Handler> := subscriptions[channel];
      handlers := handlers[token := handler];
      subscriptions := subscriptions[channel := handlers];
    }

    method Unsubscribe(token: Token, inLoop: bool)
      requires Valid()
      modifies this
      ensures State() == DoUnsubscribe(old(State()), token, inLoop)
      ensures Valid()
      ensures old(Covered(State())) ==> (Covered(State()) <==> !old(Hazard(State(), P.Unsubscribe(token, inLoop))))
    {
      StepInv(State(), P.Unsubscribe(token, inLoop));
      if Covered(State()) { CoverageIffNoHazard(State(), P.Unsubscribe(token, inLoop)); }
      RemoveHandler(token);
      if running { ScheduleResubscribe(inLoop); }
    }

    // The first channel that holds the token loses it, and goes when that empties it.
    method RemoveHandler(token: Token)
      requires TokensDisjoint(subscriptions)
      requires forall ch :: ch in subscriptions ==> subscriptions[ch] != map[]
      modifies `subscriptions
      ensures subscriptions == RemoveToken(old(subscriptions), token)
    {
      ghost var before := subscriptions;
      var todo := subscriptions.Keys;
      while todo != {}
        invariant todo <= before.Keys && subscriptions == before
        invariant forall ch :: ch in before.Keys - todo ==> token !in before[ch]
        decreases |todo|
      {
        var channel :| channel in todo;
        if token in subscriptions[channel] {
          var handlers := subscriptions[channel] - {token};
          if handlers.Keys == {} {
            subscriptions := subscriptions - {channel};
          } else {
            subscriptions := subscriptions[channel := handlers];
          }
          RemovedFrom(before, channel, token);
          return;
        }
        todo := todo - {channel};
      }
      NotRegistered(before, token);
    }

    // subscription_count
    method CountSubscriptions() returns (count: nat)
      requires Valid()
      ensures count == |LiveTokens(subscriptions)|
    {
      count := SubscriptionCount(subscriptions);
    }

    // ---------------------------------------------------------------- the listener

    // `created` tells whether making the client and its pub/sub object succeeds.
    method ListenerIterate(created: bool)
      requires Valid() && (phase.Starting? || phase.Idle? || phase.Releasing?)
      modifies `pubsub, `phase, `nextConn
      ensures State() == DoIterate(old(State()), created)
      ensures Valid() && (old(Covered(State())) ==> Covered(State()))
    {
      StepKeeps(State(), Iterate(created));
      if !running {
        phase := Stopped;
      } else if subscriptions.Keys == {} {
        phase := Idle;
      } else if !created {
        phase := Retrying;
      } else {
        TakeSnapshot();
      }
    }

    // The channels of now, on a new connection.
    method TakeSnapshot()
      modifies `pubsub, `phase, `nextConn
      ensures pubsub == Some(old(nextConn)) && nextConn == old(nextConn) + 1
      ensures phase == Subscribing(old(nextConn), subscriptions.Keys)
    {
      var channels := subscriptions.Keys;
      pubsub := Some(nextConn);
      phase := Subscribing(nextConn, channels);
      nextConn := nextConn + 1;
    }

    // pubsub.subscribe returned.
    method ListenerSubscribed()
      requires Valid() && phase.Subscribing? && phase.conn !in closed
      modifies `phase, `delay
      ensures State() == Next(old(State()), SubscribeDone)
      ensures Valid() && (old(Covered(State())) ==> Covered(State()))
    {
      StepKeeps(State(), SubscribeDone);
      delay := 1;
      phase := Listening(phase.conn, phase.snapshot);
    }

    // pubsub.listen came to its end.
    method ListenerEnd(conn: Conn)
      requires Valid() && phase.Listening? && conn == phase.conn
      modifies `phase, `expectedDisconnects
      ensures State() == Next(old(State()), ListenEnd)
      ensures Valid() && (old(Covered(State())) ==> Covered(State()))
    {
      StepKeeps(State(), ListenEnd);
      expectedDisconnects := expectedDisconnects + {conn};
      phase := Detaching(conn);
    }

    // The first step of stop.
    method StopRunning()
      requires Valid()
      modifies `running
      ensures State() == Next(old(State()), Stop)
      ensures Valid() && Covered(State())
    {
      StepKeeps(State(), Stop);
      running := false;
    }

    method ListenerError(conn: Conn, closedByServer: bool)
      requires Valid()
      requires (phase.Listening? || phase.Subscribing?) && conn == phase.conn
      modifies this
      ensures State() == DoListenError(old(State()), conn, closedByServer)
      ensures Valid() && (old(Covered(State())) ==> Covered(State()))
    {
      StepKeeps(State(), ListenError(closedByServer));
      if running && !(conn in expectedDisconnects && closedByServer) {
        phase := Backoff(conn);
        return;
      }
      if running { delay := 1; }
      phase := Detaching(conn);
      expectedDisconnects := expectedDisconnects + {conn};
    }

    method ListenerBackoffDone(conn: Conn)
      requires Valid()
      requires phase == Backoff(conn)
      modifies this
      ensures State() == DoBackoffDone(old(State()), conn)
      ensures Valid() && (old(Covered(State())) ==> Covered(State()))
    {
      StepKeeps(State(), BackoffDone);
      delay := if delay * 2 < MAX_RECONNECT_DELAY then delay * 2 else MAX_RECONNECT_DELAY;
      phase := Detaching(conn);
      expectedDisconnects := expectedDisconnects + {conn};
    }

    method ListenerRetryDone()
      requires Valid()
      requires phase == Retrying
      modifies `delay, `phase
      ensures State() == DoRetryDone(old(State()))
      ensures Valid() && (old(Covered(State())) ==> Covered(State()))
    {
      StepKeeps(State(), RetryDone);
      delay := if delay * 2 < MAX_RECONNECT_DELAY then delay * 2 else MAX_RECONNECT_DELAY;
      phase := Releasing;
    }

    method DetachPubsub(conn: Conn)
      requires Valid()
      requires phase == Detaching(conn)
      modifies this
      ensures State() == DoDetachDone(old(State()), conn)
      ensures Valid() && (old(Covered(State())) ==> Covered(State()))
    {
      StepKeeps(State(), DetachDone);
      closed := closed + {conn};
      expectedDisconnects := expectedDisconnects - {conn};
      if pubsub == Some(conn) { pubsub := None; }
      phase := Releasing;
    }

    // ---------------------------------------------------------------- dispatch

    method DispatchMessage(conn: Conn, channel: Channel, size: nat, live: seq<Token>)
      requires Valid() && phase.Listening? && conn == phase.conn && conn !in closed
      requires Enumerates(live, TokensOf(subscriptions, channel))
      modifies `phase, `expectedDisconnects, `dispatched, `nextMessage
      ensures State() == DoMessage(old(State()), size, live)
      ensures running && size > maxMessageBytes ==> State() == old(State())
      ensures running && size <= maxMessageBytes && live != [] ==> phase.Dispatching? && phase.todo == live
      ensures Valid() && (old(Covered(State())) ==> Covered(State()))
    {
      StepKeeps(State(), Message(channel, size, live));
      if !running {
        expectedDisconnects := expectedDisconnects + {conn};
        phase := Detaching(conn);
      } else if size <= maxMessageBytes {
        FixHandlers(live);
      }
    }

    // The handlers registered now are the ones to start.
    method FixHandlers(live: seq<Token>)
      requires phase.Listening?
      modifies `phase, `dispatched, `nextMessage
      ensures phase == if live == [] then old(phase)
                       else Dispatching(old(phase).conn, old(phase).snapshot, old(nextMessage), live)
      ensures dispatched == old(dispatched)[old(nextMessage) := live] && nextMessage == old(nextMessage) + 1
    {
      if live != [] {
        phase := Dispatching(phase.conn, phase.snapshot, nextMessage, live);
      }
      dispatched := dispatched[nextMessage := live];
      nextMessage := nextMessage + 1;
    }

    method StartHandlerTask()
      requires Valid() && phase.Dispatching? && phase.todo != [] && semaphore > 0
      modifies this
      ensures State() == DoStartHandler(old(State()))
      ensures Valid() && (old(Covered(State())) ==> Covered(State()))
    {
      StepKeeps(State(), StartHandler);
      TrackHandlerTask();
    }

    // Takes a permit and puts a new task into the set.
    method TrackHandlerTask()
      requires phase.Dispatching? && phase.todo != [] && semaphore > 0
      modifies this
      ensures State() == DoStartHandler(old(State()))
    {
      started := started + [(phase.message, phase.todo[0])];
      phase := AfterStart(phase);
      semaphore := semaphore - 1;
      handlerTasks := handlerTasks + {nextTask};
      nextTask := nextTask + 1;
    }

    method OnHandlerTaskDone(task: nat)
      requires Valid()
      requires task in handlerTasks
      modifies `handlerTasks, `semaphore
      ensures State() == DoHandlerDone(old(State()), task)
      ensures Valid() && (old(Covered(State())) ==> Covered(State()))
    {
      StepKeeps(State(), HandlerDone(task));
      handlerTasks := handlerTasks - {task};
      semaphore := semaphore + 1;
    }

    // ---------------------------------------------------------------- the poke task

    method PokeListener()
      requires Valid()
      requires resubscribeTask.Some? && resubscribeTask.value.stage.Scheduled?
      modifies this
      ensures State() == DoPokeStart(old(State()))
      ensures Valid() && (old(Covered(State())) ==> Covered(State()))
    {
      StepKeeps(State(), PokeStart);
      var captured := pubsub;
      if captured.Some? {
        expectedDisconnects := expectedDisconnects + {captured.value};
        resubscribeTask := Some(resubscribeTask.value.(stage := Closing(captured.value)));
      } else {
        resubscribeTask := Some(resubscribeTask.value.(stage := Finished));
      }
    }

    method PokeClosed()
      requires Valid()
      requires resubscribeTask.Some? && resubscribeTask.value.stage.Closing?
      modifies this
      ensures State() == DoPokeFinish(old(State()))
      ensures Valid() && (old(Covered(State())) ==> Covered(State()))
    {
      StepKeeps(State(), PokeFinish);
      closed := closed + {resubscribeTask.value.stage.captured};
      resubscribeTask := Some(resubscribeTask.value.(stage := Finished));
    }

    // Only the task still in the slot clears it.
    method OnResubscribeTaskDone(id: nat)
      requires Valid()
      requires Unfinished(resubscribeTask) ==> resubscribeTask.value.id != id
      modifies `resubscribeTask
      ensures State() == DoPokeCallback(old(State()), id)
      ensures Valid() && (old(Covered(State())) ==> Covered(State()))
    {
      StepKeeps(State(), PokeCallback(id));
      if resubscribeTask.Some? && resubscribeTask.value.id == id {
        resubscribeTask := None;
      }
    }
  }
}
