/**
 The process-wide Redis pub/sub hub (src/infra/pubsub_hub.py).

 One listener coroutine holds one pub/sub connection subscribed to a snapshot of
 the registered channels.  `subscribe` and `unsubscribe` change the registry and
 schedule a "poke": a task that closes the connection the hub holds, so that the
 listener comes back with a fresh snapshot.  Every action below is the code between
 two awaits; `phase` is where the listener coroutine is suspended.

 A poke is two actions, because `_poke_listener` awaits inside `_close_pubsub`: it
 first captures `_pubsub`, and its close takes effect later.
 */
module PubSubHub {
  import opened Basics

  type Channel = string
  type Token = nat
  type Handler = nat
  type Conn = nat

  const MAX_RECONNECT_DELAY: nat := 30

  datatype Phase =
    | Starting                                           // task created, not run yet
    | Idle                                               // sleeping, registry was empty
    | Subscribing(conn: Conn, snapshot: set<Channel>)    // awaiting pubsub.subscribe
    | Listening(conn: Conn, snapshot: set<Channel>)      // awaiting the next message
    | Dispatching(conn: Conn, snapshot: set<Channel>, message: nat, todo: seq<Token>)
    | Backoff(conn: Conn)                                // sleeping after an unexpected error
    | Retrying                                           // the same, without a connection
    | Detaching(conn: Conn)                              // awaiting close in _detach_pubsub
    | Releasing                                          // awaiting the client's aclose
    | Stopped
  {
    function Connection(): Option<Conn> {
      match this
      case Subscribing(c, _) => Some(c)
      case Listening(c, _) => Some(c)
      case Dispatching(c, _, _, _) => Some(c)
      case Backoff(c) => Some(c)
      case Detaching(c) => Some(c)
      case _ => None
    }

    // The listener holds a connection and will not take a new snapshot by itself.
    predicate Holds() { Subscribing? || Listening? || Dispatching? }
  }

  datatype PokeStage = Scheduled | Closing(captured: Conn) | Finished

  datatype Poke = Poke(id: nat, stage: PokeStage)

  type Registry = map<Channel, map<Token, Handler>>

  datatype HubState = HubState(
    subscriptions: Registry,
    nextToken: Token,
    running: bool,
    pubsub: Option<Conn>,
    nextConn: Conn,
    expected: set<Conn>,            // _expected_disconnects
    closed: set<Conn>,              // connections whose close has taken effect
    phase: Phase,
    delay: nat,
    resubscribe: Option<Poke>,      // _resubscribe_task
    nextPoke: nat,
    free: nat,                      // value of _handler_semaphore
    bound: nat,                     // its initial value
    tasks: set<nat>,                // _handler_tasks
    nextTask: nat,
    maxBytes: nat,
    nextMessage: nat,
    dispatched: map<nat, seq<Token>>,   // history: handlers live when a message was dispatched
    started: seq<(nat, Token)>          // history: handler tasks created, as (message, handler)
  )

  datatype Action =
    | Subscribe(channel: Channel, handler: Handler, inLoop: bool)
    | Unsubscribe(token: Token, inLoop: bool)
    | Stop
    | PokeStart
    | PokeFinish
    | PokeCallback(id: nat)
    | Iterate(created: bool)                       // the listener reaches its while test; whether a client is made
    | SubscribeDone
    | ListenEnd
    | ListenError(closedByServer: bool)
    | BackoffDone
    | RetryDone
    | DetachDone
    | ConnectionLost                               // the connection dies on its own
    | Message(channel: Channel, size: nat, live: seq<Token>)
    | StartHandler
    | HandlerDone(task: nat)

  // ---------------------------------------------------------------- transitions

  function Register(r: Registry, ch: Channel, t: Token, h: Handler): Registry {
    var handlers: map<Token, Handler> := if ch in r then r[ch] else map[];
    r[ch := handlers[t := h]]
  }

  function RemoveToken(r: Registry, t: Token): Registry {
    map ch | ch in r && r[ch].Keys - {t} != {} :: r[ch] - {t}
  }

  function Unfinished(p: Option<Poke>): bool { p.Some? && p.value.stage != Finished }

  // _schedule_resubscribe: without a running loop nothing happens; an unfinished
  // task absorbs the request.
  function Schedule(s: HubState, inLoop: bool): HubState {
    if !s.running || !inLoop || Unfinished(s.resubscribe) then s
    else s.(resubscribe := Some(Poke(s.nextPoke, Scheduled)), nextPoke := s.nextPoke + 1)
  }

  predicate Enumerates(live: seq<Token>, tokens: set<Token>) {
    && (forall i, j :: 0 <= i < j < |live| ==> live[i] != live[j])
    && (forall t :: t in live ==> t in tokens)
    && (forall t :: t in tokens ==> t in live)
  }

  function TokensOf(r: Registry, ch: Channel): set<Token> {
    if ch in r then r[ch].Keys else {}
  }

  predicate Enabled(s: HubState, a: Action) {
    match a
    case Subscribe(_, _, _) => true
    case Unsubscribe(_, _) => true
    case Stop => true
    case PokeStart => s.resubscribe.Some? && s.resubscribe.value.stage.Scheduled?
    case PokeFinish => s.resubscribe.Some? && s.resubscribe.value.stage.Closing?
    case PokeCallback(_) => true
    case Iterate(_) => s.phase.Starting? || s.phase.Idle? || s.phase.Releasing?
    case SubscribeDone => s.phase.Subscribing? && s.phase.conn !in s.closed
    case ListenEnd => s.phase.Listening?
    case ListenError(_) => s.phase.Listening? || s.phase.Subscribing?
    case BackoffDone => s.phase.Backoff?
    case RetryDone => s.phase.Retrying?
    case DetachDone => s.phase.Detaching?
    case ConnectionLost => s.phase.Holds()
    case Message(ch, _, live) =>
      && s.phase.Listening?
      && s.phase.conn !in s.closed
      && Enumerates(live, TokensOf(s.subscriptions, ch))
    case StartHandler => s.phase.Dispatching? && s.phase.todo != [] && s.free > 0
    case HandlerDone(t) => t in s.tasks
  }

  function Detach(s: HubState, c: Conn): HubState {
    s.(phase := Detaching(c), expected := s.expected + {c})
  }

  function DoSubscribe(s: HubState, ch: Channel, h: Handler, inLoop: bool): HubState {
    Schedule(s.(subscriptions := Register(s.subscriptions, ch, s.nextToken, h), nextToken := s.nextToken + 1), inLoop)
  }

  function DoUnsubscribe(s: HubState, t: Token, inLoop: bool): HubState {
    Schedule(s.(subscriptions := RemoveToken(s.subscriptions, t)), inLoop)
  }

  // _poke_listener up to its await: the connection it is going to close.
  function DoPokeStart(s: HubState): HubState
    requires s.resubscribe.Some?
  {
    if s.pubsub.None? then s.(resubscribe := Some(Poke(s.resubscribe.value.id, Finished)))
    else s.(resubscribe := Some(Poke(s.resubscribe.value.id, Closing(s.pubsub.value))),
            expected := s.expected + {s.pubsub.value})
  }

  function DoPokeFinish(s: HubState): HubState
    requires s.resubscribe.Some? && s.resubscribe.value.stage.Closing?
  {
    s.(closed := s.closed + {s.resubscribe.value.stage.captured},
       resubscribe := Some(Poke(s.resubscribe.value.id, Finished)))
  }

  function DoPokeCallback(s: HubState, id: nat): HubState {
    if s.resubscribe == Some(Poke(id, Finished)) then s.(resubscribe := None) else s
  }

  function DoIterate(s: HubState, created: bool): HubState {
    if !s.running then s.(phase := Stopped)
    else if s.subscriptions.Keys == {} then s.(phase := Idle)
    else if !created then s.(phase := Retrying)
    else s.(phase := Subscribing(s.nextConn, s.subscriptions.Keys), pubsub := Some(s.nextConn), nextConn := s.nextConn + 1)
  }

  function DoListenError(s: HubState, c: Conn, closedByServer: bool): HubState {
    if !s.running then Detach(s, c)
    else if c in s.expected && closedByServer then Detach(s.(delay := 1), c)
    else s.(phase := Backoff(c))
  }

  function DoBackoffDone(s: HubState, c: Conn): HubState {
    Detach(s.(delay := Min(2 * s.delay, MAX_RECONNECT_DELAY)), c)
  }

  function DoRetryDone(s: HubState): HubState {
    s.(delay := Min(2 * s.delay, MAX_RECONNECT_DELAY), phase := Releasing)
  }

  function DoDetachDone(s: HubState, c: Conn): HubState {
    s.(phase := Releasing, closed := s.closed + {c}, expected := s.expected - {c},
       pubsub := if s.pubsub == Some(c) then None else s.pubsub)
  }

  function DoMessage(s: HubState, size: nat, live: seq<Token>): HubState
    requires s.phase.Listening?
  {
    if !s.running then Detach(s, s.phase.conn)
    else if size > s.maxBytes then s
    else s.(phase := if live == [] then s.phase else Dispatching(s.phase.conn, s.phase.snapshot, s.nextMessage, live),
            dispatched := s.dispatched[s.nextMessage := live],
            nextMessage := s.nextMessage + 1)
  }

  function DoStartHandler(s: HubState): HubState
    requires s.phase.Dispatching? && s.phase.todo != [] && s.free > 0
  {
    s.(phase := AfterStart(s.phase),
       free := s.free - 1,
       tasks := s.tasks + {s.nextTask},
       nextTask := s.nextTask + 1,
       started := s.started + [(s.phase.message, s.phase.todo[0])])
  }

  function AfterStart(p: Phase): Phase
    requires p.Dispatching? && p.todo != []
  {
    if |p.todo| == 1 then Listening(p.conn, p.snapshot)
    else Dispatching(p.conn, p.snapshot, p.message, p.todo[1..])
  }

  function DoHandlerDone(s: HubState, t: nat): HubState { s.(tasks := s.tasks - {t}, free := s.free + 1) }

  function Next(s: HubState, a: Action): HubState
    requires Enabled(s, a)
  {
    match a
    case Subscribe(ch, h, inLoop) => DoSubscribe(s, ch, h, inLoop)
    case Unsubscribe(t, inLoop) => DoUnsubscribe(s, t, inLoop)
    case Stop => s.(running := false)
    case PokeStart => DoPokeStart(s)
    case PokeFinish => DoPokeFinish(s)
    case PokeCallback(id) => DoPokeCallback(s, id)
    case Iterate(created) => DoIterate(s, created)
    case SubscribeDone => s.(phase := Listening(s.phase.conn, s.phase.snapshot), delay := 1)
    case ListenEnd => Detach(s, s.phase.conn)
    case ListenError(closedByServer) => DoListenError(s, s.phase.conn, closedByServer)
    case BackoffDone => DoBackoffDone(s, s.phase.conn)
    case RetryDone => DoRetryDone(s)
    case DetachDone => DoDetachDone(s, s.phase.conn)
    case ConnectionLost => s.(closed := s.closed + {s.phase.conn})
    case Message(ch, size, live) => DoMessage(s, size, live)
    case StartHandler => DoStartHandler(s)
    case HandlerDone(t) => DoHandlerDone(s, t)
  }

  // The hub right after `start` created the listener task.
  ghost predicate Init(s: HubState) {
    && RegistryInv(s)
    && s.running && s.pubsub == None && s.phase == Starting && s.resubscribe == None
    && s.expected == {} && s.closed == {} && s.delay == 1
    && s.bound >= 1 && s.free == s.bound && s.tasks == {}
    && s.dispatched == map[] && s.started == []
  }

  // ---------------------------------------------------------------- invariant

  ghost predicate RegistryInv(s: HubState) {
    && (forall ch :: ch in s.subscriptions ==> s.subscriptions[ch] != map[])
    && (forall ch, t :: ch in s.subscriptions && t in s.subscriptions[ch] ==> t < s.nextToken)
    && (forall c1, c2, t ::
          (c1 in s.subscriptions && c2 in s.subscriptions
           && t in s.subscriptions[c1] && t in s.subscriptions[c2]) ==> c1 == c2)
  }

  ghost predicate ConnectionInv(s: HubState) {
    && s.pubsub == s.phase.Connection()
    && (s.pubsub.Some? ==> s.pubsub.value < s.nextConn)
    && (forall c :: c in s.closed ==> c < s.nextConn)
    && (s.resubscribe.Some? && s.resubscribe.value.stage.Closing? ==>
          s.resubscribe.value.stage.captured < s.nextConn)
    && (forall c :: c in s.expected ==> s.pubsub == Some(c))
    && (s.running ==> s.phase != Stopped) && (s.phase.Holds() ==> s.phase.snapshot != {})
    && 1 <= s.delay <= MAX_RECONNECT_DELAY
  }

  // Free permits plus tracked handler tasks equals the bound.
  ghost predicate PermitInv(s: HubState) {
    && s.bound >= 1
    && s.free + |s.tasks| == s.bound
    && (forall t :: t in s.tasks ==> t < s.nextTask)
  }

  // The handlers started for message m, in order.
  function StartedFor(log: seq<(nat, Token)>, m: nat): seq<Token> {
    if log == [] then []
    else StartedFor(log[..|log| - 1], m) + (if log[|log| - 1].0 == m then [log[|log| - 1].1] else [])
  }

  function Pending(p: Phase, m: nat): seq<Token> {
    if p.Dispatching? && p.message == m then p.todo else []
  }

  // What was started for a message, followed by what is still to be started, is exactly
  // the list of handlers registered when the message was dispatched.
  ghost predicate DispatchInv(s: HubState) {
    && (forall m :: m in s.dispatched ==> m < s.nextMessage)
    && (s.phase.Dispatching? ==> s.phase.todo != [] && s.phase.message in s.dispatched)
    && (forall i :: 0 <= i < |s.started| ==> s.started[i].0 in s.dispatched)
    && (forall m :: m in s.dispatched ==>
          StartedFor(s.started, m) + Pending(s.phase, m) == s.dispatched[m])
  }

  ghost predicate Inv(s: HubState) {
    RegistryInv(s) && ConnectionInv(s) && PermitInv(s) && DispatchInv(s)
  }

  lemma InitInv(s: HubState)
    requires Init(s)
    ensures Inv(s) && Covered(s)
  {}

  lemma {:induction false} StartedForAbsent(log: seq<(nat, Token)>, m: nat)
    requires forall i :: 0 <= i < |log| ==> log[i].0 != m
    ensures StartedFor(log, m) == []
  {
    if log != [] { StartedForAbsent(log[..|log| - 1], m); }
  }

  lemma StepRegistry(s: HubState, a: Action)
    requires RegistryInv(s) && Enabled(s, a)
    ensures RegistryInv(Next(s, a))
  {
    if a.Subscribe? { SubscribeRegistry(s, a); }
    else if a.Unsubscribe? { UnsubscribeRegistry(s, a); }
    else { RegistryUntouched(s, a); }
  }

  lemma SubscribeRegistry(s: HubState, a: Action)
    requires RegistryInv(s) && a.Subscribe?
    ensures RegistryInv(Next(s, a))
  {
    assert s.nextToken in Register(s.subscriptions, a.channel, s.nextToken, a.handler)[a.channel];
  }

  lemma UnsubscribeRegistry(s: HubState, a: Action)
    requires RegistryInv(s) && a.Unsubscribe?
    ensures RegistryInv(Next(s, a))
  {
    var r := RemoveToken(s.subscriptions, a.token);
    forall ch | ch in r ensures r[ch] != map[] {
      assert r[ch].Keys == s.subscriptions[ch].Keys - {a.token};
    }
  }

  lemma RegistryUntouched(s: HubState, a: Action)
    requires Enabled(s, a) && !a.Subscribe? && !a.Unsubscribe?
    ensures Next(s, a).subscriptions == s.subscriptions && Next(s, a).nextToken == s.nextToken
  {}

  lemma StepConnection(s: HubState, a: Action)
    requires ConnectionInv(s) && Enabled(s, a)
    ensures ConnectionInv(Next(s, a))
  {}

  lemma StepPermits(s: HubState, a: Action)
    requires PermitInv(s) && Enabled(s, a)
    ensures PermitInv(Next(s, a))
  {
    if a.StartHandler? {
      assert s.nextTask !in s.tasks;
      assert |s.tasks + {s.nextTask}| == |s.tasks| + 1;
    } else if a.HandlerDone? {
      assert |s.tasks - {a.task}| == |s.tasks| - 1;
    } else {
      PermitsUntouched(s, a);
    }
  }

  lemma PermitsUntouched(s: HubState, a: Action)
    requires Enabled(s, a) && !a.StartHandler? && !a.HandlerDone?
    ensures var s' := Next(s, a);
            s'.free == s.free && s'.tasks == s.tasks && s'.nextTask == s.nextTask && s'.bound == s.bound
  {}

  lemma StepDispatch(s: HubState, a: Action)
    requires DispatchInv(s) && Enabled(s, a)
    ensures DispatchInv(Next(s, a))
  {
    if a.Message? { MessageDispatch(s, a); }
    else if a.StartHandler? { StartDispatch(s); }
    else { DispatchUntouched(s, a); }
  }

  lemma MessageDispatch(s: HubState, a: Action)
    requires DispatchInv(s) && Enabled(s, a) && a.Message?
    ensures DispatchInv(Next(s, a))
  {
    if s.running && a.size <= s.maxBytes {
      StartedForAbsent(s.started, s.nextMessage);
    }
  }

  lemma StartDispatch(s: HubState)
    requires DispatchInv(s) && Enabled(s, StartHandler)
    ensures DispatchInv(DoStartHandler(s))
  {
    var p, started' := s.phase, s.started + [(s.phase.message, s.phase.todo[0])];
    assert started'[..|started'| - 1] == s.started;
    forall m | m in s.dispatched
      ensures StartedFor(started', m) + Pending(AfterStart(p), m) == s.dispatched[m]
    {
      PendingAfterStart(p, m);
      assert StartedFor(started', m) == StartedFor(s.started, m) + (if p.message == m then [p.todo[0]] else []);
    }
  }

  lemma PendingAfterStart(p: Phase, m: nat)
    requires p.Dispatching? && p.todo != []
    ensures (if p.message == m then [p.todo[0]] else []) + Pending(AfterStart(p), m) == Pending(p, m)
  {
    assert [p.todo[0]] + p.todo[1..] == p.todo;
    if |p.todo| == 1 { assert p.todo[1..] == []; }
  }

  lemma DispatchUntouched(s: HubState, a: Action)
    requires Enabled(s, a) && !a.Message? && !a.StartHandler?
    ensures var s' := Next(s, a);
            && s'.dispatched == s.dispatched && s'.started == s.started && s'.nextMessage == s.nextMessage
            && (if s.phase.Dispatching? then s'.phase == s.phase else !s'.phase.Dispatching?)
  {}

  lemma StepInv(s: HubState, a: Action)
    requires Inv(s) && Enabled(s, a)
    ensures Inv(Next(s, a))
  {
    StepRegistry(s, a); StepConnection(s, a); StepPermits(s, a); StepDispatch(s, a);
  }

  // ---------------------------------------------------------------- no lost subscription

  // An unfinished poke is going to close connection c.
  predicate PokeWillClose(s: HubState, c: Conn) {
    s.resubscribe.Some?
    && (s.resubscribe.value.stage.Scheduled? || s.resubscribe.value.stage == Closing(c))
  }

  // Either the live connection listens to exactly the registered channels, or the
  // connection is dead or about to be closed, or a new snapshot is yet to be taken.
  predicate Covered(s: HubState) {
    s.running && s.phase.Holds() ==>
      || s.phase.snapshot == s.subscriptions.Keys
      || s.phase.conn in s.closed
      || PokeWillClose(s, s.phase.conn)
  }

  // No request for a new snapshot made now would have an effect on the live connection:
  // either there is no running loop to schedule on, or the guard in
  // _schedule_resubscribe merges the request into a poke that captured an older one.
  predicate PokeIneffective(s: HubState, inLoop: bool) {
    && s.running && s.phase.Holds()
    && s.phase.conn !in s.closed
    && !PokeWillClose(s, s.phase.conn)
    && (!inLoop || Unfinished(s.resubscribe))
  }

  // The guard a caller of subscribe/unsubscribe could check.
  predicate Hazard(s: HubState, a: Action) {
    match a
    case Subscribe(ch, _, inLoop) => PokeIneffective(s, inLoop) && ch !in s.subscriptions
    case Unsubscribe(t, inLoop) =>
      PokeIneffective(s, inLoop) && exists ch :: ch in s.subscriptions && s.subscriptions[ch].Keys == {t}
    case _ => false
  }

  // Coverage survives a step exactly when the step is not a change of the channel set
  // whose poke has no effect.
  lemma CoverageIffNoHazard(s: HubState, a: Action)
    requires Inv(s) && Covered(s) && Enabled(s, a)
    ensures Covered(Next(s, a)) <==> !Hazard(s, a)
  {
    if a.Subscribe? { SubscribeCoverage(s, a); }
    else if a.Unsubscribe? { UnsubscribeCoverage(s, a); }
    else { OtherCoverage(s, a); }
  }

  lemma SubscribeCoverage(s: HubState, a: Action)
    requires Covered(s) && a.Subscribe?
    ensures Covered(Next(s, a)) <==> !Hazard(s, a)
  {
    var keys := Register(s.subscriptions, a.channel, s.nextToken, a.handler).Keys;
    assert keys == s.subscriptions.Keys + {a.channel};
    assert a.channel in keys;
    if a.channel in s.subscriptions { assert keys == s.subscriptions.Keys; }
  }

  lemma UnsubscribeCoverage(s: HubState, a: Action)
    requires RegistryInv(s) && Covered(s) && a.Unsubscribe?
    ensures Covered(Next(s, a)) <==> !Hazard(s, a)
  {
    UnsubscribeKeys(s, a.token);
  }

  lemma OtherCoverage(s: HubState, a: Action)
    requires ConnectionInv(s) && Covered(s) && Enabled(s, a) && !a.Subscribe? && !a.Unsubscribe?
    ensures Covered(Next(s, a))
  {}

  lemma UnsubscribeKeys(s: HubState, t: Token)
    requires RegistryInv(s)
    ensures (exists ch :: ch in s.subscriptions && s.subscriptions[ch].Keys == {t})
            <==> RemoveToken(s.subscriptions, t).Keys != s.subscriptions.Keys
  {
    var r := RemoveToken(s.subscriptions, t);
    if r.Keys != s.subscriptions.Keys {
      assert r.Keys <= s.subscriptions.Keys;
      var ch :| ch in s.subscriptions && ch !in r;
      assert s.subscriptions[ch].Keys == {t} by {
        assert s.subscriptions[ch].Keys - {t} == {};
        assert s.subscriptions[ch].Keys != {};
      }
    }
    if ch :| ch in s.subscriptions && s.subscriptions[ch].Keys == {t} {
      assert s.subscriptions[ch].Keys - {t} == {};
      assert ch !in r.Keys && ch in s.subscriptions.Keys;
    }
  }

  // ---------------------------------------------------------------- runs

  predicate IsRun(s: HubState, actions: seq<Action>)
    decreases |actions|
  {
    actions == [] || (Enabled(s, actions[0]) && IsRun(Next(s, actions[0]), actions[1..]))
  }

  function Final(s: HubState, actions: seq<Action>): HubState
    requires IsRun(s, actions)
    decreases |actions|
  {
    if actions == [] then s else Final(Next(s, actions[0]), actions[1..])
  }

  predicate HazardFree(s: HubState, actions: seq<Action>)
    requires IsRun(s, actions)
    decreases |actions|
  {
    actions == [] || (!Hazard(s, actions[0]) && HazardFree(Next(s, actions[0]), actions[1..]))
  }

  // Every run keeps the invariant, and a run without an ineffective poke never loses a
  // subscription.
  lemma {:induction false} RunsAreSafe(s: HubState, actions: seq<Action>)
    requires Inv(s) && IsRun(s, actions)
    ensures Inv(Final(s, actions))
    ensures Covered(s) && HazardFree(s, actions) ==> Covered(Final(s, actions))
    decreases |actions|
  {
    if actions != [] {
      StepInv(s, actions[0]);
      if Covered(s) { CoverageIffNoHazard(s, actions[0]); }
      RunsAreSafe(Next(s, actions[0]), actions[1..]);
    }
  }

  predicate CoveredThroughout(s: HubState, actions: seq<Action>)
    requires IsRun(s, actions)
    decreases |actions|
  {
    Covered(s) && (actions == [] || CoveredThroughout(Next(s, actions[0]), actions[1..]))
  }

  // A run from a covered state is covered throughout exactly if no step of it is a hazard.
  lemma {:induction false} CoveredThroughoutIff(s: HubState, actions: seq<Action>)
    requires Inv(s) && Covered(s) && IsRun(s, actions)
    ensures CoveredThroughout(s, actions) <==> HazardFree(s, actions)
    decreases |actions|
  {
    if actions != [] {
      StepInv(s, actions[0]);
      CoverageIffNoHazard(s, actions[0]);
      if Covered(Next(s, actions[0])) { CoveredThroughoutIff(Next(s, actions[0]), actions[1..]); }
    }
  }

  // The handler lists of the messages that a hub has to dispatch in a run, read off its
  // actions: those that arrive before a stop and are not oversized.
  function Accepted(run: seq<Action>, running: bool, maxBytes: nat): seq<seq<Token>> {
    if run == [] then []
    else
      var rest := Accepted(run[1..], running && !run[0].Stop?, maxBytes);
      if running && run[0].Message? && run[0].size <= maxBytes then [run[0].live] + rest else rest
  }

  // One entry for each handler of each list, in order; the lists belong to messages m, m + 1, ...
  function Entries(m: nat, lists: seq<seq<Token>>): seq<(nat, Token)>
    decreases |lists|
  {
    if lists == [] then [] else Tagged(m, lists[0]) + Entries(m + 1, lists[1..])
  }

  function Tagged(m: nat, tokens: seq<Token>): seq<(nat, Token)> {
    if tokens == [] then [] else [(m, tokens[0])] + Tagged(m, tokens[1..])
  }

  function ToStart(p: Phase): seq<(nat, Token)> { if p.Dispatching? then Tagged(p.message, p.todo) else [] }

  // What a step starts or leaves to be started is more by what it accepts.
  ghost predicate StartsAccepted(s: HubState, s': HubState, accepted: seq<seq<Token>>) {
    && s'.started + ToStart(s'.phase) == s.started + ToStart(s.phase) + Entries(s.nextMessage, accepted)
    && s'.nextMessage == s.nextMessage + |accepted|
  }

  lemma StepStarts(s: HubState, a: Action)
    requires Enabled(s, a)
    ensures StartsAccepted(s, Next(s, a), Accepted([a], s.running, s.maxBytes))
    ensures Next(s, a).maxBytes == s.maxBytes && Next(s, a).running == (s.running && !a.Stop?)
  {
    assert [a][1..] == [];
    if a.StartHandler? {
      HandlerStarts(s);
    } else if a.Message? {
      MessageStarts(s, a);
    } else {
      OtherStarts(s, a);
    }
  }

  lemma HandlerStarts(s: HubState)
    requires Enabled(s, StartHandler)
    ensures StartsAccepted(s, DoStartHandler(s), [])
  {
    Assoc(s.started, [(s.phase.message, s.phase.todo[0])], Tagged(s.phase.message, s.phase.todo[1..]));
    StartLeaves(s.phase);
    AppendEmpty(s.started + ToStart(s.phase));
  }

  lemma MessageStarts(s: HubState, a: Action)
    requires Enabled(s, a) && a.Message?
    ensures StartsAccepted(s, Next(s, a), if s.running && a.size <= s.maxBytes then [a.live] else [])
  {
    AppendEmpty(s.started);
    AppendEmpty(s.started + Tagged(s.nextMessage, a.live));
    AppendEmpty(Tagged(s.nextMessage, a.live));
    assert [a.live][1..] == [] && Entries(s.nextMessage + 1, []) == [];
  }

  lemma OtherStarts(s: HubState, a: Action)
    requires Enabled(s, a) && !a.Message? && !a.StartHandler?
    ensures StartsAccepted(s, Next(s, a), [])
  {
    DispatchUntouched(s, a);
    AppendEmpty(s.started + ToStart(s.phase));
  }

  lemma StartLeaves(p: Phase)
    requires p.Dispatching? && p.todo != []
    ensures ToStart(AfterStart(p)) == Tagged(p.message, p.todo[1..])
  {
    if |p.todo| == 1 { assert p.todo[1..] == []; }
  }

  lemma {:induction false} EntriesAppend(m: nat, first: seq<seq<Token>>, second: seq<seq<Token>>)
    ensures Entries(m, first + second) == Entries(m, first) + Entries(m + |first|, second)
    decreases |first|
  {
    if first == [] {
      AppendEmpty(second);
      AppendEmpty(Entries(m, second));
    } else {
      TailOfAppend(first, second);
      EntriesAppend(m + 1, first[1..], second);
      Assoc(Tagged(m, first[0]), Entries(m + 1, first[1..]), Entries(m + |first|, second));
    }
  }

  lemma {:induction false} RunStarts(s: HubState, run: seq<Action>)
    requires IsRun(s, run)
    ensures var f := Final(s, run);
            f.started + ToStart(f.phase)
            == s.started + ToStart(s.phase) + Entries(s.nextMessage, Accepted(run, s.running, s.maxBytes))
    decreases |run|
  {
    var before := s.started + ToStart(s.phase);
    if run == [] {
      AppendEmpty(before);
    } else {
      var s' := Next(s, run[0]);
      var now, later := Accepted([run[0]], s.running, s.maxBytes), Accepted(run[1..], s'.running, s.maxBytes);
      StepStarts(s, run[0]);
      RunStarts(s', run[1..]);
      assert [run[0]][1..] == [];
      assert Accepted(run, s.running, s.maxBytes) == now + later;
      EntriesAppend(s.nextMessage, now, later);
      Assoc(before, Entries(s.nextMessage, now), Entries(s'.nextMessage, later));
    }
  }

  // In every run, whatever else happens: the tasks started are, in order, one for each
  // handler that was registered on the channel of an in-size message when it arrived, and
  // none else, up to those the dispatch loop is still to start; and at most `bound` run.
  lemma DispatchedExactlyOnce(s: HubState, run: seq<Action>)
    requires Init(s) && IsRun(s, run)
    ensures var f := Final(s, run);
            && f.started + ToStart(f.phase) == Entries(s.nextMessage, Accepted(run, true, s.maxBytes))
            && |f.tasks| <= s.bound
  {
    InitInv(s);
    RunsAreSafe(s, run);
    BoundIsConstant(s, run);
    RunStarts(s, run);
    AppendEmpty(Entries(s.nextMessage, Accepted(run, true, s.maxBytes)));
  }

  // Between dispatches the record of each message is complete.
  lemma RecordedExactlyOnce(s: HubState, run: seq<Action>, m: nat)
    requires Init(s) && IsRun(s, run)
    requires m in Final(s, run).dispatched && !Final(s, run).phase.Dispatching?
    ensures StartedFor(Final(s, run).started, m) == Final(s, run).dispatched[m]
  {
    InitInv(s);
    RunsAreSafe(s, run);
    var f := Final(s, run);
    assert StartedFor(f.started, m) + [] == f.dispatched[m];
  }

  // An oversized message changes nothing.
  lemma OversizedIsDropped(s: HubState, a: Action)
    requires Enabled(s, a) && a.Message? && s.running && a.size > s.maxBytes
    ensures Next(s, a) == s
  {}

  lemma {:induction false} BoundIsConstant(s: HubState, actions: seq<Action>)
    requires IsRun(s, actions)
    ensures Final(s, actions).bound == s.bound
    decreases |actions|
  {
    if actions != [] { BoundIsConstant(Next(s, actions[0]), actions[1..]); }
  }

  lemma {:induction false} RunAppend(s: HubState, first: seq<Action>, second: seq<Action>)
    requires IsRun(s, first) && IsRun(Final(s, first), second)
    ensures IsRun(s, first + second) && Final(s, first + second) == Final(Final(s, first), second)
    decreases |first|
  {
    if first == [] {
      assert first + second == second;
    } else {
      assert (first + second)[1..] == first[1..] + second;
      RunAppend(Next(s, first[0]), first[1..], second);
    }
  }

  // With every poke's capture and close run back to back and calls made inside the loop,
  // the hazard cannot arise.
  predicate Atomic(s: HubState, actions: seq<Action>)
    decreases |actions|
  {
    actions == [] ||
    (match actions[0]
     case PokeStart => if s.pubsub == None then Atomic(Next'(s, PokeStart), actions[1..])
                       else |actions| > 1 && actions[1] == PokeFinish
                            && Atomic(Next'(Next'(s, PokeStart), PokeFinish), actions[2..])
     case PokeFinish => false
     case Subscribe(_, _, inLoop) => inLoop && Atomic(Next'(s, actions[0]), actions[1..])
     case Unsubscribe(_, inLoop) => inLoop && Atomic(Next'(s, actions[0]), actions[1..])
     case _ => Atomic(Next'(s, actions[0]), actions[1..]))
  }

  function Next'(s: HubState, a: Action): HubState { if Enabled(s, a) then Next(s, a) else s }

  lemma {:induction false} AtomicRunsAreHazardFree(s: HubState, actions: seq<Action>)
    requires IsRun(s, actions) && Atomic(s, actions)
    requires s.resubscribe.Some? ==> !s.resubscribe.value.stage.Closing?
    ensures HazardFree(s, actions)
    decreases |actions|
  {
    if actions != [] {
      if actions[0] == PokeStart && s.pubsub != None {
        var s1 := Next(s, PokeStart);
        assert actions[1..][0] == PokeFinish && actions[1..][1..] == actions[2..];
        AtomicRunsAreHazardFree(Next(s1, PokeFinish), actions[2..]);
      } else {
        AtomicRunsAreHazardFree(Next(s, actions[0]), actions[1..]);
      }
    }
  }

  // No lost subscription from the start of the hub, when close acts at once.
  lemma NoLostSubscription(s: HubState, actions: seq<Action>)
    requires Init(s) && IsRun(s, actions) && Atomic(s, actions)
    ensures Inv(Final(s, actions)) && Covered(Final(s, actions))
  {
    InitInv(s);
    AtomicRunsAreHazardFree(s, actions);
    RunsAreSafe(s, actions);
  }

  // With the await inside close a subscription can be lost: the listener loses connection
  // 0 on its own and reconnects while the poke is still closing connection 0, and the
  // second channel's poke is merged into that one.
  lemma SplitPokeLosesSubscription(h: Handler) returns (s: HubState, run: seq<Action>)
    ensures Init(s) && s.subscriptions.Keys == {"a"} && s.bound == 128
    ensures IsRun(s, run) && !Covered(Final(s, run)) && !Unfinished(Final(s, run).resubscribe)
    ensures Final(s, run).phase.Listening? && "b" in Final(s, run).subscriptions
  {
    var r0: Registry := map["a" := map[0 := h]];
    var t0, a0 := FirstListen(r0);
    TraceIsRun(t0, a0);
    StartsHub(r0);
    var rest := LosesSecondChannel(h, r0);
    s, run := t0[0], a0 + rest;
    RunAppend(s, a0, rest);
  }

  lemma StartsHub(r0: Registry)
    requires r0.Keys == {"a"} && r0["a"].Keys == {0}
    ensures Init(At(r0, 1, 0, {}, {}, Starting, None))
  {}

  lemma LosesSecondChannel(h: Handler, r0: Registry) returns (run: seq<Action>)
    requires r0.Keys == {"a"}
    ensures var s := At(r0, 1, 1, {}, {}, Listening(0, {"a"}), None);
            && IsRun(s, run) && !Covered(Final(s, run)) && !Unfinished(Final(s, run).resubscribe)
            && Final(s, run).phase.Listening? && "b" in Final(s, run).subscriptions
  {
    var t1, a1, r := LoseFirstConnection(h, r0);
    var t2, a2 := MergeSecondSubscription(h, r);
    TraceIsRun(t1, a1);
    TraceIsRun(t2, a2);
    RunAppend(t1[0], a1, a2);
    run := a1 + a2;
    NotCovered(t2[|a2|]);
  }

  lemma NotCovered(s: HubState)
    requires s.running && s.phase == Listening(1, {"a"}) && s.closed == {0} && s.subscriptions.Keys == {"a", "b"}
    requires s.resubscribe == Some(Poke(0, Finished))
    ensures !Covered(s)
  {
    assert "b" in s.subscriptions.Keys && "b" !in s.phase.snapshot;
  }

  // The hub state during the run below, by what changes in it.
  ghost function At(r: Registry, tokens: nat, conns: nat, expected: set<Conn>, closed: set<Conn>,
                    phase: Phase, poke: Option<Poke>): HubState {
    HubState(r, tokens, true, phase.Connection(), conns, expected, closed, phase, 1, poke,
             if poke.Some? then 1 else 0, 128, 128, {}, 0, 262144, 0, map[], [])
  }

  ghost predicate IsStep(s: HubState, a: Action, t: HubState) {
    Enabled(s, a) && Next(s, a) == t
  }

  ghost predicate IsTrace(trace: seq<HubState>, run: seq<Action>) {
    && |trace| == |run| + 1
    && forall i :: 0 <= i < |run| ==> IsStep(trace[i], run[i], trace[i + 1])
  }

  lemma {:induction false} TraceIsRun(trace: seq<HubState>, run: seq<Action>)
    requires IsTrace(trace, run)
    ensures IsRun(trace[0], run) && Final(trace[0], run) == trace[|run|]
    decreases |run|
  {
    if run != [] {
      assert IsStep(trace[0], run[0], trace[0 + 1]);
      TraceIsRun(trace[1..], run[1..]);
    }
  }

  // The listener starts with connection 0 and channel "a" ...
  lemma FirstListen(r0: Registry) returns (trace: seq<HubState>, run: seq<Action>)
    requires r0.Keys == {"a"}
    ensures IsTrace(trace, run)
    ensures trace[0] == At(r0, 1, 0, {}, {}, Starting, None)
    ensures trace[|run|] == At(r0, 1, 1, {}, {}, Listening(0, {"a"}), None)
  {
    assert "a" in r0.Keys;
    trace := [At(r0, 1, 0, {}, {}, Starting, None),
              At(r0, 1, 1, {}, {}, Subscribing(0, {"a"}), None),
              At(r0, 1, 1, {}, {}, Listening(0, {"a"}), None)];
    run := [Iterate(true), SubscribeDone];
  }

  // ... loses connection 0 while the poke for a second handler is closing it ...
  lemma LoseFirstConnection(h: Handler, r0: Registry) returns (trace: seq<HubState>, run: seq<Action>, r: Registry)
    requires r0.Keys == {"a"}
    ensures IsTrace(trace, run)
    ensures r.Keys == {"a"} && trace[0] == At(r0, 1, 1, {}, {}, Listening(0, {"a"}), None)
    ensures trace[|run|] == At(r, 2, 1, {0}, {}, Detaching(0), Some(Poke(0, Closing(0))))
  {
    assert "a" in r0.Keys;
    r := Register(r0, "a", 1, h);
    trace := [At(r0, 1, 1, {}, {}, Listening(0, {"a"}), None),
              At(r, 2, 1, {}, {}, Listening(0, {"a"}), Some(Poke(0, Scheduled))),
              At(r, 2, 1, {0}, {}, Listening(0, {"a"}), Some(Poke(0, Closing(0)))),
              At(r, 2, 1, {0}, {}, Detaching(0), Some(Poke(0, Closing(0))))];
    run := [Subscribe("a", h, true), PokeStart, ListenError(true)];
  }

  // ... and is listening again before that poke ends.
  lemma MergeSecondSubscription(h: Handler, r: Registry) returns (trace: seq<HubState>, run: seq<Action>)
    requires r.Keys == {"a"}
    ensures IsTrace(trace, run)
    ensures trace[0] == At(r, 2, 1, {0}, {}, Detaching(0), Some(Poke(0, Closing(0))))
    ensures trace[|run|].subscriptions.Keys == {"a", "b"}
    ensures exists r' :: trace[|run|] == At(r', 3, 2, {}, {0}, Listening(1, {"a"}), Some(Poke(0, Finished)))
  {
    assert "a" in r.Keys;
    var r' := Register(r, "b", 2, h);
    trace := [At(r, 2, 1, {0}, {}, Detaching(0), Some(Poke(0, Closing(0)))),
              At(r, 2, 1, {}, {0}, Releasing, Some(Poke(0, Closing(0)))),
              At(r, 2, 2, {}, {0}, Subscribing(1, {"a"}), Some(Poke(0, Closing(0)))),
              At(r, 2, 2, {}, {0}, Listening(1, {"a"}), Some(Poke(0, Closing(0)))),
              At(r', 3, 2, {}, {0}, Listening(1, {"a"}), Some(Poke(0, Closing(0)))),
              At(r', 3, 2, {}, {0}, Listening(1, {"a"}), Some(Poke(0, Finished)))];
    run := [DetachDone, Iterate(true), SubscribeDone, Subscribe("b", h, true), PokeFinish];
  }

  // ---------------------------------------------------------------- eventual listening

  // Steps the hub takes by itself once a fault or a poke has happened; the other steps
  // are requests, incoming messages and faults of the environment.
  predicate Internal(s: HubState, a: Action) {
    match a
    case PokeStart => true
    case PokeFinish => true
    case Iterate(created) => created
    case SubscribeDone => true
    case ListenEnd => s.phase.Listening? && s.phase.conn in s.closed
    case ListenError(_) => s.phase.Holds() && s.phase.conn in s.closed
    case BackoffDone => true
    case RetryDone => true
    case DetachDone => true
    case StartHandler => true
    case HandlerDone(_) => true
    case _ => false
  }

  function Rank(s: HubState): nat {
    match s.phase
    case Listening(c, _) => if c in s.closed then 7 else 0
    case Subscribing(c, _) => if c in s.closed then 7 else 2
    case Dispatching(_, _, _, todo) => 8 + 2 * |todo|
    case Backoff(_) => 6
    case Detaching(_) => 5
    case Retrying => 4
    case _ => 3
  }

  function PokeRank(p: Option<Poke>): nat {
    if p.None? then 0 else match p.value.stage case Scheduled => 20 case Closing(_) => 10 case Finished => 0
  }

  function Measure(s: HubState): nat { Rank(s) + PokeRank(s.resubscribe) + |s.tasks| }

  // Every internal step makes progress, leaves the registry alone and is no hazard.
  lemma InternalProgress(s: HubState, a: Action)
    requires Inv(s) && s.running && s.subscriptions.Keys != {} && Enabled(s, a) && Internal(s, a)
    ensures Measure(Next(s, a)) < Measure(s)
    ensures Next(s, a).subscriptions == s.subscriptions && Next(s, a).running && !Hazard(s, a)
  {
    if a.StartHandler? || a.HandlerDone? {
      HandlerProgress(s, a);
    } else {
      PermitsUntouched(s, a);
      ListenerProgress(s, a);
    }
  }

  lemma HandlerProgress(s: HubState, a: Action)
    requires PermitInv(s) && Enabled(s, a) && (a.StartHandler? || a.HandlerDone?)
    ensures Measure(Next(s, a)) < Measure(s)
    ensures Next(s, a).subscriptions == s.subscriptions && Next(s, a).running == s.running
  {
    if a.StartHandler? {
      assert |s.tasks + {s.nextTask}| == |s.tasks| + 1;
    } else {
      assert |s.tasks - {a.task}| == |s.tasks| - 1;
    }
  }

  lemma ListenerProgress(s: HubState, a: Action)
    requires ConnectionInv(s) && s.running && s.subscriptions.Keys != {} && Enabled(s, a) && Internal(s, a)
    requires !a.StartHandler? && !a.HandlerDone?
    ensures Rank(Next(s, a)) + PokeRank(Next(s, a).resubscribe) < Rank(s) + PokeRank(s.resubscribe)
    ensures Next(s, a).subscriptions == s.subscriptions && Next(s, a).running
  {}

  ghost predicate Quiescent(s: HubState) { forall a :: Internal(s, a) ==> !Enabled(s, a) }

  // When no internal step is left, the hub listens to exactly the registered channels.
  lemma QuiescentListens(s: HubState)
    requires Inv(s) && Covered(s) && s.running && s.subscriptions.Keys != {} && Quiescent(s)
    ensures s.phase.Listening? && s.phase.conn !in s.closed && s.phase.snapshot == s.subscriptions.Keys
  {
    QuiescentHandlers(s);
    QuiescentListener(s);
    assert Internal(s, PokeStart) && Internal(s, PokeFinish);
    assert !PokeWillClose(s, s.phase.conn);
  }

  // That handlers free their permits is what rules out a listener stuck in dispatch.
  lemma QuiescentHandlers(s: HubState)
    requires PermitInv(s) && DispatchInv(s) && Quiescent(s)
    ensures !s.phase.Dispatching?
  {
    if t :| t in s.tasks { assert Internal(s, HandlerDone(t)); }
    assert s.tasks == {};
    assert Internal(s, StartHandler);
  }

  lemma QuiescentListener(s: HubState)
    requires s.running && s.phase != Stopped && !s.phase.Dispatching? && Quiescent(s)
    ensures s.phase.Listening? && s.phase.conn !in s.closed
  {
    assert Internal(s, Iterate(true)) && Internal(s, SubscribeDone);
    assert Internal(s, BackoffDone) && Internal(s, RetryDone) && Internal(s, DetachDone);
    if s.phase.Holds() && s.phase.conn in s.closed { assert Internal(s, ListenError(true)); }
  }

  predicate AllInternal(s: HubState, actions: seq<Action>)
    requires IsRun(s, actions)
    decreases |actions|
  {
    actions == [] || (Internal(s, actions[0]) && AllInternal(Next(s, actions[0]), actions[1..]))
  }

  // Whatever order the hub's own steps are taken in, there are at most Measure(s) of them,
  // and once they are exhausted every registered channel is being listened to.
  lemma {:induction false} EventuallyListening(s: HubState, actions: seq<Action>)
    requires Inv(s) && Covered(s) && s.running && s.subscriptions.Keys != {}
    requires IsRun(s, actions) && AllInternal(s, actions)
    ensures |actions| <= Measure(s)
    ensures var f := Final(s, actions);
            Quiescent(f) ==>
              f.phase.Listening? && f.phase.conn !in f.closed && f.phase.snapshot == s.subscriptions.Keys
    decreases |actions|
  {
    if actions == [] {
      if Quiescent(s) { QuiescentListens(s); }
    } else {
      InternalProgress(s, actions[0]);
      StepInv(s, actions[0]);
      CoverageIffNoHazard(s, actions[0]);
      EventuallyListening(Next(s, actions[0]), actions[1..]);
    }
  }

  // ---------------------------------------------------------------- subscription count

  ghost function LiveTokens(r: Registry): set<Token> {
    set ch, t | ch in r && t in r[ch] :: t
  }

  ghost predicate TokensDisjoint(r: Registry) {
    forall c1, c2, t ::
      (c1 in r && c2 in r && t in r[c1] && t in r[c2]) ==> c1 == c2
  }

  // subscription_count: the sum over channels is the number of live tokens.
  method SubscriptionCount(r: Registry) returns (count: nat)
    requires TokensDisjoint(r)
    ensures count == |LiveTokens(r)|
  {
    count := 0;
    var todo := r.Keys;
    ghost var seen: set<Token> := {};
    while todo != {}
      invariant todo <= r.Keys && count == |seen|
      invariant forall t :: t in seen <==> exists ch :: ch in r.Keys - todo && t in r[ch]
      decreases |todo|
    {
      var ch :| ch in todo;
      assert seen !! r[ch].Keys;
      assert |seen + r[ch].Keys| == |seen| + |r[ch].Keys|;
      assert |r[ch]| == |r[ch].Keys|;
      count := count + |r[ch]|;
      seen := seen + r[ch].Keys;
      todo := todo - {ch};
    }
    assert seen == LiveTokens(r);
  }

  // A new token is counted once; a removed one no longer, and no other token changes.
  lemma RegistryTokens(s: HubState, ch: Channel, h: Handler, t: Token)
    requires RegistryInv(s)
    ensures LiveTokens(Register(s.subscriptions, ch, s.nextToken, h)) == LiveTokens(s.subscriptions) + {s.nextToken}
    ensures s.nextToken !in LiveTokens(s.subscriptions)
    ensures LiveTokens(RemoveToken(s.subscriptions, t)) == LiveTokens(s.subscriptions) - {t}
  {
    var r := s.subscriptions;
    var added := Register(r, ch, s.nextToken, h);
    forall x | x in LiveTokens(r) + {s.nextToken} ensures x in LiveTokens(added) {
      if x == s.nextToken {
        assert ch in added && x in added[ch];
      } else {
        var c :| c in r && x in r[c];
        assert c in added && x in added[c];
      }
    }
    var removed := RemoveToken(r, t);
    forall x | x in LiveTokens(r) - {t} ensures x in LiveTokens(removed) {
      var c :| c in r && x in r[c];
      assert x in r[c].Keys - {t};
      assert c in removed && x in removed[c];
    }
  }
}
