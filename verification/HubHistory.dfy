/**
 What the state of the pub/sub hub (src/infra/pubsub_hub.py) is after a run, read off the
 run's actions alone: who is registered where, which disconnects are expected, how long the
 listener waits, and that a stopped hub takes no more connections.
 */
module HubHistory {
  import opened Basics
  import opened PubSubHub

  // ---------------------------------------------------------------- registrations

  predicate Holds(r: Registry, ch: Channel, t: Token, h: Handler) { ch in r && t in r[ch] && r[ch][t] == h }

  // Whether token t stands for handler h on channel ch after the run: since its own
  // `subscribe`, which is the one that is given token t, until its `unsubscribe`.
  function HeldAfter(run: seq<Action>, next: Token, held: bool, ch: Channel, t: Token, h: Handler): bool {
    if run == [] then held
    else
      match run[0]
      case Subscribe(c, g, _) =>
        HeldAfter(run[1..], next + 1, if next == t then c == ch && g == h else held, ch, t, h)
      case Unsubscribe(u, _) => HeldAfter(run[1..], next, held && u != t, ch, t, h)
      case _ => HeldAfter(run[1..], next, held, ch, t, h)
  }

  lemma {:induction false} RegisteredIff(s: HubState, run: seq<Action>, ch: Channel, t: Token, h: Handler)
    requires RegistryInv(s) && IsRun(s, run)
    ensures Holds(Final(s, run).subscriptions, ch, t, h)
            <==> HeldAfter(run, s.nextToken, Holds(s.subscriptions, ch, t, h), ch, t, h)
    decreases |run|
  {
    if run != [] {
      StepRegistry(s, run[0]);
      StepHolds(s, run[0], ch, t, h);
      RegisteredIff(Next(s, run[0]), run[1..], ch, t, h);
    }
  }

  lemma StepHolds(s: HubState, a: Action, ch: Channel, t: Token, h: Handler)
    requires RegistryInv(s) && Enabled(s, a)
    ensures Next(s, a).nextToken == s.nextToken + (if a.Subscribe? then 1 else 0)
    ensures Holds(Next(s, a).subscriptions, ch, t, h)
            <==> match a
                 case Subscribe(c, g, _) => if t == s.nextToken then c == ch && g == h else Holds(s.subscriptions, ch, t, h)
                 case Unsubscribe(u, _) => u != t && Holds(s.subscriptions, ch, t, h)
                 case _ => Holds(s.subscriptions, ch, t, h)
  {
    if a.Subscribe? {
    } else if a.Unsubscribe? {
      assert ch in s.subscriptions && t in s.subscriptions[ch] && t != a.token ==> t in s.subscriptions[ch].Keys - {a.token};
    } else {
      RegistryUntouched(s, a);
    }
  }

  // ---------------------------------------------------------------- expected disconnects

  // Whether a poke has captured the present connection.
  function PokedAfter(run: seq<Action>, poked: bool): bool {
    if run == [] then poked
    else PokedAfter(run[1..], if run[0].Iterate? then false else poked || run[0].PokeStart?)
  }

  function StoppedAfter(run: seq<Action>): bool { run != [] && (run[0].Stop? || StoppedAfter(run[1..])) }

  // The listener has a connection that it has not begun to close.
  predicate Using(p: Phase) { p.Holds() || p.Backoff? }

  predicate InStep(s: HubState, poked: bool) {
    Using(s.phase) && s.phase.Connection().Some? ==> (s.phase.Connection().value in s.expected <==> poked)
  }

  lemma StepPoked(s: HubState, a: Action, poked: bool)
    requires ConnectionInv(s) && Enabled(s, a) && InStep(s, poked)
    ensures InStep(Next(s, a), if a.Iterate? then false else poked || a.PokeStart?)
    ensures Next(s, a).running == (s.running && !a.Stop?)
  {}

  lemma {:induction false} RunPoked(s: HubState, run: seq<Action>, poked: bool)
    requires Inv(s) && IsRun(s, run) && InStep(s, poked)
    ensures Inv(Final(s, run)) && InStep(Final(s, run), PokedAfter(run, poked))
    ensures Final(s, run).running == (s.running && !StoppedAfter(run))
    decreases |run|
  {
    if run != [] {
      StepInv(s, run[0]);
      StepPoked(s, run[0], poked);
      RunPoked(Next(s, run[0]), run[1..], if run[0].Iterate? then false else poked || run[0].PokeStart?);
    }
  }

  // After an error of the connection the listener restarts at once exactly if a poke has
  // captured this very connection and the server closed it, or the hub has been stopped.
  lemma BacksOffIff(s: HubState, run: seq<Action>, closedByServer: bool)
    requires Init(s) && IsRun(s, run) && Enabled(Final(s, run), ListenError(closedByServer))
    ensures Next(Final(s, run), ListenError(closedByServer)).phase.Backoff?
            <==> !StoppedAfter(run) && !(PokedAfter(run, false) && closedByServer)
  {
    InitInv(s);
    RunPoked(s, run, false);
  }

  // A connection that the listener is closing is expected to disconnect.
  lemma {:induction false} ClosingIsExpected(s: HubState, run: seq<Action>)
    requires Inv(s) && IsRun(s, run) && (s.phase.Detaching? ==> s.phase.conn in s.expected)
    ensures Final(s, run).phase.Detaching? ==> Final(s, run).phase.conn in Final(s, run).expected
    decreases |run|
  {
    if run != [] {
      StepInv(s, run[0]);
      ClosingStep(s, run[0]);
      ClosingIsExpected(Next(s, run[0]), run[1..]);
    }
  }

  lemma ClosingStep(s: HubState, a: Action)
    requires ConnectionInv(s) && Enabled(s, a) && (s.phase.Detaching? ==> s.phase.conn in s.expected)
    ensures Next(s, a).phase.Detaching? ==> Next(s, a).phase.conn in Next(s, a).expected
  {}

  // The callback of a finished poke frees its slot, and no other callback does.
  lemma SlotIsFreed(s: HubState, id: nat)
    ensures var r := Next(s, PokeCallback(id)).resubscribe;
            r != s.resubscribe <==> s.resubscribe == Some(Poke(id, Finished))
    ensures s.resubscribe == Some(Poke(id, Finished)) ==> Next(s, PokeCallback(id)).resubscribe == None
  {}

  // ---------------------------------------------------------------- the delay

  // Failures since the last connection that listened or was poked.
  function Failures(s: HubState, run: seq<Action>, failures: nat): nat
    requires IsRun(s, run)
    decreases |run|
  {
    if run == [] then failures
    else
      var now := match run[0]
                 case SubscribeDone => 0
                 case ListenError(_) => if Next(s, run[0]).phase.Backoff? || !s.running then failures else 0
                 case BackoffDone => failures + 1
                 case RetryDone => failures + 1
                 case _ => failures;
      Failures(Next(s, run[0]), run[1..], now)
  }

  function Power(n: nat): nat { if n == 0 then 1 else 2 * Power(n - 1) }

  // The n-th wait in a row takes 2 to the n seconds, and never more than 30.
  function Wait(n: nat): nat { Min(Power(n), MAX_RECONNECT_DELAY) }

  lemma {:induction false} DelayIs(s: HubState, run: seq<Action>, failures: nat)
    requires IsRun(s, run) && s.delay == Wait(failures)
    ensures Final(s, run).delay == Wait(Failures(s, run, failures))
    decreases |run|
  {
    if run != [] {
      var a, s' := run[0], Next(s, run[0]);
      if a.SubscribeDone? || (a.ListenError? && s.running && !s'.phase.Backoff?) {
        DelayIs(s', run[1..], 0);
      } else if a.BackoffDone? || a.RetryDone? {
        DelayIs(s', run[1..], failures + 1);
      } else {
        assert s'.delay == s.delay;
        DelayIs(s', run[1..], failures);
      }
    }
  }

  // In every run the listener waits 1, 2, 4, 8, 16 and then 30 seconds between failures.
  lemma WaitsDouble(s: HubState, run: seq<Action>)
    requires Init(s) && IsRun(s, run)
    ensures Final(s, run).delay == Wait(Failures(s, run, 0))
  {
    assert Power(0) == 1;
    DelayIs(s, run, 0);
  }

  // ---------------------------------------------------------------- stopping

  // A stopped hub takes no more connections and dispatches no more messages.
  lemma {:induction false} StoppedStaysStopped(s: HubState, run: seq<Action>)
    requires !s.running && IsRun(s, run)
    ensures var f := Final(s, run);
            !f.running && f.nextConn == s.nextConn && f.nextMessage == s.nextMessage
    decreases |run|
  {
    if run != [] { StoppedStaysStopped(Next(s, run[0]), run[1..]); }
  }

  // ---------------------------------------------------------------- a pass of the listener

  // A pass takes a connection exactly if the hub runs, has channels and can make a client;
  // it ends the listener exactly after a stop, and otherwise sleeps or backs off.
  lemma PassOutcome(s: HubState, created: bool)
    requires Inv(s) && Enabled(s, Iterate(created))
    ensures var p := Next(s, Iterate(created)).phase;
            && (p.Stopped? <==> !s.running)
            && (p.Idle? <==> s.running && s.subscriptions.Keys == {})
            && (p.Retrying? <==> s.running && s.subscriptions.Keys != {} && !created)
            && (p.Subscribing? <==> s.running && s.subscriptions.Keys != {} && created)
  {}

  // ---------------------------------------------------------------- a lost connection

  lemma {:induction false} ClosedStays(s: HubState, run: seq<Action>)
    requires IsRun(s, run)
    ensures s.closed <= Final(s, run).closed
    decreases |run|
  {
    if run != [] {
      assert s.closed <= Next(s, run[0]).closed;
      ClosedStays(Next(s, run[0]), run[1..]);
    }
  }

  // A connection that dies on its own is replaced: when the hub has nothing left to do by
  // itself it listens to the registered channels on another one.
  lemma LostIsReplaced(s: HubState, run: seq<Action>)
    requires Inv(s) && Covered(s) && s.running && s.subscriptions.Keys != {} && s.phase.Holds()
    requires IsRun(Next(s, ConnectionLost), run) && AllInternal(Next(s, ConnectionLost), run)
    ensures var f := Final(Next(s, ConnectionLost), run);
            Quiescent(f) ==>
              f.phase.Listening? && f.phase.snapshot == s.subscriptions.Keys && f.phase.conn != s.phase.conn
  {
    var lost := Next(s, ConnectionLost);
    StepInv(s, ConnectionLost);
    CoverageIffNoHazard(s, ConnectionLost);
    EventuallyListening(lost, run);
    ClosedStays(lost, run);
    assert s.phase.conn in lost.closed;
  }

  // ---------------------------------------------------------------- a message

  function Repeated(n: nat): seq<Action> { if n == 0 then [] else [StartHandler] + Repeated(n - 1) }

  lemma {:induction false} HandlersStart(s: HubState)
    requires s.phase.Dispatching? && s.phase.todo != [] && s.free >= |s.phase.todo|
    ensures var n := |s.phase.todo|;
            && IsRun(s, Repeated(n))
            && Final(s, Repeated(n)).phase == Listening(s.phase.conn, s.phase.snapshot)
            && Final(s, Repeated(n)).started == s.started + Tagged(s.phase.message, s.phase.todo)
    decreases |s.phase.todo|
  {
    var n, s' := |s.phase.todo|, DoStartHandler(s);
    var m, todo := s.phase.message, s.phase.todo;
    assert Repeated(n) == [StartHandler] + Repeated(n - 1);
    assert Repeated(n)[0] == StartHandler && Repeated(n)[1..] == Repeated(n - 1);
    Assoc(s.started, [(m, todo[0])], Tagged(m, todo[1..]));
    if n > 1 {
      HandlersStart(s');
    } else {
      assert todo[1..] == [] && Tagged(m, todo[1..]) == [];
      AppendEmpty(s.started + [(m, todo[0])]);
      AppendEmpty([(m, todo[0])]);
    }
  }

  // A running hub that listens on an open connection takes every in-size message and, with
  // permits free, starts a task for each handler of its channel and listens again.
  lemma MessageIsHandled(s: HubState, ch: Channel, size: nat, live: seq<Token>)
    requires s.running && s.phase.Listening? && s.phase.conn !in s.closed && size <= s.maxBytes
    requires Enumerates(live, TokensOf(s.subscriptions, ch)) && live != [] && s.free >= |live|
    ensures Enabled(s, Message(ch, size, live))
    ensures var s1 := Next(s, Message(ch, size, live));
            && IsRun(s1, Repeated(|live|)) && Final(s1, Repeated(|live|)).phase == s.phase
            && Final(s1, Repeated(|live|)).started == s.started + Tagged(s.nextMessage, live)
  {
    HandlersStart(Next(s, Message(ch, size, live)));
  }
}
