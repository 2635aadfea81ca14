/**
 The agent factory (src/agents/core/base.py, `AgentFactory.get` and `close_all`): a cache of
 one agent per id behind a double-checked lock.  Every action is the code between two
 awaits; initialisation of an agent is awaited with the lock held.
 */
module AgentFactory {
  import opened Basics

  type AgentId = string
  type Agent = nat
  type Caller = nat

  datatype Result = Returned(agent: Agent, epoch: nat) | NotRegistered | InitFailed | Cancelled

  datatype Pc = Waiting(id: AgentId) | Initializing(id: AgentId, agent: Agent) | Done(id: AgentId, result: Result)

  datatype State = State(
    instances: map<AgentId, Agent>,
    lock: Option<Caller>,
    callers: map<Caller, Pc>,
    closers: map<Caller, nat>,                 // each running close_all, with the cache size it iterates over
    registry: set<AgentId>,                    // after discovery
    nextAgent: Agent,
    epoch: nat,                                // number of close_all calls that cleared the cache
    cached: map<(nat, AgentId), Agent>)        // history: what was ever cached in each epoch

  datatype Action =
    | Call(caller: Caller, id: AgentId)
    | Acquire(caller: Caller)
    | InitDone(caller: Caller)
    | InitRaises(caller: Caller)
    | Cancel(caller: Caller)
    | CloseBegin(caller: Caller)
    | CloseStep(caller: Caller, more: bool)    // one agent is closed; whether the iterator has another

  predicate Enabled(s: State, a: Action) {
    match a
    case Call(c, _) => c !in s.callers
    case Acquire(c) => s.lock.None? && c in s.callers && s.callers[c].Waiting?
    case InitDone(c) => c in s.callers && s.callers[c].Initializing?
    case InitRaises(c) => c in s.callers && s.callers[c].Initializing?
    case Cancel(c) => c in s.callers && !s.callers[c].Done?
    case CloseBegin(c) => c !in s.closers
    case CloseStep(c, _) => c in s.closers
  }

  function Finish(s: State, c: Caller, id: AgentId, r: Result): State {
    s.(callers := s.callers[c := Done(id, r)])
  }

  function DoCall(s: State, c: Caller, id: AgentId): State {
    if id in s.instances then Finish(s, c, id, Returned(s.instances[id], s.epoch))
    else s.(callers := s.callers[c := Waiting(id)])
  }

  // With the lock: the second look at the cache, then discovery, then the constructor.
  function DoAcquire(s: State, c: Caller, id: AgentId): State {
    if id in s.instances then Finish(s, c, id, Returned(s.instances[id], s.epoch))
    else if id !in s.registry then Finish(s, c, id, NotRegistered)
    else s.(lock := Some(c), callers := s.callers[c := Initializing(id, s.nextAgent)], nextAgent := s.nextAgent + 1)
  }

  function DoInitDone(s: State, c: Caller, id: AgentId, agent: Agent): State {
    s.(instances := s.instances[id := agent], lock := None, cached := s.cached[(s.epoch, id) := agent],
       callers := s.callers[c := Done(id, Returned(agent, s.epoch))])
  }

  function DoRelease(s: State, c: Caller, id: AgentId, r: Result): State {
    s.(lock := None, callers := s.callers[c := Done(id, r)])
  }

  function DoCancel(s: State, c: Caller): State
    requires c in s.callers
  {
    if s.callers[c].Initializing? then DoRelease(s, c, s.callers[c].id, Cancelled)
    else Finish(s, c, s.callers[c].id, Cancelled)
  }

  function DoClear(s: State, c: Caller): State {
    s.(instances := map[], epoch := s.epoch + 1, closers := s.closers - {c})
  }

  // close_all iterates over the live cache, without the lock: over an empty one it clears
  // at once.
  function DoCloseBegin(s: State, c: Caller): State {
    if |s.instances| == 0 then DoClear(s, c) else s.(closers := s.closers[c := |s.instances|])
  }

  // The iterator raises when the size of the cache is not what it was; then nothing is
  // cleared.
  function DoCloseStep(s: State, c: Caller, more: bool): State
    requires c in s.closers
  {
    if |s.instances| != s.closers[c] then s.(closers := s.closers - {c})
    else if more then s
    else DoClear(s, c)
  }

  function Next(s: State, a: Action): State
    requires Enabled(s, a)
  {
    match a
    case Call(c, id) => DoCall(s, c, id)
    case Acquire(c) => DoAcquire(s, c, s.callers[c].id)
    case InitDone(c) => DoInitDone(s, c, s.callers[c].id, s.callers[c].agent)
    case InitRaises(c) => DoRelease(s, c, s.callers[c].id, InitFailed)
    case Cancel(c) => DoCancel(s, c)
    case CloseBegin(c) => DoCloseBegin(s, c)
    case CloseStep(c, more) => DoCloseStep(s, c, more)
  }

  predicate Init(s: State) {
    && s.instances == map[] && s.lock.None? && s.callers == map[] && s.closers == map[]
    && s.nextAgent == 0 && s.epoch == 0 && s.cached == map[]
  }

  // The lock is held by whoever initialises, for an id that is not cached.
  ghost predicate LockInv(s: State) {
    && (forall c :: c in s.callers && s.callers[c].Initializing? ==>
          s.lock == Some(c) && s.callers[c].id !in s.instances && s.callers[c].agent < s.nextAgent)
    && (s.lock.Some? ==> s.lock.value in s.callers && s.callers[s.lock.value].Initializing?)
  }

  // The cache is what the history has for the current epoch.
  ghost predicate HistoryInv(s: State) {
    && (forall id :: id in s.instances <==> (s.epoch, id) in s.cached)
    && (forall id :: id in s.instances ==> s.cached[(s.epoch, id)] == s.instances[id])
    && (forall k :: k in s.cached ==> k.0 <= s.epoch)
  }

  // Who returned, returned what was cached.
  ghost predicate ServedInv(s: State) { forall c :: c in s.callers ==> Served(s.cached, s.callers[c]) }

  predicate Served(cached: map<(nat, AgentId), Agent>, pc: Pc) {
    pc.Done? && pc.result.Returned? ==>
      (pc.result.epoch, pc.id) in cached && cached[(pc.result.epoch, pc.id)] == pc.result.agent
  }

  ghost predicate Inv(s: State) { LockInv(s) && HistoryInv(s) && ServedInv(s) }

  // What was cached in an epoch is never replaced.
  ghost predicate Grows(s: State, s': State) {
    forall k :: k in s.cached ==> k in s'.cached && s'.cached[k] == s.cached[k]
  }

  lemma StepInv(s: State, a: Action)
    requires Inv(s) && Enabled(s, a)
    ensures Inv(Next(s, a)) && Grows(s, Next(s, a))
  {
    StepLock(s, a);
    StepHistory(s, a);
    StepServed(s, a);
  }

  lemma StepLock(s: State, a: Action)
    requires LockInv(s) && Enabled(s, a)
    ensures LockInv(Next(s, a))
  {}

  // Only a finished initialisation adds to the cache, and only a clear empties it.
  lemma CacheUntouched(s: State, a: Action)
    requires Enabled(s, a) && !a.InitDone?
    ensures var s' := Next(s, a);
            && s'.cached == s.cached
            && (if s'.epoch == s.epoch then s'.instances == s.instances
                else s'.epoch == s.epoch + 1 && s'.instances.Keys == {})
  {
    if a.CloseBegin? || a.CloseStep? { ClosingCache(s, a); } else { CallersOnly(s, a); }
  }

  lemma ClosingCache(s: State, a: Action)
    requires Enabled(s, a) && (a.CloseBegin? || a.CloseStep?)
    ensures var s' := Next(s, a);
            && s'.cached == s.cached && s'.callers == s.callers
            && (if s'.epoch == s.epoch then s'.instances == s.instances
                else s'.epoch == s.epoch + 1 && s'.instances.Keys == {})
  {
    if a.CloseBegin? { BeginCache(s, a.caller); } else { CloseCache(s, a.caller, a.more); }
  }

  lemma BeginCache(s: State, c: Caller)
    ensures var s' := DoCloseBegin(s, c);
            && s'.cached == s.cached && s'.callers == s.callers
            && (if s'.epoch == s.epoch then s'.instances == s.instances
                else s'.epoch == s.epoch + 1 && s'.instances.Keys == {})
  {}

  lemma CloseCache(s: State, c: Caller, more: bool)
    requires c in s.closers
    ensures var s' := DoCloseStep(s, c, more);
            && s'.cached == s.cached && s'.callers == s.callers
            && (if s'.epoch == s.epoch then s'.instances == s.instances
                else s'.epoch == s.epoch + 1 && s'.instances.Keys == {})
  {}

  lemma CallersOnly(s: State, a: Action)
    requires Enabled(s, a) && !a.InitDone? && !a.CloseBegin? && !a.CloseStep?
    ensures var s' := Next(s, a);
            s'.cached == s.cached && s'.epoch == s.epoch && s'.instances == s.instances
  {}

  lemma StepHistory(s: State, a: Action)
    requires LockInv(s) && HistoryInv(s) && Enabled(s, a)
    ensures HistoryInv(Next(s, a)) && Grows(s, Next(s, a))
  {
    if a.InitDone? {
      assert (s.epoch, s.callers[a.caller].id) !in s.cached;
    } else {
      CacheUntouched(s, a);
    }
  }

  // The caller an action is about is served from the cache; the others are as they were.
  lemma StepServed(s: State, a: Action)
    requires Inv(s) && Enabled(s, a)
    ensures ServedInv(Next(s, a))
  {
    StepHistory(s, a);
    forall c | c in Next(s, a).callers ensures Served(Next(s, a).cached, Next(s, a).callers[c]) {
      if c != a.caller {
        OthersUntouched(s, a, c);
      } else {
        OwnServed(s, a);
      }
    }
  }

  lemma OthersUntouched(s: State, a: Action, c: Caller)
    requires Enabled(s, a) && c != a.caller
    ensures c in Next(s, a).callers ==> c in s.callers && Next(s, a).callers[c] == s.callers[c]
  {}

  lemma OwnServed(s: State, a: Action)
    requires Inv(s) && Enabled(s, a) && a.caller in Next(s, a).callers
    ensures Served(Next(s, a).cached, Next(s, a).callers[a.caller])
  {}

  predicate IsRun(s: State, run: seq<Action>)
    decreases |run|
  {
    run == [] || (Enabled(s, run[0]) && IsRun(Next(s, run[0]), run[1..]))
  }

  function Final(s: State, run: seq<Action>): State
    requires IsRun(s, run)
    decreases |run|
  {
    if run == [] then s else Final(Next(s, run[0]), run[1..])
  }

  lemma {:induction false} RunInv(s: State, run: seq<Action>)
    requires Inv(s) && IsRun(s, run)
    ensures Inv(Final(s, run)) && Grows(s, Final(s, run))
    decreases |run|
  {
    if run != [] {
      StepInv(s, run[0]);
      RunInv(Next(s, run[0]), run[1..]);
    }
  }

  // Under any interleaving, all callers of one id that are served between two clears get
  // one and the same agent.
  lemma OneAgentPerEpoch(s: State, run: seq<Action>, c1: Caller, c2: Caller)
    requires Init(s) && IsRun(s, run)
    requires var f := Final(s, run);
             && c1 in f.callers && f.callers[c1].Done? && f.callers[c1].result.Returned?
             && c2 in f.callers && f.callers[c2].Done? && f.callers[c2].result.Returned?
             && f.callers[c1].id == f.callers[c2].id && f.callers[c1].result.epoch == f.callers[c2].result.epoch
    ensures Final(s, run).callers[c1].result.agent == Final(s, run).callers[c2].result.agent
  {
    RunInv(s, run);
  }

  // ---------------------------------------------------------------- who is served

  // Only known agents are initialised and cached.
  ghost predicate KnownInv(s: State) {
    && (forall id :: id in s.instances ==> id in s.registry)
    && (forall c :: c in s.callers && s.callers[c].Initializing? ==> s.callers[c].id in s.registry)
  }

  lemma StepKnown(s: State, a: Action)
    requires KnownInv(s) && Enabled(s, a)
    ensures KnownInv(Next(s, a)) && Next(s, a).registry == s.registry
  {
    if a.CloseBegin? || a.CloseStep? {
      ClosingCache(s, a);
      ClosingRegistry(s, a);
    } else if a.Call? || a.Acquire? {
      LookingKnown(s, a);
    } else {
      EndingKnown(s, a);
    }
  }

  lemma ClosingRegistry(s: State, a: Action)
    requires Enabled(s, a) && (a.CloseBegin? || a.CloseStep?)
    ensures Next(s, a).registry == s.registry
  {}

  lemma LookingKnown(s: State, a: Action)
    requires KnownInv(s) && Enabled(s, a) && (a.Call? || a.Acquire?)
    ensures KnownInv(Next(s, a)) && Next(s, a).registry == s.registry
  {}

  lemma EndingKnown(s: State, a: Action)
    requires KnownInv(s) && Enabled(s, a) && (a.InitDone? || a.InitRaises? || a.Cancel?)
    ensures KnownInv(Next(s, a)) && Next(s, a).registry == s.registry
  {}

  // The answer of a finished caller, by what happened to it and by whether its id is known.
  predicate Answered(pc: Pc, known: bool, raised: bool, cancelled: bool) {
    pc.Done? ==>
      && (pc.result == InitFailed <==> raised)
      && (pc.result == Cancelled <==> cancelled)
      && (pc.result == NotRegistered <==> !known && !cancelled)
      && (pc.result.Returned? <==> known && !raised && !cancelled)
  }

  lemma AnswerStep(s: State, a: Action, c: Caller)
    requires KnownInv(s) && Enabled(s, a) && c in Next(s, a).callers && (c !in s.callers || !s.callers[c].Done?)
    ensures Answered(Next(s, a).callers[c], Next(s, a).callers[c].id in s.registry, a == InitRaises(c), a == Cancel(c))
    ensures c in s.callers ==> Next(s, a).callers[c].id == s.callers[c].id
    ensures c !in s.callers ==> a == Call(c, Next(s, a).callers[c].id)
  {
    if a.CloseBegin? || a.CloseStep? { ClosingCache(s, a); }
  }

  lemma {:induction false} DoneStays(s: State, run: seq<Action>, c: Caller)
    requires IsRun(s, run) && c in s.callers && s.callers[c].Done?
    ensures c in Final(s, run).callers && Final(s, run).callers[c] == s.callers[c]
    ensures InitRaises(c) !in run && Cancel(c) !in run
    decreases |run|
  {
    if run != [] {
      DoneStep(s, run[0], c);
      DoneStays(Next(s, run[0]), run[1..], c);
    }
  }

  lemma DoneStep(s: State, a: Action, c: Caller)
    requires Enabled(s, a) && c in s.callers && s.callers[c].Done?
    ensures c in Next(s, a).callers && Next(s, a).callers[c] == s.callers[c]
    ensures a != InitRaises(c) && a != Cancel(c)
  {
    if a.CloseBegin? || a.CloseStep? { ClosingCache(s, a); }
  }

  lemma {:induction false} AnsweredInRun(s: State, run: seq<Action>, c: Caller)
    requires KnownInv(s) && IsRun(s, run) && c in Final(s, run).callers && (c !in s.callers || !s.callers[c].Done?)
    ensures Answered(Final(s, run).callers[c], Final(s, run).callers[c].id in s.registry, InitRaises(c) in run, Cancel(c) in run)
    decreases |run|
  {
    if run != [] {
      var s' := Next(s, run[0]);
      StepKnown(s, run[0]);
      assert run == [run[0]] + run[1..];
      if c in s'.callers {
        AnswerStep(s, run[0], c);
        if s'.callers[c].Done? {
          DoneStays(s', run[1..], c);
        } else {
          AnsweredInRun(s', run[1..], c);
        }
      } else {
        AnsweredInRun(s', run[1..], c);
      }
    }
  }

  // In every run, whatever else happens: a caller that has finished was refused if and only
  // if its id is unknown, its own initialisation raised or it was cancelled, and its answer
  // says which; every other one was served.
  lemma RefusedIff(s: State, run: seq<Action>, c: Caller)
    requires Init(s) && IsRun(s, run) && c in Final(s, run).callers && Final(s, run).callers[c].Done?
    ensures var pc := Final(s, run).callers[c];
            var raised, cancelled, known := InitRaises(c) in run, Cancel(c) in run, pc.id in s.registry;
            && (pc.result.Returned? <==> known && !raised && !cancelled)
            && (pc.result == InitFailed <==> raised) && (pc.result == Cancelled <==> cancelled)
            && (pc.result == NotRegistered <==> !known && !cancelled)
  {
    AnsweredInRun(s, run, c);
  }

  // An initialisation that succeeds serves its caller with the agent it has initialised, and
  // so every later caller until the cache is cleared.
  lemma ServedWithInitialised(s: State, run: seq<Action>, c: Caller, d: Caller)
    requires Inv(s) && Enabled(s, InitDone(c)) && IsRun(Next(s, InitDone(c)), run) && NoClear(Next(s, InitDone(c)), run)
    requires var f := Final(Next(s, InitDone(c)), run);
             d !in f.callers
    ensures var f := Final(Next(s, InitDone(c)), run);
            && Next(s, InitDone(c)).callers[c] == Done(s.callers[c].id, Returned(s.callers[c].agent, s.epoch))
            && Next(f, Call(d, s.callers[c].id)).callers[d] == Done(s.callers[c].id, Returned(s.callers[c].agent, s.epoch))
  {
    StepInv(s, InitDone(c));
    RunInv(Next(s, InitDone(c)), run);
    SameEpoch(Next(s, InitDone(c)), run);
  }

  lemma {:induction false} SameEpoch(s: State, run: seq<Action>)
    requires IsRun(s, run) && NoClear(s, run)
    ensures Final(s, run).epoch == s.epoch
    decreases |run|
  {
    if run != [] { SameEpoch(Next(s, run[0]), run[1..]); }
  }

  // Two agents are never initialised at once, and whoever still waits can go on as soon as
  // the initialisation ends, however it ends.
  lemma OneInitialisation(s: State, c1: Caller, c2: Caller)
    requires Inv(s) && c1 in s.callers && c2 in s.callers
    requires s.callers[c1].Initializing? && s.callers[c2].Waiting?
    ensures !Enabled(s, Acquire(c2))
    ensures Enabled(Next(s, InitDone(c1)), Acquire(c2)) && Enabled(Next(s, InitRaises(c1)), Acquire(c2))
    ensures forall c :: c in s.callers && s.callers[c].Initializing? ==> c == c1
  {}

  // After a failed initialisation the next caller in line starts a fresh one.
  lemma FailureIsRetried(s: State, c1: Caller, c2: Caller)
    requires Inv(s) && c1 in s.callers && c2 in s.callers
    requires s.callers[c1].Initializing? && s.callers[c2] == Waiting(s.callers[c1].id) && s.callers[c1].id in s.registry
    ensures var s' := Next(s, InitRaises(c1));
            Enabled(s', Acquire(c2))
            && Next(s', Acquire(c2)).callers[c2] == Initializing(s.callers[c1].id, s.nextAgent)
            && s.nextAgent != s.callers[c1].agent
  {}

  // ---------------------------------------------------------------- closing

  // A close_all runs from its begin, if there is an agent to close, until it has closed the
  // last one or its iteration has raised; no other one is touched.
  lemma CloseAllRuns(s: State, a: Action, c: Caller)
    requires Enabled(s, a) && (a.CloseBegin? || a.CloseStep?)
    ensures c in Next(s, a).closers
            <==> if c != a.caller then c in s.closers
                 else if a.CloseBegin? then |s.instances| > 0
                 else a.more && |s.instances| == s.closers[c]
    ensures c in Next(s, a).closers && c in s.closers ==> Next(s, a).closers[c] == s.closers[c]
  {
    if a.CloseBegin? { BeginCloses(s, a.caller, c); }
  }

  lemma BeginCloses(s: State, b: Caller, c: Caller)
    requires b !in s.closers
    ensures c in DoCloseBegin(s, b).closers <==> if c != b then c in s.closers else |s.instances| > 0
    ensures c in s.closers ==> c in DoCloseBegin(s, b).closers && DoCloseBegin(s, b).closers[c] == s.closers[c]
  {}

  predicate Clears(s: State, a: Action)
    requires Enabled(s, a)
  {
    Next(s, a).epoch != s.epoch
  }

  predicate NoClear(s: State, run: seq<Action>)
    requires IsRun(s, run)
    decreases |run|
  {
    run == [] || (!Clears(s, run[0]) && NoClear(Next(s, run[0]), run[1..]))
  }

  function Cachings(run: seq<Action>): nat {
    if run == [] then 0 else (if run[0].InitDone? then 1 else 0) + Cachings(run[1..])
  }

  // Between clears the cache grows by one agent for each initialisation that succeeds.
  lemma {:induction false} CacheSize(s: State, run: seq<Action>)
    requires Inv(s) && IsRun(s, run) && NoClear(s, run)
    ensures |Final(s, run).instances| == |s.instances| + Cachings(run)
    decreases |run|
  {
    if run != [] {
      StepInv(s, run[0]);
      StepSize(s, run[0]);
      CacheSize(Next(s, run[0]), run[1..]);
    }
  }

  lemma StepSize(s: State, a: Action)
    requires Inv(s) && Enabled(s, a) && !Clears(s, a)
    ensures |Next(s, a).instances| == |s.instances| + (if a.InitDone? then 1 else 0)
  {
    if a.InitDone? {
      var id := s.callers[a.caller].id;
      assert s.instances[id := s.callers[a.caller].agent].Keys == s.instances.Keys + {id};
    } else {
      CacheUntouched(s, a);
    }
  }

  // close_all does not hold the lock while it awaits the agents' close: its last step
  // clears the cache if and only if no initialisation finished since it began (and no
  // other close_all cleared).  Otherwise the iteration raises and the agents stay cached,
  // closed as they are.
  lemma CloseAllClearsIff(s: State, run: seq<Action>, c: Caller)
    requires Inv(s) && |s.instances| > 0 && c !in s.closers
    requires IsRun(Next(s, CloseBegin(c)), run) && NoClear(Next(s, CloseBegin(c)), run)
    requires forall i :: 0 <= i < |run| ==> !((run[i].CloseStep? || run[i].CloseBegin?) && run[i].caller == c)
    ensures var f := Final(Next(s, CloseBegin(c)), run);
            && Enabled(f, CloseStep(c, false))
            && (Clears(f, CloseStep(c, false)) <==> Cachings(run) == 0)
            && (Cachings(run) > 0 ==> Next(f, CloseStep(c, false)).instances == f.instances)
  {
    var s1 := Next(s, CloseBegin(c));
    StepInv(s, CloseBegin(c));
    CacheSize(s1, run);
    CloserStays(s1, run, c);
  }

  lemma {:induction false} CloserStays(s: State, run: seq<Action>, c: Caller)
    requires IsRun(s, run) && c in s.closers
    requires forall i :: 0 <= i < |run| ==> !((run[i].CloseStep? || run[i].CloseBegin?) && run[i].caller == c)
    ensures c in Final(s, run).closers && Final(s, run).closers[c] == s.closers[c]
    decreases |run|
  {
    if run != [] {
      assert !((run[0].CloseStep? || run[0].CloseBegin?) && run[0].caller == c);
      var rest := run[1..];
      assert forall i :: 0 <= i < |rest| ==> rest[i] == run[i + 1];
      CloserStays(Next(s, run[0]), rest, c);
    }
  }

  // ---------------------------------------------------------------- the code

  class Factory {
    var instances: map<AgentId, Agent>
    var lock: Option<Caller>
    const registry: set<AgentId>
    var nextAgent: Agent
    ghost var callers: map<Caller, Pc>
    var closers: map<Caller, nat>
    ghost var epoch: nat
    ghost var cached: map<(nat, AgentId), Agent>

    ghost function View(): State
      reads this
    {
      State(instances, lock, callers, closers, registry, nextAgent, epoch, cached)
    }

    ghost predicate Valid()
      reads this
    {
      Inv(View())
    }

    constructor (registered: set<AgentId>)
      ensures Valid() && Init(View()) && registry == registered
    {
      instances, lock, registry, nextAgent := map[], None, registered, 0;
      callers, closers, epoch, cached := map[], map[], 0, map[];
    }

    // get up to the lock: the agent, if it is cached.
    method Get(c: Caller, id: AgentId) returns (agent: Option<Agent>)
      requires Valid() && c !in callers
      modifies this
      ensures Valid() && View() == DoCall(old(View()), c, id)
      ensures agent == if id in old(instances) then Some(old(instances)[id]) else None
    {
      StepInv(View(), Call(c, id));
      if id in instances {
        callers := callers[c := Done(id, Returned(instances[id], epoch))];
        return Some(instances[id]);
      }
      callers := callers[c := Waiting(id)];
      return None;
    }

    // get with the lock, up to the agent's initialisation: the agent that is cached by now,
    // or the one to initialise; neither if the id is unknown.
    method GetLocked(c: Caller, id: AgentId) returns (agent: Option<Agent>, created: Option<Agent>)
      requires Valid() && lock.None? && c in callers && callers[c] == Waiting(id)
      modifies this
      ensures Valid() && View() == DoAcquire(old(View()), c, id)
      ensures agent == if id in old(instances) then Some(old(instances)[id]) else None
      ensures created == if id !in old(instances) && id in registry then Some(old(nextAgent)) else None
      ensures agent.Some? ==> callers[c] == Done(id, Returned(agent.value, epoch))
    {
      StepInv(View(), Acquire(c));
      agent, created := None, None;
      if id in instances {
        agent := Some(instances[id]);
        callers := callers[c := Done(id, Returned(instances[id], epoch))];
        return;
      }
      if id !in registry {
        callers := callers[c := Done(id, NotRegistered)];
        return;
      }
      created := Some(nextAgent);
      nextAgent := nextAgent + 1;
      lock := Some(c);
      callers := callers[c := Initializing(id, created.value)];
    }

    // get after a successful initialisation.
    method Store(c: Caller, id: AgentId, agent: Agent)
      requires Valid() && c in callers && callers[c] == Initializing(id, agent)
      modifies this
      ensures Valid() && View() == DoInitDone(old(View()), c, id, agent)
    {
      StepInv(View(), InitDone(c));
      instances := instances[id := agent];
      lock := None;
      cached := cached[(epoch, id) := agent];
      callers := callers[c := Done(id, Returned(agent, epoch))];
    }

    // get after an initialisation that raised: the lock goes, nothing is cached.
    method InitializationRaised(c: Caller, id: AgentId)
      requires Valid() && c in callers && callers[c].Initializing? && callers[c].id == id
      modifies this
      ensures Valid() && View() == DoRelease(old(View()), c, id, InitFailed)
      ensures instances == old(instances)
    {
      StepInv(View(), InitRaises(c));
      lock := None;
      callers := callers[c := Done(id, InitFailed)];
    }

    // A cancelled caller gives the lock up if it holds it.
    method CancelGet(c: Caller)
      requires Valid() && c in callers && !callers[c].Done?
      modifies this
      ensures Valid() && View() == DoCancel(old(View()), c)
      ensures instances == old(instances)
    {
      StepInv(View(), Cancel(c));
      if lock == Some(c) { lock := None; }
      callers := callers[c := Done(callers[c].id, Cancelled)];
    }

    // close_all up to its first await, if there is an agent to close.
    method BeginCloseAll(c: Caller)
      requires Valid() && c !in closers
      modifies this
      ensures Valid() && View() == DoCloseBegin(old(View()), c)
    {
      StepInv(View(), CloseBegin(c));
      if |instances| == 0 {
        Clear(c);
      } else {
        closers := closers[c := |instances|];
      }
    }

    // close_all after one agent's close; `raised` is the iterator's error.
    method ContinueCloseAll(c: Caller, more: bool) returns (raised: bool)
      requires Valid() && c in closers
      modifies this
      ensures Valid() && View() == DoCloseStep(old(View()), c, more)
      ensures raised <==> |old(instances)| != old(closers)[c]
    {
      StepInv(View(), CloseStep(c, more));
      raised := |instances| != closers[c];
      if raised {
        closers := closers - {c};
      } else if !more {
        Clear(c);
      }
    }

    // The end of close_all, after an iteration that did not raise.
    method Clear(c: Caller)
      modifies this
      ensures View() == DoClear(old(View()), c)
    {
      instances := map[];
      epoch := epoch + 1;
      closers := closers - {c};
    }
  }
}
