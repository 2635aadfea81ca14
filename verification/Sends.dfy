/**
 Interleaved sends (src/infra/websocket.py).  Any number of calls of
 `send_to_user_with_broadcast` and of the deliveries they cause run at the same time as
 sockets connect, fail and leave, and as routes are written, expire and are pruned.  Every
 action is the code between two awaits; the writes and expiries of routes, which module
 Routes studies, are the environment here.
 */
module Sends {
  import opened Delivery
  import Broadcast

  type SendId = nat

  datatype Endpoint = Endpoint(instance: Instance, user: User, socket: Socket)
  datatype Route = Route(instance: Instance, user: User)

  // How a send ended: oversized, published somewhere, published nowhere and so delivered
  // locally, a Redis command raised and it delivered locally, or its caller was cancelled.
  datatype Outcome = Dropped | Published | FellBack | Raised | Cancelled

  // Before SMEMBERS; before the GET, the SREM or the PUBLISH for member `k`; over.
  datatype Phase =
    | Reading
    | Checking(ids: seq<Instance>, k: nat)
    | Pruning(ids: seq<Instance>, k: nat)
    | Publishing(ids: seq<Instance>, k: nat)
    | Over(outcome: Outcome)

  // `reached` are the instances that a publish has reached so far.
  datatype Send = Send(sender: Instance, user: User, message: Message, phase: Phase, reached: set<Instance>)
  {
    predicate Local() { phase.Over? && (phase.outcome.FellBack? || phase.outcome.Raised?) }
  }

  // The delivery of a send on one instance: from a publish, or local.
  datatype Task = Task(send: SendId, instance: Instance, local: bool)

  datatype Stage =
    | Queued
    | Sending(todo: set<Socket>, done: set<Socket>, failed: set<Socket>)
    | Ended(done: set<Socket>)
  {
    function Done(): set<Socket> { if Queued? then {} else done }
  }

  datatype Receipt = Receipt(send: SendId, to: Endpoint)

  datatype State = State(
    conns: set<Endpoint>,
    keys: set<Route>,           // live route keys
    members: set<Route>,        // members of the users' route sets
    hub: set<Instance>,         // instances whose hub listens to their delivery channel
    sends: map<SendId, Send>,
    tasks: map<Task, Stage>,
    log: multiset<Receipt>)     // every send_text that succeeded

  datatype Action =
    | Connect(e: Endpoint)
    | Disconnect(e: Endpoint)
    | ChangeKey(r: Route, present: bool)
    | ChangeMember(r: Route, present: bool)
    | ChangeHub(i: Instance, listens: bool)
    | Start(id: SendId, sender: Instance, user: User, message: Message)
    | Read(id: SendId, ids: seq<Instance>)
    | Check(id: SendId)
    | Prune(id: SendId)
    | Publish(id: SendId)
    | Finish(id: SendId)
    | Raise(id: SendId, landed: bool)   // a Redis command raises, whether or not it took effect
    | Cancel(id: SendId)
    | Snapshot(task: Task)
    | SendText(task: Task, socket: Socket, ok: bool)
    | Cleanup(task: Task)
    | Abandon(task: Task)               // the hub loses the message, or the delivery is cancelled

  // ---------------------------------------------------------------- transitions

  function Listed(s: State, u: User): set<Instance> { set r | r in s.members && r.user == u :: r.instance }

  function Open(s: State, i: Instance, u: User): set<Socket> {
    set e | e in s.conns && e.instance == i && e.user == u :: e.socket
  }

  predicate Active(s: State, id: SendId) { id in s.sends && !s.sends[id].phase.Over? }

  // The member that the send is at.
  predicate At(s: State, id: SendId) {
    Active(s, id) && !s.sends[id].phase.Reading? && s.sends[id].phase.k < |s.sends[id].phase.ids|
  }

  function Current(s: State, id: SendId): Instance
    requires At(s, id)
  {
    s.sends[id].phase.ids[s.sends[id].phase.k]
  }

  ghost predicate Enabled(s: State, a: Action) {
    match a
    case Start(id, _, _, _) => id !in s.sends
    case Read(id, ids) =>
      Active(s, id) && s.sends[id].phase.Reading? && Broadcast.Ascending(ids)
      && forall i :: i in ids <==> i in Broadcast.Chosen(Listed(s, s.sends[id].user))
    case Check(id) => At(s, id) && s.sends[id].phase.Checking?
    case Prune(id) => At(s, id) && s.sends[id].phase.Pruning?
    case Publish(id) => At(s, id) && s.sends[id].phase.Publishing?
    case Finish(id) => Active(s, id) && s.sends[id].phase.Checking? && !At(s, id)
    case Raise(id, _) => Active(s, id) && (s.sends[id].phase.Reading? || At(s, id))
    case Cancel(id) => Active(s, id)
    case Snapshot(t) => t in s.tasks && s.tasks[t].Queued? && t.send in s.sends
    case SendText(t, ws, _) => t in s.tasks && s.tasks[t].Sending? && ws in s.tasks[t].todo && t.send in s.sends
    case Cleanup(t) => t in s.tasks && s.tasks[t].Sending? && s.tasks[t].todo == {} && t.send in s.sends
    case Abandon(t) => t in s.tasks && !s.tasks[t].Ended?
    case _ => true
  }

  function Toggle<T>(s: set<T>, x: T, present: bool): set<T> { if present then s + {x} else s - {x} }

  function InPhase(s: State, id: SendId, phase: Phase): State
    requires id in s.sends
  {
    s.(sends := s.sends[id := s.sends[id].(phase := phase)])
  }

  function DoCheck(s: State, id: SendId): State
    requires At(s, id)
  {
    var p := s.sends[id].phase;
    InPhase(s, id, if Route(Current(s, id), s.sends[id].user) in s.keys then Publishing(p.ids, p.k) else Pruning(p.ids, p.k))
  }

  function DoPrune(s: State, id: SendId): State
    requires At(s, id)
  {
    var p := s.sends[id].phase;
    InPhase(s, id, Checking(p.ids, p.k + 1)).(members := s.members - {Route(Current(s, id), s.sends[id].user)})
  }

  // The publish takes effect: a listening instance gets the message.
  function Reach(s: State, id: SendId): State
    requires At(s, id)
  {
    var i := Current(s, id);
    if i !in s.hub then s
    else s.(sends := s.sends[id := s.sends[id].(reached := s.sends[id].reached + {i})],
            tasks := s.tasks[Task(id, i, false) := Queued])
  }

  function DoPublish(s: State, id: SendId): State
    requires At(s, id)
  {
    var p := s.sends[id].phase;
    InPhase(Reach(s, id), id, Checking(p.ids, p.k + 1))
  }

  function DeliverLocally(s: State, id: SendId, outcome: Outcome): State
    requires id in s.sends
  {
    InPhase(s, id, Over(outcome)).(tasks := s.tasks[Task(id, s.sends[id].sender, true) := Queued])
  }

  function DoFinish(s: State, id: SendId): State
    requires id in s.sends
  {
    if s.sends[id].reached == {} then DeliverLocally(s, id, FellBack) else InPhase(s, id, Over(Published))
  }

  function DoRaise(s: State, id: SendId, landed: bool): State
    requires Active(s, id)
  {
    DeliverLocally(if landed && At(s, id) && s.sends[id].phase.Publishing? then Reach(s, id) else s, id, Raised)
  }

  function DoSnapshot(s: State, t: Task): State
    requires t.send in s.sends
  {
    var send := s.sends[t.send];
    s.(tasks := s.tasks[t := if Deliverable(send.message) then Sending(Open(s, t.instance, send.user), {}, {}) else Ended({})])
  }

  function Target(s: State, t: Task, ws: Socket): Endpoint
    requires t.send in s.sends
  {
    Endpoint(t.instance, s.sends[t.send].user, ws)
  }

  function DoSendText(s: State, t: Task, ws: Socket, ok: bool): State
    requires t in s.tasks && s.tasks[t].Sending? && t.send in s.sends
  {
    var g := s.tasks[t];
    if ok then s.(tasks := s.tasks[t := g.(todo := g.todo - {ws}, done := g.done + {ws})],
                  log := s.log + multiset{Receipt(t.send, Target(s, t, ws))})
    else s.(tasks := s.tasks[t := g.(todo := g.todo - {ws}, failed := g.failed + {ws})])
  }

  function DoCleanup(s: State, t: Task): State
    requires t in s.tasks && s.tasks[t].Sending? && t.send in s.sends
  {
    s.(conns := s.conns - (set ws | ws in s.tasks[t].failed :: Target(s, t, ws)),
       tasks := s.tasks[t := Ended(s.tasks[t].done)])
  }

  ghost function Next(s: State, a: Action): State
    requires Enabled(s, a)
  {
    match a
    case Connect(e) => s.(conns := s.conns + {e})
    case Disconnect(e) => s.(conns := s.conns - {e})
    case ChangeKey(r, present) => s.(keys := Toggle(s.keys, r, present))
    case ChangeMember(r, present) => s.(members := Toggle(s.members, r, present))
    case ChangeHub(i, listens) => s.(hub := Toggle(s.hub, i, listens))
    case Start(id, sender, u, m) =>
      s.(sends := s.sends[id := Send(sender, u, m, if m.envelopeBytes > MESSAGE_MAX_BYTES then Over(Dropped) else Reading, {})])
    case Read(id, ids) => InPhase(s, id, Checking(ids, 0))
    case Check(id) => DoCheck(s, id)
    case Prune(id) => DoPrune(s, id)
    case Publish(id) => DoPublish(s, id)
    case Finish(id) => DoFinish(s, id)
    case Raise(id, landed) => DoRaise(s, id, landed)
    case Cancel(id) => InPhase(s, id, Over(Cancelled))
    case Snapshot(t) => DoSnapshot(s, t)
    case SendText(t, ws, ok) => DoSendText(s, t, ws, ok)
    case Cleanup(t) => DoCleanup(s, t)
    case Abandon(t) => s.(tasks := s.tasks[t := Ended(s.tasks[t].Done())])
  }

  predicate Init(s: State) {
    s.sends == map[] && s.tasks == map[] && s.log == multiset{}
  }

  // ---------------------------------------------------------------- invariant

  // Before member `k`, having reached passed members only.
  predicate Midway(ids: seq<Instance>, k: nat, reached: set<Instance>) {
    Broadcast.Ascending(ids) && k <= |ids| && forall i :: i in reached ==> i in ids[..k]
  }

  // A send has reached members it has passed, and ends in step with whom it reached.
  predicate SendInv(send: Send) {
    match send.phase
    case Reading => send.reached == {}
    case Checking(ids, k) => Midway(ids, k, send.reached)
    case Pruning(ids, k) => Midway(ids, k, send.reached) && k < |ids|
    case Publishing(ids, k) => Midway(ids, k, send.reached) && k < |ids|
    case Over(outcome) =>
      (outcome.Dropped? || outcome.FellBack? ==> send.reached == {}) && (outcome.Published? ==> send.reached != {})
  }

  // A delivery belongs to an instance reached, or to the sender of a send that ended locally.
  ghost predicate TaskInv(s: State, t: Task) {
    && t.send in s.sends
    && (if t.local then s.sends[t.send].Local() && t.instance == s.sends[t.send].sender
        else t.instance in s.sends[t.send].reached)
    && (t in s.tasks && s.tasks[t].Sending? ==> s.tasks[t].todo !! s.tasks[t].done)
  }

  // Each instance reached has its delivery, and so has the sender after a local end.
  ghost predicate Covered(s: State, id: SendId)
    requires id in s.sends
  {
    && (forall i :: i in s.sends[id].reached ==> Task(id, i, false) in s.tasks)
    && (s.sends[id].Local() ==> Task(id, s.sends[id].sender, true) in s.tasks)
  }

  ghost predicate TasksInv(s: State) {
    (forall t :: t in s.tasks ==> TaskInv(s, t)) && (forall id :: id in s.sends ==> Covered(s, id))
  }

  predicate HandedBy(s: State, t: Task, ws: Socket) { t in s.tasks && ws in s.tasks[t].Done() }

  // How often the message has been handed to the socket.
  function Handed(s: State, id: SendId, e: Endpoint): nat {
    if id in s.sends && s.sends[id].user == e.user
    then (if HandedBy(s, Task(id, e.instance, false), e.socket) then 1 else 0)
         + (if HandedBy(s, Task(id, e.instance, true), e.socket) then 1 else 0)
    else 0
  }

  ghost predicate LogInv(s: State) {
    forall r: Receipt :: s.log[r] == Handed(s, r.send, r.to)
  }

  ghost predicate SendsInv(s: State) { forall id :: id in s.sends ==> SendInv(s.sends[id]) }

  ghost predicate Inv(s: State) { SendsInv(s) && TasksInv(s) && LogInv(s) }

  lemma StepInv(s: State, a: Action)
    requires Inv(s) && Enabled(s, a)
    ensures Inv(Next(s, a))
  {
    SendsStep(s, a);
    TasksStep(s, a);
    LogStep(s, a);
  }

  lemma SendsStep(s: State, a: Action)
    requires SendsInv(s) && Enabled(s, a)
    ensures SendsInv(Next(s, a))
  {}

  // ---------------------------------------------------------------- deliveries

  predicate OfSend(a: Action) {
    a.Read? || a.Check? || a.Prune? || a.Publish? || a.Finish? || a.Raise? || a.Cancel?
  }

  predicate OfTask(a: Action) { a.Snapshot? || a.SendText? || a.Cleanup? || a.Abandon? }

  lemma TasksStep(s: State, a: Action)
    requires SendsInv(s) && TasksInv(s) && Enabled(s, a)
    ensures TasksInv(Next(s, a))
  {
    if OfSend(a) { SendTasks(s, a); } else if OfTask(a) { TaskTasks(s, a); } else { OtherTasks(s, a); }
  }

  lemma OtherTasks(s: State, a: Action)
    requires TasksInv(s) && Enabled(s, a) && !OfSend(a) && !OfTask(a)
    ensures TasksInv(Next(s, a))
  {
    assert forall t :: t in s.tasks ==> TaskInv(s, t) && TaskInv(Next(s, a), t);
    assert forall id :: id in s.sends ==> Covered(s, id) && Covered(Next(s, a), id);
  }

  lemma TaskTasks(s: State, a: Action)
    requires TasksInv(s) && Enabled(s, a) && OfTask(a)
    ensures TasksInv(Next(s, a))
  {
    assert TaskInv(s, a.task);
    StageTasks(s, a.task, Next(s, a).tasks[a.task]);
    assert Next(s, a).tasks == s.tasks[a.task := Next(s, a).tasks[a.task]];
    TasksFrame(s.(tasks := Next(s, a).tasks), Next(s, a));
  }

  lemma TasksFrame(s: State, s': State)
    requires TasksInv(s) && s'.tasks == s.tasks && s'.sends == s.sends
    ensures TasksInv(s')
  {
    assert forall t :: t in s.tasks ==> TaskInv(s, t) && TaskInv(s', t);
    assert forall id :: id in s.sends ==> Covered(s, id) && Covered(s', id);
  }

  lemma SendTasks(s: State, a: Action)
    requires SendsInv(s) && TasksInv(s) && Enabled(s, a) && OfSend(a)
    ensures TasksInv(Next(s, a))
  {
    match a
    case Read(id, ids) => PhaseTasks(s, id, Checking(ids, 0));
    case Check(id) => PhaseTasks(s, id, DoCheck(s, id).sends[id].phase);
    case Prune(id) =>
      PhaseTasks(s, id, DoPrune(s, id).sends[id].phase);
      TasksFrame(InPhase(s, id, DoPrune(s, id).sends[id].phase), DoPrune(s, id));
    case Publish(id) =>
      ReachTasks(s, id);
      PhaseTasks(Reach(s, id), id, DoPublish(s, id).sends[id].phase);
    case Finish(id) =>
      if s.sends[id].reached == {} { LocalTasks(s, id, FellBack); } else { PhaseTasks(s, id, Over(Published)); }
    case Raise(id, landed) => RaiseTasks(s, id, landed);
    case Cancel(id) => PhaseTasks(s, id, Over(Cancelled));
  }

  lemma RaiseTasks(s: State, id: SendId, landed: bool)
    requires SendsInv(s) && TasksInv(s) && Active(s, id)
    ensures TasksInv(DoRaise(s, id, landed))
  {
    if landed && At(s, id) && s.sends[id].phase.Publishing? {
      ReachTasks(s, id);
      LocalTasks(Reach(s, id), id, Raised);
    } else {
      LocalTasks(s, id, Raised);
    }
  }

  lemma PhaseTasks(s: State, id: SendId, phase: Phase)
    requires TasksInv(s) && Active(s, id) && (phase.Over? ==> !phase.outcome.FellBack? && !phase.outcome.Raised?)
    ensures TasksInv(InPhase(s, id, phase))
  {
    assert forall t :: t in s.tasks ==> TaskInv(s, t) && TaskInv(InPhase(s, id, phase), t);
    assert forall o :: o in s.sends ==> Covered(s, o) && Covered(InPhase(s, id, phase), o);
  }

  // No delivery for the current member exists yet, since only passed ones are reached.
  lemma ReachTasks(s: State, id: SendId)
    requires SendsInv(s) && TasksInv(s) && At(s, id)
    ensures TasksInv(Reach(s, id)) && Active(Reach(s, id), id)
    ensures Task(id, Current(s, id), false) !in s.tasks
  {
    var i, s' := Current(s, id), Reach(s, id);
    assert SendInv(s.sends[id]);
    assert i !in s.sends[id].reached;
    assert Task(id, i, false) in s.tasks ==> TaskInv(s, Task(id, i, false));
    assert forall t :: t in s.tasks ==> TaskInv(s, t) && TaskInv(s', t);
    assert forall o :: o in s.sends ==> Covered(s, o) && Covered(s', o);
  }

  lemma LocalTasks(s: State, id: SendId, outcome: Outcome)
    requires TasksInv(s) && Active(s, id) && (outcome.FellBack? || outcome.Raised?)
    ensures TasksInv(DeliverLocally(s, id, outcome))
    ensures Task(id, s.sends[id].sender, true) !in s.tasks
  {
    var s' := DeliverLocally(s, id, outcome);
    assert Task(id, s.sends[id].sender, true) in s.tasks ==> TaskInv(s, Task(id, s.sends[id].sender, true));
    assert forall t :: t in s.tasks ==> TaskInv(s, t) && TaskInv(s', t);
    assert forall o :: o in s.sends ==> Covered(s, o) && Covered(s', o);
  }

  lemma StageTasks(s: State, t: Task, stage: Stage)
    requires TasksInv(s) && t in s.tasks && (stage.Sending? ==> stage.todo !! stage.done)
    ensures TasksInv(s.(tasks := s.tasks[t := stage]))
  {
    var s' := s.(tasks := s.tasks[t := stage]);
    assert forall o :: o in s.tasks ==> TaskInv(s, o) && TaskInv(s', o);
    assert forall id :: id in s.sends ==> Covered(s, id) && Covered(s', id);
  }

  // ---------------------------------------------------------------- the log

  // Nothing is handed out, and no user changes.
  ghost predicate HandsOutNothing(s: State, s': State) {
    && s'.log == s.log
    && (forall id :: id in s.sends ==> id in s'.sends && s'.sends[id].user == s.sends[id].user)
    && (forall t, ws :: HandedBy(s', t, ws) <==> HandedBy(s, t, ws))
  }

  lemma LogFrame(s: State, s': State)
    requires TasksInv(s) && LogInv(s) && HandsOutNothing(s, s')
    ensures LogInv(s')
  {
    forall r: Receipt ensures s'.log[r] == Handed(s', r.send, r.to) {
      assert s.log[r] == Handed(s, r.send, r.to);
      if r.send !in s.sends {
        forall local ensures Task(r.send, r.to.instance, local) !in s.tasks {
          assert Task(r.send, r.to.instance, local) in s.tasks ==> TaskInv(s, Task(r.send, r.to.instance, local));
        }
      }
    }
  }

  lemma LogStep(s: State, a: Action)
    requires Inv(s) && Enabled(s, a)
    ensures LogInv(Next(s, a))
  {
    if a.SendText? && a.ok {
      Delivered(s, a.task, a.socket);
    } else {
      QuietStep(s, a);
      LogFrame(s, Next(s, a));
    }
  }

  lemma QuietStep(s: State, a: Action)
    requires Inv(s) && Enabled(s, a) && !(a.SendText? && a.ok)
    ensures HandsOutNothing(s, Next(s, a))
  {
    if OfTask(a) {
      QuietTask(s, a);
    } else if a.Publish? || a.Finish? || a.Raise? {
      QuietDelivery(s, a);
    } else {
      QuietRest(s, a);
    }
  }

  lemma QuietRest(s: State, a: Action)
    requires Enabled(s, a) && !OfTask(a) && !a.Publish? && !a.Finish? && !a.Raise?
    ensures HandsOutNothing(s, Next(s, a))
  {
    assert Next(s, a).tasks == s.tasks;
  }

  lemma QuietTask(s: State, a: Action)
    requires Enabled(s, a) && OfTask(a) && !(a.SendText? && a.ok)
    ensures HandsOutNothing(s, Next(s, a))
  {
    assert Next(s, a).tasks == s.tasks[a.task := Next(s, a).tasks[a.task]];
    assert Next(s, a).tasks[a.task].Done() == s.tasks[a.task].Done();
  }

  // A delivery that begins has handed out nothing.
  lemma QuietQueue(s: State, s': State, t: Task)
    requires t !in s.tasks && s'.tasks == s.tasks[t := Queued] && s'.log == s.log
    requires forall id :: id in s.sends ==> id in s'.sends && s'.sends[id].user == s.sends[id].user
    ensures HandsOutNothing(s, s')
  {}

  lemma QuietReach(s: State, id: SendId)
    requires Inv(s) && At(s, id)
    ensures HandsOutNothing(s, Reach(s, id))
  {
    ReachTasks(s, id);
    if Current(s, id) in s.hub { QuietQueue(s, Reach(s, id), Task(id, Current(s, id), false)); }
  }

  lemma QuietLocal(s: State, id: SendId, outcome: Outcome)
    requires TasksInv(s) && Active(s, id) && (outcome.FellBack? || outcome.Raised?)
    ensures HandsOutNothing(s, DeliverLocally(s, id, outcome))
  {
    LocalTasks(s, id, outcome);
    QuietQueue(s, DeliverLocally(s, id, outcome), Task(id, s.sends[id].sender, true));
  }

  lemma QuietDelivery(s: State, a: Action)
    requires Inv(s) && Enabled(s, a) && (a.Publish? || a.Finish? || a.Raise?)
    ensures HandsOutNothing(s, Next(s, a))
  {
    match a
    case Publish(id) => QuietReach(s, id);
    case Finish(id) => QuietLocal(s, id, FellBack);
    case Raise(id, landed) =>
      if landed && At(s, id) && s.sends[id].phase.Publishing? {
        QuietReach(s, id);
        ReachTasks(s, id);
        QuietLocal(Reach(s, id), id, Raised);
      } else {
        QuietLocal(s, id, Raised);
      }
    case _ =>
  }

  // A socket still to do has not been done, so this is its first from this delivery.
  lemma Delivered(s: State, t: Task, ws: Socket)
    requires Inv(s) && Enabled(s, SendText(t, ws, true))
    ensures LogInv(DoSendText(s, t, ws, true))
  {
    var s' := DoSendText(s, t, ws, true);
    assert TaskInv(s, t);
    forall r: Receipt ensures s'.log[r] == Handed(s', r.send, r.to) {
      assert s.log[r] == Handed(s, r.send, r.to);
      if r == Receipt(t.send, Target(s, t, ws)) {
        assert !HandedBy(s, t, ws) && HandedBy(s', t, ws);
        assert Task(r.send, r.to.instance, t.local) == t;
        assert HandedBy(s', Task(r.send, r.to.instance, !t.local), ws) == HandedBy(s, Task(r.send, r.to.instance, !t.local), ws);
      } else {
        forall local | r.send in s.sends && s.sends[r.send].user == r.to.user
          ensures HandedBy(s', Task(r.send, r.to.instance, local), r.to.socket)
                  == HandedBy(s, Task(r.send, r.to.instance, local), r.to.socket)
        {}
      }
    }
  }

  // ---------------------------------------------------------------- runs

  ghost predicate IsRun(s: State, run: seq<Action>)
    decreases |run|
  {
    run == [] || (Enabled(s, run[0]) && IsRun(Next(s, run[0]), run[1..]))
  }

  ghost function Final(s: State, run: seq<Action>): State
    requires IsRun(s, run)
    decreases |run|
  {
    if run == [] then s else Final(Next(s, run[0]), run[1..])
  }

  lemma {:induction false} RunInv(s: State, run: seq<Action>)
    requires Inv(s) && IsRun(s, run)
    ensures Inv(Final(s, run))
    decreases |run|
  {
    if run != [] {
      StepInv(s, run[0]);
      RunInv(Next(s, run[0]), run[1..]);
    }
  }

  // ---------------------------------------------------------------- at most once

  // A Redis command raised after the sender's own instance had been reached.
  predicate RaisedLate(s: State, id: SendId) {
    id in s.sends && s.sends[id].phase == Over(Raised) && s.sends[id].sender in s.sends[id].reached
  }

  // In every run, however the sends and all else interleave: a message is handed to sockets
  // of its user alone, and to each at most once, or twice on the sender's own instance if
  // a Redis command of the send raised after that instance had been reached.
  lemma AtMostOnce(s: State, run: seq<Action>, id: SendId, e: Endpoint)
    requires Init(s) && IsRun(s, run)
    ensures var f := Final(s, run);
            && f.log[Receipt(id, e)] <= (if RaisedLate(f, id) && e.instance == f.sends[id].sender then 2 else 1)
            && (f.log[Receipt(id, e)] > 0 ==> id in f.sends && f.sends[id].user == e.user)
  {
    RunInv(s, run);
    var f := Final(s, run);
    assert f.log[Receipt(id, e)] == Handed(f, id, e);
    assert forall local :: Task(id, e.instance, local) in f.tasks ==> TaskInv(f, Task(id, e.instance, local));
    if id in f.sends { assert SendInv(f.sends[id]); }
  }

  // ---------------------------------------------------------------- how often exactly

  // A delivery to the socket that has failed on it and not yet dropped it.
  predicate FailedOn(s: State, t: Task, e: Endpoint) {
    t in s.tasks && s.tasks[t].Sending? && t.send in s.sends && e.socket in s.tasks[t].failed
    && Target(s, t, e.socket) == e
  }

  // The socket is connected, and no delivery is about to drop it.
  ghost predicate Healthy(s: State, e: Endpoint) { e in s.conns && forall t :: !FailedOn(s, t, e) }

  // The socket stays and works, and its instance completes the deliveries of this message.
  predicate Keeps(s: State, a: Action, id: SendId, e: Endpoint) {
    match a
    case Disconnect(gone) => gone != e
    case SendText(t, ws, ok) => t.send in s.sends && Target(s, t, ws) == e ==> ok
    case Abandon(t) => !(t.send == id && t.instance == e.instance)
    case _ => true
  }

  ghost predicate KeepsRun(s: State, run: seq<Action>, id: SendId, e: Endpoint)
    requires IsRun(s, run)
    decreases |run|
  {
    run == [] || (Keeps(s, run[0], id, e) && KeepsRun(Next(s, run[0]), run[1..], id, e))
  }

  // A delivery to the socket is not over, or has handed it the message.
  predicate OnTheWay(s: State, t: Task, ws: Socket) {
    t in s.tasks ==>
      match s.tasks[t]
      case Queued => true
      case Sending(todo, done, _) => ws in todo || ws in done
      case Ended(done) => ws in done
  }

  // Both possible deliveries of a deliverable message will hand it to the socket.
  ghost predicate Coming(s: State, id: SendId, e: Endpoint) {
    id in s.sends && s.sends[id].user == e.user && Deliverable(s.sends[id].message) ==>
      forall local :: OnTheWay(s, Task(id, e.instance, local), e.socket)
  }

  lemma KeepsStep(s: State, a: Action, id: SendId, e: Endpoint)
    requires Inv(s) && Healthy(s, e) && Coming(s, id, e) && Enabled(s, a) && Keeps(s, a, id, e)
    ensures Healthy(Next(s, a), e) && Coming(Next(s, a), id, e)
  {
    if OfTask(a) {
      HealthyTask(s, a, id, e);
      ComingTask(s, a, id, e);
    } else if a.Publish? || a.Finish? || a.Raise? {
      KeepsDelivery(s, a, id, e);
    } else {
      KeepsRest(s, a, id, e);
    }
  }

  lemma HealthyTask(s: State, a: Action, id: SendId, e: Endpoint)
    requires Healthy(s, e) && Enabled(s, a) && OfTask(a) && Keeps(s, a, id, e)
    ensures Healthy(Next(s, a), e)
  {
    assert !FailedOn(s, a.task, e);
    assert forall t :: t != a.task ==> FailedOn(Next(s, a), t, e) == FailedOn(s, t, e);
  }

  lemma ComingTask(s: State, a: Action, id: SendId, e: Endpoint)
    requires Inv(s) && Healthy(s, e) && Coming(s, id, e) && Enabled(s, a) && OfTask(a) && Keeps(s, a, id, e)
    ensures Coming(Next(s, a), id, e)
  {
    if id in s.sends && s.sends[id].user == e.user && Deliverable(s.sends[id].message) {
      forall local ensures OnTheWay(Next(s, a), Task(id, e.instance, local), e.socket) {
        var t := Task(id, e.instance, local);
        assert OnTheWay(s, t, e.socket);
        if t == a.task && a.Snapshot? { assert e.socket in Open(s, t.instance, e.user); }
      }
    }
  }

  // Sockets and messages stay, and deliveries only begin.
  ghost predicate OnlyQueues(s: State, s': State) {
    && s'.conns == s.conns
    && (forall o :: o in s.sends ==>
          o in s'.sends && s'.sends[o].user == s.sends[o].user && s'.sends[o].message == s.sends[o].message)
    && (forall t :: t in s.tasks ==> t in s'.tasks)
    && (forall t :: t in s'.tasks ==> s'.tasks[t].Queued? || (t in s.tasks && s'.tasks[t] == s.tasks[t]))
  }

  lemma QueuesOnly(s: State, a: Action)
    requires Enabled(s, a) && (a.Publish? || a.Finish? || a.Raise?)
    ensures OnlyQueues(s, Next(s, a))
  {}

  lemma KeepsDelivery(s: State, a: Action, id: SendId, e: Endpoint)
    requires Inv(s) && Healthy(s, e) && Coming(s, id, e) && Enabled(s, a) && (a.Publish? || a.Finish? || a.Raise?)
    ensures Healthy(Next(s, a), e) && Coming(Next(s, a), id, e)
  {
    QueuesOnly(s, a);
    QueuedKeeps(s, Next(s, a), id, e);
    assert id in s.sends || id !in Next(s, a).sends;
  }

  lemma QueuedKeeps(s: State, s': State, id: SendId, e: Endpoint)
    requires TasksInv(s) && Healthy(s, e) && Coming(s, id, e) && OnlyQueues(s, s')
    ensures Healthy(s', e) && (id in s.sends ==> Coming(s', id, e))
  {
    forall t ensures !FailedOn(s', t, e) {
      assert !FailedOn(s, t, e);
      assert t in s.tasks ==> TaskInv(s, t);
    }
    assert forall t :: OnTheWay(s, t, e.socket) ==> OnTheWay(s', t, e.socket);
  }

  lemma KeepsRest(s: State, a: Action, id: SendId, e: Endpoint)
    requires Inv(s) && Healthy(s, e) && Coming(s, id, e) && Enabled(s, a) && Keeps(s, a, id, e)
    requires !OfTask(a) && !a.Publish? && !a.Finish? && !a.Raise?
    ensures Healthy(Next(s, a), e) && Coming(Next(s, a), id, e)
  {
    var s' := Next(s, a);
    assert s'.tasks == s.tasks;
    forall t ensures !FailedOn(s', t, e) {
      assert !FailedOn(s, t, e);
      assert t in s.tasks ==> TaskInv(s, t);
    }
    forall local ensures OnTheWay(s', Task(id, e.instance, local), e.socket) == OnTheWay(s, Task(id, e.instance, local), e.socket) {
      if id !in s.sends { assert Task(id, e.instance, local) in s.tasks ==> TaskInv(s, Task(id, e.instance, local)); }
    }
    if id !in s.sends { NoTaskYet(s, id); }
  }

  lemma NoTaskYet(s: State, id: SendId)
    requires TasksInv(s) && id !in s.sends
    ensures forall i, local :: Task(id, i, local) !in s.tasks
  {
    forall i, local ensures Task(id, i, local) !in s.tasks {
      assert Task(id, i, local) in s.tasks ==> TaskInv(s, Task(id, i, local));
    }
  }

  lemma {:induction false} KeepsRunComing(s: State, run: seq<Action>, id: SendId, e: Endpoint)
    requires Inv(s) && Healthy(s, e) && Coming(s, id, e) && IsRun(s, run) && KeepsRun(s, run, id, e)
    ensures Inv(Final(s, run)) && Coming(Final(s, run), id, e)
    decreases |run|
  {
    if run != [] {
      StepInv(s, run[0]);
      KeepsStep(s, run[0], id, e);
      KeepsRunComing(Next(s, run[0]), run[1..], id, e);
    }
  }

  // The send is over, and so are its deliveries on the instance.
  ghost predicate Settled(s: State, id: SendId, i: Instance) {
    && id in s.sends && s.sends[id].phase.Over?
    && forall local :: Task(id, i, local) in s.tasks ==> s.tasks[Task(id, i, local)].Ended?
  }

  // A socket of the addressed user that stays and works throughout is handed a deliverable
  // message once if its instance was reached, and once more if it is on the sender's
  // instance and the send ended locally: twice exactly after such a late error.
  lemma HandedExactly(s: State, run: seq<Action>, id: SendId, e: Endpoint)
    requires Inv(s) && id !in s.sends && Healthy(s, e) && IsRun(s, run) && KeepsRun(s, run, id, e)
    requires Settled(Final(s, run), id, e.instance)
    requires Final(s, run).sends[id].user == e.user && Deliverable(Final(s, run).sends[id].message)
    ensures var f := Final(s, run);
            var send := f.sends[id];
            && f.log[Receipt(id, e)] == (if e.instance in send.reached then 1 else 0)
                                        + (if send.Local() && e.instance == send.sender then 1 else 0)
            && (f.log[Receipt(id, e)] == 2 <==> RaisedLate(f, id) && e.instance == send.sender)
  {
    KeepsRunComing(s, run, id, e);
    var f := Final(s, run);
    assert f.log[Receipt(id, e)] == Handed(f, id, e);
    assert SendInv(f.sends[id]) && Covered(f, id);
    forall local ensures HandedBy(f, Task(id, e.instance, local), e.socket) <==> Task(id, e.instance, local) in f.tasks {
      assert OnTheWay(f, Task(id, e.instance, local), e.socket);
    }
    assert forall local :: Task(id, e.instance, local) in f.tasks ==> TaskInv(f, Task(id, e.instance, local));
  }

  lemma RunCons(s: State, a: Action, run: seq<Action>)
    requires Enabled(s, a) && IsRun(Next(s, a), run)
    ensures IsRun(s, [a] + run) && Final(s, [a] + run) == Final(Next(s, a), run)
  {
    assert ([a] + run)[0] == a && ([a] + run)[1..] == run;
  }

  // A queued delivery after it has handed the message to the one open socket.
  function OnceHanded(s: State, t: Task, ws: Socket): State
    requires t.send in s.sends
  {
    s.(tasks := s.tasks[t := Sending({}, {ws}, {})], log := s.log + multiset{Receipt(t.send, Target(s, t, ws))})
  }

  lemma DeliveryRun(s: State, t: Task, ws: Socket, rest: seq<Action>) returns (run: seq<Action>)
    requires t in s.tasks && s.tasks[t].Queued? && t.send in s.sends && Deliverable(s.sends[t.send].message)
    requires Open(s, t.instance, s.sends[t.send].user) == {ws} && IsRun(OnceHanded(s, t, ws), rest)
    ensures IsRun(s, run) && Final(s, run) == Final(OnceHanded(s, t, ws), rest)
  {
    var s1 := Next(s, Snapshot(t));
    assert s1.tasks[t] == Sending({ws}, {}, {});
    assert {ws} - {ws} == {} && {} + {ws} == {ws};
    assert s1.tasks[t := Sending({}, {ws}, {})] == s.tasks[t := Sending({}, {ws}, {})];
    RunCons(s1, SendText(t, ws, true), rest);
    run := [Snapshot(t)] + ([SendText(t, ws, true)] + rest);
    RunCons(s, Snapshot(t), [SendText(t, ws, true)] + rest);
  }

  lemma ReadBoth(s: State, u: User)
    requires s.members == {Route(0, u), Route(1, u)}
    ensures forall i :: i in [0, 1] <==> i in Broadcast.Chosen(Listed(s, u))
  {
    assert Route(0, u) in s.members && Route(1, u) in s.members;
    assert Listed(s, u) == {0, 1};
    Broadcast.FewAreAllChosen({0, 1});
  }

  lemma TwiceFrom(s: State, u: User) returns (run: seq<Action>)
    requires s.conns == {Endpoint(0, u, 0)} && s.log == multiset{} && 0 in s.sends
    requires s.tasks == map[Task(0, 0, false) := Queued, Task(0, 0, true) := Queued]
    requires s.sends[0].user == u && Deliverable(s.sends[0].message)
    ensures IsRun(s, run) && Final(s, run).log[Receipt(0, Endpoint(0, u, 0))] == 2
  {
    var first, second := Task(0, 0, false), Task(0, 0, true);
    var s1 := OnceHanded(s, first, 0);
    assert Open(s, 0, u) == {0} && Open(s1, 0, u) == {0} by { assert Endpoint(0, u, 0) in s.conns; }
    run := DeliveryRun(s1, second, 0, []);
    run := DeliveryRun(s, first, 0, run);
  }

  // Instance 0 publishes to itself, and the GET for the second member raises.
  lemma RaisesLate(s: State, u: User, m: Message) returns (run: seq<Action>)
    requires s.conns == {Endpoint(0, u, 0)} && Route(0, u) in s.keys && 0 in s.hub && s.tasks == map[]
    requires s.sends == map[0 := Send(0, u, m, Checking([0, 1], 0), {})] && s.log == multiset{} && Deliverable(m)
    ensures IsRun(s, run) && Final(s, run).log[Receipt(0, Endpoint(0, u, 0))] == 2
  {
    var s1 := Next(s, Check(0));
    var s2 := Next(s1, Publish(0));
    run := TwiceFrom(Next(s2, Raise(0, false)), u);
    RunCons(s2, Raise(0, false), run);
    run := [Raise(0, false)] + run;
    RunCons(s1, Publish(0), run);
    run := [Publish(0)] + run;
    RunCons(s, Check(0), run);
    run := [Check(0)] + run;
  }

  // The late error in a run from the start: the one socket of the user gets the message twice.
  lemma LateErrorDeliversTwice(u: User, m: Message) returns (s: State, run: seq<Action>)
    requires Deliverable(m) && m.envelopeBytes <= MESSAGE_MAX_BYTES
    ensures Init(s) && IsRun(s, run) && Final(s, run).log[Receipt(0, Endpoint(0, u, 0))] == 2
  {
    var routes := {Route(0, u), Route(1, u)};
    s := State({Endpoint(0, u, 0)}, routes, routes, {0, 1}, map[], map[], multiset{});
    var s1 := Next(s, Start(0, 0, u, m));
    ReadBoth(s1, u);
    run := RaisesLate(Next(s1, Read(0, [0, 1])), u, m);
    RunCons(s1, Read(0, [0, 1]), run);
    run := [Read(0, [0, 1])] + run;
    RunCons(s, Start(0, 0, u, m), run);
    run := [Start(0, 0, u, m)] + run;
  }

  // ---------------------------------------------------------------- exactly once

  // The instance is registered for the user and listens.
  predicate Registered(s: State, i: Instance, u: User) {
    Route(i, u) in s.keys && Route(i, u) in s.members && i in s.hub
  }

  // It is so in every state of the run, and within the fan-out limit when the members are read.
  ghost predicate RegisteredRun(s: State, run: seq<Action>, id: SendId, i: Instance, u: User)
    requires IsRun(s, run)
    decreases |run|
  {
    && Registered(s, i, u)
    && (run != [] ==>
          && (run[0].Read? && run[0].id == id ==> i in Broadcast.Chosen(Listed(s, u)))
          && RegisteredRun(Next(s, run[0]), run[1..], id, i, u))
  }

  predicate Passed(ids: seq<Instance>, k: nat, reached: set<Instance>, i: Instance) {
    i in ids && k <= |ids| && (i in ids[..k] ==> i in reached)
  }

  // The send has the instance still before it, or has reached it.
  predicate Reaches(send: Send, i: Instance) {
    match send.phase
    case Reading => true
    case Checking(ids, k) => Passed(ids, k, send.reached, i)
    case Pruning(ids, k) => Passed(ids, k, send.reached, i) && k < |ids| && ids[k] != i
    case Publishing(ids, k) => Passed(ids, k, send.reached, i)
    case Over(outcome) => outcome.Published? || outcome.FellBack? ==> i in send.reached
  }

  ghost predicate Reaching(s: State, id: SendId, i: Instance, u: User) {
    id in s.sends && s.sends[id].user == u ==> Reaches(s.sends[id], i)
  }

  lemma ReachingStep(s: State, a: Action, id: SendId, i: Instance, u: User)
    requires SendsInv(s) && Enabled(s, a) && Reaching(s, id, i, u) && Registered(s, i, u)
    requires a.Read? && a.id == id ==> i in Broadcast.Chosen(Listed(s, u))
    ensures Reaching(Next(s, a), id, i, u)
  {}

  lemma {:induction false} ReachingRun(s: State, run: seq<Action>, id: SendId, i: Instance, u: User)
    requires Inv(s) && IsRun(s, run) && Reaching(s, id, i, u) && RegisteredRun(s, run, id, i, u)
    ensures Reaching(Final(s, run), id, i, u)
    decreases |run|
  {
    if run != [] {
      StepInv(s, run[0]);
      ReachingStep(s, run[0], id, i, u);
      ReachingRun(Next(s, run[0]), run[1..], id, i, u);
    }
  }

  // A socket that stays and works on an instance that stays registered gets each accepted
  // message of its user exactly once, whatever connects, leaves, is pruned or is sent in
  // between, if no Redis command of the send raises and its caller is not cancelled.
  lemma ExactlyOnceWhileRegistered(s: State, run: seq<Action>, id: SendId, e: Endpoint)
    requires Inv(s) && id !in s.sends && Healthy(s, e) && IsRun(s, run) && KeepsRun(s, run, id, e)
    requires RegisteredRun(s, run, id, e.instance, e.user)
    requires Settled(Final(s, run), id, e.instance) && Final(s, run).sends[id].user == e.user
    ensures var f := Final(s, run);
            var send := f.sends[id];
            Deliverable(send.message) && (send.phase.outcome.Published? || send.phase.outcome.FellBack?) ==>
              f.log[Receipt(id, e)] == 1
  {
    ReachingRun(s, run, id, e.instance, e.user);
    RunInv(s, run);
    var f := Final(s, run);
    assert SendInv(f.sends[id]);
    if Deliverable(f.sends[id].message) { HandedExactly(s, run, id, e); }
  }
}
