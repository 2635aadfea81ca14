/**
 Runs of interleaved sends (src/infra/websocket.py): every send and every delivery comes to
 its end in boundedly many steps of its own, and what is connected, registered and listening
 follows from the actions of a run.
 */
module SendRuns {
  import opened Delivery
  import opened Sends
  import Broadcast

  // ---------------------------------------------------------------- progress

  // How many steps of its own a send can still take: one to read the members, two for each
  // of at most 100 of them, and one to finish.
  function PhaseRank(p: Phase): nat {
    match p
    case Reading => 202
    case Checking(ids, k) => if k <= |ids| then 2 * (|ids| - k) + 1 else 1
    case Pruning(ids, k) => if k < |ids| then 2 * (|ids| - k) else 1
    case Publishing(ids, k) => if k < |ids| then 2 * (|ids| - k) else 1
    case Over(_) => 0
  }

  function SendRank(s: State, id: SendId): nat { if id in s.sends then PhaseRank(s.sends[id].phase) else 203 }

  predicate OwnStep(a: Action, id: SendId) { (a.Start? || OfSend(a)) && a.id == id }

  lemma ManyBelow(members: set<Instance>, ids: seq<Instance>)
    requires Broadcast.Ascending(ids) && |ids| > 100 && forall i :: i in ids ==> i in members
    ensures |Broadcast.Below(members, ids[100])| >= 100
  {
    var first := Broadcast.Elements(ids[..100]);
    Broadcast.ElementsSize(ids[..100]);
    var below := Broadcast.Below(members, ids[100]);
    forall j | j in first ensures j in below {
      assert j in ids;
    }
    assert below == first + (below - first);
  }

  // The fan-out limit bounds the members read.
  lemma AtMostLimit(members: set<Instance>, ids: seq<Instance>)
    requires Broadcast.Ascending(ids) && forall i :: i in ids <==> i in Broadcast.Chosen(members)
    ensures |ids| <= 100
  {
    assert |ids| > 100 ==> ids[100] in Broadcast.Chosen(members);
    if |ids| > 100 { ManyBelow(members, ids); }
  }

  lemma OwnStepLowers(s: State, a: Action, id: SendId)
    requires SendsInv(s) && Enabled(s, a) && OwnStep(a, id)
    ensures SendRank(Next(s, a), id) < SendRank(s, id)
  {
    if a.Read? {
      AtMostLimit(Listed(s, s.sends[id].user), a.ids);
    } else if a.Publish? {
      ReachRank(s, id);
    } else if !a.Start? {
      assert SendInv(s.sends[id]);
    }
  }

  lemma ReachRank(s: State, id: SendId)
    requires At(s, id) && s.sends[id].phase.Publishing?
    ensures SendRank(DoPublish(s, id), id) < SendRank(s, id)
  {}

  lemma OthersLeaveSend(s: State, a: Action, id: SendId)
    requires Enabled(s, a) && !OwnStep(a, id)
    ensures SendRank(Next(s, a), id) == SendRank(s, id)
  {
    if OfSend(a) { OtherSend(s, a, id); }
  }

  lemma OtherSend(s: State, a: Action, id: SendId)
    requires Enabled(s, a) && OfSend(a) && a.id != id
    ensures (id in Next(s, a).sends <==> id in s.sends) && (id in s.sends ==> Next(s, a).sends[id] == s.sends[id])
  {}

  // A send that is not over has a next step, whatever the rest of the system does.
  lemma SendCanGoOn(s: State, id: SendId)
    requires SendsInv(s) && Active(s, id)
    ensures Enabled(s, Cancel(id))
    ensures !s.sends[id].phase.Reading? ==>
              Enabled(s, Check(id)) || Enabled(s, Prune(id)) || Enabled(s, Publish(id)) || Enabled(s, Finish(id))
  {
    assert SendInv(s.sends[id]);
  }

  function OwnSteps(run: seq<Action>, id: SendId): nat {
    if run == [] then 0 else (if OwnStep(run[0], id) then 1 else 0) + OwnSteps(run[1..], id)
  }

  // Whatever happens meanwhile, a send takes at most 203 steps of its own, and fewer are
  // left after each.
  lemma {:induction false} SendEnds(s: State, run: seq<Action>, id: SendId)
    requires Inv(s) && IsRun(s, run)
    ensures OwnSteps(run, id) + SendRank(Final(s, run), id) <= SendRank(s, id)
    decreases |run|
  {
    if run != [] {
      StepInv(s, run[0]);
      if OwnStep(run[0], id) { OwnStepLowers(s, run[0], id); } else { OthersLeaveSend(s, run[0], id); }
      SendEnds(Next(s, run[0]), run[1..], id);
    }
  }

  // The same for a delivery that has its snapshot: one step for each socket, and one to end.
  function StageRank(s: State, t: Task): nat {
    if t in s.tasks && s.tasks[t].Sending? then |s.tasks[t].todo| + 1 else 0
  }

  lemma TaskStepLowers(s: State, a: Action)
    requires TasksInv(s) && Enabled(s, a) && OfTask(a) && s.tasks[a.task].Sending?
    ensures StageRank(Next(s, a), a.task) < StageRank(s, a.task)
    ensures s.tasks[a.task].todo != {} ==> exists ws :: Enabled(s, SendText(a.task, ws, true))
    ensures s.tasks[a.task].todo == {} ==> Enabled(s, Cleanup(a.task))
  {
    assert TaskInv(s, a.task);
    if ws :| ws in s.tasks[a.task].todo { assert Enabled(s, SendText(a.task, ws, true)); }
  }

  function TaskSteps(run: seq<Action>, t: Task): nat {
    if run == [] then 0 else (if OfTask(run[0]) && run[0].task == t then 1 else 0) + TaskSteps(run[1..], t)
  }

  lemma {:induction false} DeliveryEnds(s: State, run: seq<Action>, t: Task)
    requires Inv(s) && IsRun(s, run) && t in s.tasks && !s.tasks[t].Queued?
    ensures t in Final(s, run).tasks && !Final(s, run).tasks[t].Queued?
    ensures TaskSteps(run, t) + StageRank(Final(s, run), t) <= StageRank(s, t)
    decreases |run|
  {
    if run != [] {
      var a := run[0];
      StepInv(s, a);
      if OfTask(a) && a.task == t { TaskStepLowers(s, a); } else { OthersLeaveTask(s, a, t); }
      DeliveryEnds(Next(s, a), run[1..], t);
    }
  }

  lemma OthersLeaveTask(s: State, a: Action, t: Task)
    requires Inv(s) && Enabled(s, a) && t in s.tasks && !(OfTask(a) && a.task == t)
    ensures t in Next(s, a).tasks && Next(s, a).tasks[t] == s.tasks[t]
  {
    if OfSend(a) {
      LeaveTask(s, a, t);
    }
  }

  lemma LeaveTask(s: State, a: Action, t: Task)
    requires Inv(s) && Enabled(s, a) && t in s.tasks && OfSend(a)
    ensures t in Next(s, a).tasks && Next(s, a).tasks[t] == s.tasks[t]
  {
    if At(s, a.id) { ReachTasks(s, a.id); }
    LocalTasks(s, a.id, Raised);
  }

  // ---------------------------------------------------------------- the environment

  // What a run does to one socket, one route and one instance, read off its actions.
  datatype Around = Around(open: bool, failing: set<Task>, key: bool, member: bool, listens: bool)

  ghost function AroundIn(s: State, e: Endpoint): Around {
    var r := Route(e.instance, e.user);
    Around(e in s.conns, (set t | t in s.tasks && FailedOn(s, t, e)), r in s.keys, r in s.members, e.instance in s.hub)
  }

  // A socket is open until it disconnects or the delivery that has failed on it is cleaned
  // up; a member stays until it is removed or a send prunes it.
  ghost function AroundAfter(s: State, w: Around, a: Action, e: Endpoint): Around
    requires Enabled(s, a)
  {
    match a
    case Connect(x) => if x == e then w.(open := true) else w
    case Disconnect(x) => if x == e then w.(open := false) else w
    case ChangeKey(r, present) => if r == Route(e.instance, e.user) then w.(key := present) else w
    case ChangeMember(r, present) => if r == Route(e.instance, e.user) then w.(member := present) else w
    case ChangeHub(i, listens) => if i == e.instance then w.(listens := listens) else w
    case Prune(id) => if Current(s, id) == e.instance && s.sends[id].user == e.user then w.(member := false) else w
    case SendText(t, ws, ok) => if !ok && Target(s, t, ws) == e then w.(failing := w.failing + {t}) else w
    case Cleanup(t) => w.(open := w.open && t !in w.failing, failing := w.failing - {t})
    case Abandon(t) => w.(failing := w.failing - {t})
    case _ => w
  }

  lemma AroundStep(s: State, a: Action, e: Endpoint)
    requires Inv(s) && Enabled(s, a)
    ensures AroundIn(Next(s, a), e) == AroundAfter(s, AroundIn(s, e), a, e)
  {
    FailingStep(s, a, e);
    OpenStep(s, a, e);
    RouteStep(s, a, e);
  }

  lemma RouteStep(s: State, a: Action, e: Endpoint)
    requires Enabled(s, a)
    ensures var w, w' := AroundAfter(s, AroundIn(s, e), a, e), AroundIn(Next(s, a), e);
            w'.key == w.key && w'.member == w.member && w'.listens == w.listens
  {}

  lemma OpenStep(s: State, a: Action, e: Endpoint)
    requires Enabled(s, a)
    ensures AroundIn(Next(s, a), e).open == AroundAfter(s, AroundIn(s, e), a, e).open
  {}

  lemma FailingStep(s: State, a: Action, e: Endpoint)
    requires Inv(s) && Enabled(s, a)
    ensures AroundIn(Next(s, a), e).failing == AroundAfter(s, AroundIn(s, e), a, e).failing
  {
    if OfTask(a) {
      TaskFailing(s, a, e);
    } else {
      forall t ensures t in s.tasks && FailedOn(s, t, e) <==> t in Next(s, a).tasks && FailedOn(Next(s, a), t, e) {
        OthersFail(s, a, t, e);
      }
    }
  }

  lemma TaskFailing(s: State, a: Action, e: Endpoint)
    requires Enabled(s, a) && OfTask(a)
    ensures AroundIn(Next(s, a), e).failing == AroundAfter(s, AroundIn(s, e), a, e).failing
  {
    forall t | t != a.task ensures FailedOn(Next(s, a), t, e) == FailedOn(s, t, e) {}
  }

  lemma OthersFail(s: State, a: Action, t: Task, e: Endpoint)
    requires Inv(s) && Enabled(s, a) && !OfTask(a)
    ensures FailedOn(s, t, e) <==> FailedOn(Next(s, a), t, e)
  {
    assert t in s.tasks ==> TaskInv(s, t);
    if a.Publish? || a.Finish? || a.Raise? {
      QueuesOnly(s, a);
      if t in s.tasks { LeaveTask(s, a, t); }
      QueuedFail(s, Next(s, a), t, e);
    } else {
      KeptFail(s, a, t, e);
    }
  }

  lemma QueuedFail(s: State, s': State, t: Task, e: Endpoint)
    requires OnlyQueues(s, s') && (t in s.tasks ==> TaskInv(s, t) && s'.tasks[t] == s.tasks[t])
    ensures FailedOn(s, t, e) <==> FailedOn(s', t, e)
  {}

  lemma KeptFail(s: State, a: Action, t: Task, e: Endpoint)
    requires Inv(s) && Enabled(s, a) && !OfTask(a) && !a.Publish? && !a.Finish? && !a.Raise?
    ensures FailedOn(s, t, e) <==> FailedOn(Next(s, a), t, e)
  {
    assert t in s.tasks ==> TaskInv(s, t);
    assert Next(s, a).tasks == s.tasks;
  }

  ghost function AroundAfterAll(s: State, w: Around, run: seq<Action>, e: Endpoint): Around
    requires IsRun(s, run)
    decreases |run|
  {
    if run == [] then w else AroundAfterAll(Next(s, run[0]), AroundAfter(s, w, run[0], e), run[1..], e)
  }

  // In every run which sockets are open, which routes are live and listed and which
  // instances listen follows from the actions.
  lemma {:induction false} SurroundingsAre(s: State, run: seq<Action>, e: Endpoint)
    requires Inv(s) && IsRun(s, run)
    ensures AroundIn(Final(s, run), e) == AroundAfterAll(s, AroundIn(s, e), run, e)
    decreases |run|
  {
    if run != [] {
      StepInv(s, run[0]);
      AroundStep(s, run[0], e);
      SurroundingsAre(Next(s, run[0]), run[1..], e);
    }
  }
}
