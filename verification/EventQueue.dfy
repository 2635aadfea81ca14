/**
 The bounded event queue between a graph run and its consumer (src/agents/core/base.py,
 `_stream`).  A producer puts events, waiting while the queue is full, and at its end puts
 terminal markers without waiting, evicting the oldest items to make room.  A consumer takes
 items until a marker, an interrupt, a cancellation or a failing event handler; the last
 three drain what is left.
 */
module EventQueue {
  import opened Basics

  type Event = nat

  const MAX_DRAINED: nat := 100

  datatype Item = Ev(event: Event) | Error(code: nat) | Done

  // How the producer ends.  An interrupt or a cancellation puts no error marker.
  datatype End = Normal | Failed(code: nat) | Interrupted

  datatype Producer = Running | Ended(how: End)

  datatype Outcome = Completed | Raised(code: nat) | Stopped | HandlerFailed

  datatype Consumer =
    | Waiting
    | Processing
    | Draining(left: nat, outcome: Outcome)
    | Finished(outcome: Outcome)

  datatype State = State(
    queue: seq<Item>,
    maxsize: nat,
    producer: Producer,
    consumer: Consumer,
    produced: seq<Event>,     // history: events put, in order
    handled: seq<Event>,      // history: events given to the event processor, in order
    cut: nat,                 // history: how many were handled when the producer ended
    backlog: nat)             // history: the queue's length at that moment

  datatype Action =
    | Produce(event: Event)
    | End(how: End)
    | Take(interrupted: bool)
    | Timeout(interrupted: bool)
    | HandlerReturns
    | HandlerRaises
    | Cancel
    | DrainOne(timedOut: bool)
    | DrainEnd

  // ---------------------------------------------------------------- transitions

  // put_terminal_queue_item: evict from the front until the item fits.
  function TerminalPut(q: seq<Item>, maxsize: nat, item: Item): seq<Item>
    requires 1 <= maxsize
    decreases |q|
  {
    if |q| < maxsize then q + [item] else TerminalPut(q[1..], maxsize, item)
  }

  // The producer's except and finally clauses.
  function Terminated(q: seq<Item>, maxsize: nat, how: End): seq<Item>
    requires 1 <= maxsize
  {
    TerminalPut(if how.Failed? then TerminalPut(q, maxsize, Error(how.code)) else q, maxsize, Done)
  }

  predicate Enabled(s: State, a: Action) {
    match a
    case Produce(_) => s.producer.Running? && |s.queue| < s.maxsize
    case End(_) => s.producer.Running?
    case Take(_) => s.consumer.Waiting? && s.queue != []
    case Timeout(_) => s.consumer.Waiting? && s.queue == []
    case HandlerReturns => s.consumer.Processing?
    case HandlerRaises => s.consumer.Processing?
    case Cancel => s.consumer.Waiting? || s.consumer.Processing?
    case DrainOne(_) => s.consumer.Draining? && s.consumer.left > 0 && s.queue != []
    case DrainEnd => s.consumer.Draining? && (s.consumer.left == 0 || s.queue == [])
  }

  function Drain(o: Outcome): Consumer { Draining(MAX_DRAINED, o) }

  function WithItem(handled: seq<Event>, item: Item): seq<Event> {
    if item.Ev? then handled + [item.event] else handled
  }

  function Next(s: State, a: Action): State
    requires 1 <= s.maxsize && Enabled(s, a)
  {
    match a
    case Produce(e) => s.(queue := s.queue + [Ev(e)], produced := s.produced + [e])
    case End(how) =>
      s.(queue := Terminated(s.queue, s.maxsize, how), producer := Ended(how),
         cut := |s.handled|, backlog := |s.queue|)
    case Take(interrupted) =>
      s.(queue := s.queue[1..],
         handled := WithItem(s.handled, s.queue[0]),
         consumer := match s.queue[0]
                     case Ev(_) => Processing
                     case Error(code) => Drain(Raised(code))
                     case Done => if interrupted then Drain(Stopped) else Finished(Completed))
    case Timeout(interrupted) => if interrupted then s.(consumer := Drain(Stopped)) else s
    case HandlerReturns => s.(consumer := Waiting)
    case HandlerRaises => s.(consumer := Drain(HandlerFailed))
    case Cancel => s.(consumer := Drain(Stopped))
    case DrainOne(timedOut) =>
      s.(queue := s.queue[1..],
         handled := WithItem(s.handled, s.queue[0]),
         consumer := if s.queue[0].Ev? && timedOut then Finished(s.consumer.outcome)
                     else Draining(s.consumer.left - 1, s.consumer.outcome))
    case DrainEnd => s.(consumer := Finished(s.consumer.outcome))
  }

  predicate Init(s: State) {
    s.queue == [] && s.maxsize >= 2 && s.producer.Running? && s.consumer.Waiting? && s.produced == [] && s.handled == []
  }

  // ---------------------------------------------------------------- invariant

  function Events(q: seq<Item>): seq<Event> {
    if q == [] then []
    else if q[0].Ev? then [q[0].event] + Events(q[1..])
    else Events(q[1..])
  }

  predicate AllEvents(q: seq<Item>) { forall i :: 0 <= i < |q| ==> q[i].Ev? }

  function Markers(how: End): seq<Item> { if how.Failed? then [Error(how.code), Done] else [Done] }

  // The number of events evicted to make room for the markers.
  function Gap(s: State): nat
    requires s.producer.Ended?
  {
    Max(0, s.backlog + |Markers(s.producer.how)| - s.maxsize)
  }

  // What the consumer is offered in all: the produced events but for the evicted ones,
  // which are the next it would have taken when the producer ended.
  ghost predicate Offered(s: State, events: seq<Event>) {
    match s.producer
    case Running => events == s.produced
    case Ended(_) => s.cut + Gap(s) <= |s.produced|
                     && events == s.produced[..s.cut] + s.produced[s.cut + Gap(s)..]
  }

  // Events, and behind them the markers of the producer's end.
  ghost predicate MarkersBehind(q: seq<Item>, how: End) {
    if q != [] && q[0].Ev? then MarkersBehind(q[1..], how) else q == Markers(how)
  }

  // The queue holds events, then the markers not taken yet.
  ghost predicate Shape(s: State) {
    match s.producer
    case Running => AllEvents(s.queue)
    case Ended(how) =>
      || MarkersBehind(s.queue, how)
      || ((s.consumer.Draining? || s.consumer.Finished?) && LastOf(s.queue, how))
  }

  // What can be left of the markers.
  predicate LastOf(q: seq<Item>, how: End) { q == Markers(how) || q == [Done] || q == [] }

  // A consumer that met a marker has been handed every event before it, and the marker is
  // the one of the producer's end.
  ghost predicate OutcomeFits(s: State) {
    match s.consumer
    case Draining(_, Raised(code)) => s.producer == Ended(Failed(code)) && Events(s.queue) == []
    case Finished(Raised(code)) => s.producer == Ended(Failed(code)) && Events(s.queue) == []
    case Finished(Completed) => s.producer.Ended? && !s.producer.how.Failed? && s.queue == []
    case Draining(_, Completed) => false
    case _ => true
  }

  ghost predicate Inv(s: State) {
    && 2 <= s.maxsize && |s.queue| <= s.maxsize
    && (s.producer.Ended? ==> s.backlog <= s.maxsize)
    && Offered(s, s.handled + Events(s.queue))
    && Shape(s) && OutcomeFits(s)
  }

  lemma {:induction false} EventsAppend(p: seq<Item>, q: seq<Item>)
    ensures Events(p + q) == Events(p) + Events(q)
  {
    if p == [] {
      AppendEmpty(q);
      AppendEmpty(Events(q));
    } else {
      TailOfAppend(p, q);
      EventsAppend(p[1..], q);
      if p[0].Ev? { Assoc([p[0].event], Events(p[1..]), Events(q)); }
    }
  }

  lemma {:induction false} EventsOfEvents(q: seq<Item>, k: nat)
    requires AllEvents(q) && k <= |q|
    ensures |Events(q)| == |q| && Events(q[k..]) == Events(q)[k..]
  {
    if q != [] {
      EventsOfEvents(q[1..], if k == 0 then 0 else k - 1);
      if k > 0 { assert q[k..] == q[1..][k - 1..]; } else { assert q[0..] == q; }
    }
  }

  // The terminal put drops just enough of the oldest items.
  lemma {:induction false} TerminalPutIs(q: seq<Item>, maxsize: nat, item: Item)
    requires 1 <= maxsize
    ensures var k := Max(0, |q| + 1 - maxsize); TerminalPut(q, maxsize, item) == q[k..] + [item]
    decreases |q|
  {
    if |q| >= maxsize {
      TerminalPutIs(q[1..], maxsize, item);
      var k := Max(0, |q| + 1 - maxsize);
      assert q[1..][k - 1..] == q[k..];
    }
  }

  // With room for two markers, the error marker survives the second terminal put.
  lemma TerminatedIs(q: seq<Item>, maxsize: nat, how: End)
    requires 2 <= maxsize && |q| <= maxsize
    ensures var k := Max(0, |q| + |Markers(how)| - maxsize);
            k <= |q| && k <= |Markers(how)| && Terminated(q, maxsize, how) == q[k..] + Markers(how)
  {
    if how.Failed? {
      TerminalPutIs(q, maxsize, Error(how.code));
      var q1 := TerminalPut(q, maxsize, Error(how.code));
      TerminalPutIs(q1, maxsize, Done);
      var k1 := Max(0, |q| + 1 - maxsize);
      var k2 := Max(0, |q1| + 1 - maxsize);
      assert q1 == q[k1..] + [Error(how.code)];
      assert q1[k2..] == q[k1 + k2..] + [Error(how.code)];
      assert q[k1 + k2..] + [Error(how.code)] + [Done] == q[k1 + k2..] + Markers(how);
    } else {
      TerminalPutIs(q, maxsize, Done);
    }
  }

  lemma CutEvents(handled: seq<Event>, queued: seq<Event>, k: nat)
    requires k <= |queued|
    ensures var all := handled + queued; handled + queued[k..] == all[..|handled|] + all[|handled| + k..]
  {}

  lemma {:induction false} EventsThenMarkers(q: seq<Item>, how: End)
    requires AllEvents(q)
    ensures MarkersBehind(q + Markers(how), how)
  {
    if q == [] {
      assert q + Markers(how) == Markers(how);
    } else {
      assert (q + Markers(how))[1..] == q[1..] + Markers(how);
      EventsThenMarkers(q[1..], how);
    }
  }

  lemma EndInv(s: State, how: End)
    requires Inv(s) && s.producer.Running?
    ensures Inv(Next(s, End(how)))
  {
    var k := Max(0, |s.queue| + |Markers(how)| - s.maxsize);
    var q := s.queue[k..] + Markers(how);
    TerminatedIs(s.queue, s.maxsize, how);
    assert AllEvents(s.queue[k..]);
    EventsThenMarkers(s.queue[k..], how);
    TerminatedEvents(s.handled, s.queue, k, how);
    assert Next(s, End(how)).queue == q && Gap(Next(s, End(how))) == k;
  }

  lemma TerminatedEvents(handled: seq<Event>, q: seq<Item>, k: nat, how: End)
    requires AllEvents(q) && k <= |q|
    ensures var all := handled + Events(q);
            && |all| == |handled| + |q|
            && handled + Events(q[k..] + Markers(how)) == all[..|handled|] + all[|handled| + k..]
  {
    EventsAppend(q[k..], Markers(how));
    MarkersAreNoEvents(how);
    AppendEmpty(Events(q[k..]));
    EventsOfEvents(q, k);
    CutEvents(handled, Events(q), k);
  }

  lemma MarkersAreNoEvents(how: End)
    ensures Events(Markers(how)) == [] && Events(Markers(how)[1..]) == []
  {
    assert Events([Done]) == [];
    if how.Failed? { assert Markers(how)[1..] == [Done]; }
  }

  lemma PopEvents(handled: seq<Event>, q: seq<Item>)
    requires q != []
    ensures handled + Events(q) == WithItem(handled, q[0]) + Events(q[1..])
  {
    if q[0].Ev? { Assoc(handled, [q[0].event], Events(q[1..])); }
  }

  lemma PopInv(s: State, a: Action)
    requires Inv(s) && Enabled(s, a) && (a.Take? || a.DrainOne?)
    ensures Inv(Next(s, a))
  {
    PopShape(s.queue, s.producer);
    PopOffered(s, a);
  }

  lemma PopOffered(s: State, a: Action)
    requires s.maxsize >= 1 && Enabled(s, a) && (a.Take? || a.DrainOne?) && Offered(s, s.handled + Events(s.queue))
    ensures Offered(Next(s, a), Next(s, a).handled + Events(Next(s, a).queue))
  {
    PopEvents(s.handled, s.queue);
  }

  lemma PopShape(q: seq<Item>, p: Producer)
    requires q != []
    requires p.Running? ==> AllEvents(q)
    requires p.Ended? ==> MarkersBehind(q, p.how) || LastOf(q, p.how)
    ensures p.Running? ==> AllEvents(q[1..])
    ensures p.Ended? && q[0].Ev? ==> MarkersBehind(q[1..], p.how)
    ensures p.Ended? && !q[0].Ev? ==> LastOf(q[1..], p.how) && Events(q[1..]) == []
    ensures p.Ended? && MarkersBehind(q, p.how) && !q[0].Ev? ==> q == Markers(p.how)
  {
    if p.Ended? {
      MarkersAreNoEvents(p.how);
      if !MarkersBehind(q, p.how) { LastTail(q, p.how); }
    }
  }

  lemma LastTail(q: seq<Item>, how: End)
    requires q != [] && LastOf(q, how)
    ensures LastOf(q[1..], how) && !q[0].Ev?
    ensures Events(q) == [] && Events(q[1..]) == []
  {
    MarkersAreNoEvents(how);
    if |q| == 1 { assert q == [Done] && q[1..] == []; } else { assert q[1..] == [Done]; }
  }

  lemma ProduceInv(s: State, e: Event)
    requires Inv(s) && Enabled(s, Produce(e))
    ensures Inv(Next(s, Produce(e)))
  {
    EventsAppend(s.queue, [Ev(e)]);
    OneEvent(e);
    Assoc(s.handled, Events(s.queue), [e]);
  }

  lemma OneEvent(e: Event)
    ensures Events([Ev(e)]) == [e]
  {
    assert Events([Ev(e)][1..]) == [];
  }

  lemma StepInv(s: State, a: Action)
    requires Inv(s) && Enabled(s, a)
    ensures Inv(Next(s, a))
  {
    match a
    case Produce(e) => ProduceInv(s, e);
    case End(how) => EndInv(s, how);
    case Take(_) => PopInv(s, a);
    case DrainOne(_) => PopInv(s, a);
    case _ =>
  }

  // ---------------------------------------------------------------- runs

  predicate IsRun(s: State, run: seq<Action>)
    requires 1 <= s.maxsize
    decreases |run|
  {
    run == [] || (Enabled(s, run[0]) && IsRun(Next(s, run[0]), run[1..]))
  }

  function Final(s: State, run: seq<Action>): State
    requires 1 <= s.maxsize && IsRun(s, run)
    decreases |run|
  {
    if run == [] then s else Final(Next(s, run[0]), run[1..])
  }

  lemma {:induction false} RunInv(s: State, run: seq<Action>)
    requires Inv(s) && IsRun(s, run)
    ensures Inv(Final(s, run)) && Final(s, run).maxsize == s.maxsize
    decreases |run|
  {
    if run != [] {
      StepInv(s, run[0]);
      RunInv(Next(s, run[0]), run[1..]);
    }
  }

  // The events that the producer puts in a run.
  function Puts(run: seq<Action>): seq<Event> {
    if run == [] then [] else (if run[0].Produce? then [run[0].event] else []) + Puts(run[1..])
  }

  // Nothing that is put before the end is forgotten.
  lemma {:induction false} ProducedIs(s: State, run: seq<Action>)
    requires 1 <= s.maxsize && IsRun(s, run)
    ensures Final(s, run).produced == s.produced + Puts(run)
    decreases |run|
  {
    if run == [] {
      AppendEmpty(s.produced);
    } else {
      ProducedIs(Next(s, run[0]), run[1..]);
      Assoc(s.produced, if run[0].Produce? then [run[0].event] else [], Puts(run[1..]));
      AppendEmpty(s.produced);
    }
  }

  // In every run events are handled in production order, and all that can be missing is
  // one block of Gap events: at most one event after a normal end and two after an error.
  lemma HandledInOrder(s: State, run: seq<Action>)
    requires Init(s) && IsRun(s, run)
    ensures Final(s, run).produced == Puts(run)
    ensures var f := Final(s, run);
            if f.producer.Running? then f.handled <= f.produced
            else && f.cut + Gap(f) <= |f.produced|
                 && f.handled <= f.produced[..f.cut] + f.produced[f.cut + Gap(f)..]
                 && Gap(f) <= (if f.producer.how.Failed? then 2 else 1)
  {
    assert Events([]) == [];
    assert s.handled + Events(s.queue) == [];
    RunInv(s, run);
    ProducedIs(s, run);
    AppendEmpty(Puts(run));
  }

  // A run that ends at a marker handled every other event, and what it reports is what
  // happened: an error of the producer is raised, never replaced by completion.
  lemma NothingMasked(s: State, run: seq<Action>)
    requires Init(s) && IsRun(s, run) && Final(s, run).consumer.Finished?
    ensures
      var f := Final(s, run);
      && (f.consumer.outcome == Completed ==> f.producer.Ended? && !f.producer.how.Failed?)
      && (forall code :: f.consumer.outcome == Raised(code) ==> f.producer == Ended(Failed(code)))
      && (f.consumer.outcome == Completed || f.consumer.outcome.Raised? ==>
            f.producer.Ended? && f.cut + Gap(f) <= |f.produced| && f.handled == f.produced[..f.cut] + f.produced[f.cut + Gap(f)..]
            && (Gap(f) == 0 ==> f.handled == f.produced))
  {
    assert Events([]) == [];
    assert s.handled + Events(s.queue) == [];
    RunInv(s, run);
    var f := Final(s, run);
    assert f.handled + [] == f.handled;
    if f.producer.Ended? && Gap(f) == 0 {
      assert f.produced[..f.cut] + f.produced[f.cut..] == f.produced;
    }
  }

  // ---------------------------------------------------------------- progress

  predicate OfConsumer(a: Action) { !a.Produce? && !a.End? }

  function Measure(s: State): nat {
    match s.consumer
    case Waiting => 2 * |s.queue| + 2
    case Processing => 2 * |s.queue| + 3
    case Draining(_, _) => 2 * |s.queue| + 1
    case Finished(_) => 0
  }

  // After the producer's end the consumer always has a step, and each brings it closer to
  // its end: it cannot wait for ever, because a marker is still ahead.
  lemma ConsumerProgress(s: State)
    requires Inv(s) && s.producer.Ended? && !s.consumer.Finished?
    ensures exists a :: OfConsumer(a) && Enabled(s, a)
    ensures forall a :: OfConsumer(a) && Enabled(s, a) ==> Measure(Next(s, a)) < Measure(s)
  {
    match s.consumer
    case Waiting =>
      assert s.queue != [];
      assert Enabled(s, Take(false));
    case Processing => assert Enabled(s, HandlerReturns);
    case Draining(left, _) =>
      if left == 0 || s.queue == [] { assert Enabled(s, DrainEnd); } else { assert Enabled(s, DrainOne(false)); }
  }

  // Before the producer's end nobody is stuck: a full queue leaves the consumer a step.
  lemma NoDeadlock(s: State, e: Event)
    requires Inv(s) && s.producer.Running? && !s.consumer.Finished?
    ensures Enabled(s, Produce(e)) || exists a :: OfConsumer(a) && Enabled(s, a)
  {
    if |s.queue| == s.maxsize {
      match s.consumer
      case Waiting => assert Enabled(s, Take(false));
      case Processing => assert Enabled(s, HandlerReturns);
      case Draining(left, _) =>
        if left == 0 { assert Enabled(s, DrainEnd); } else { assert Enabled(s, DrainOne(false)); }
    }
  }

  predicate ConsumerOnly(run: seq<Action>) { forall i :: 0 <= i < |run| ==> OfConsumer(run[i]) }

  // After the producer's end every run of the consumer is finite, and one that cannot be
  // extended has finished.
  lemma {:induction false} ConsumerFinishes(s: State, run: seq<Action>)
    requires Inv(s) && s.producer.Ended? && IsRun(s, run) && ConsumerOnly(run)
    ensures |run| <= Measure(s)
    ensures (forall a :: OfConsumer(a) ==> !Enabled(Final(s, run), a)) ==> Final(s, run).consumer.Finished?
    decreases |run|
  {
    if run == [] {
      if !s.consumer.Finished? { ConsumerProgress(s); }
    } else {
      assert OfConsumer(run[0]);
      ConsumerProgress(s);
      StepInv(s, run[0]);
      assert forall i :: 0 <= i < |run[1..]| ==> run[1..][i] == run[i + 1];
      ConsumerFinishes(Next(s, run[0]), run[1..]);
    }
  }

  // ---------------------------------------------------------------- draining

  // The steps after which the consumer has to hand over what is left, and how it will end.
  predicate BreaksOff(s: State, a: Action, o: Outcome)
    requires 1 <= s.maxsize && Enabled(s, a)
  {
    match a
    case Cancel => o == Stopped
    case Timeout(interrupted) => interrupted && o == Stopped
    case Take(interrupted) => (s.queue[0].Done? && interrupted && o == Stopped) || (s.queue[0].Error? && o == Raised(s.queue[0].code))
    case HandlerRaises => o == HandlerFailed
    case _ => false
  }

  function Drained(run: seq<Action>): nat {
    if run == [] then 0 else (if run[0].DrainOne? then 1 else 0) + Drained(run[1..])
  }

  // The first n items of the queue have gone, their events handed over in order, and the
  // consumer has ended; n is the limit or the queue's length unless an event timed out.
  ghost predicate HandedOver(f: State, handled: seq<Event>, queue: seq<Item>, left: nat, n: nat, o: Outcome, timedOut: bool) {
    && n <= Min(left, |queue|) && f.queue == queue[n..] && f.handled == handled + Events(queue[..n])
    && f.consumer == Finished(o)
    && (n < Min(left, |queue|) ==> timedOut && n > 0 && queue[n - 1].Ev?)
  }

  lemma {:induction false} DrainRun(s: State, run: seq<Action>)
    requires 1 <= s.maxsize && s.consumer.Draining? && IsRun(s, run) && ConsumerOnly(run) && Final(s, run).consumer.Finished?
    ensures HandedOver(Final(s, run), s.handled, s.queue, s.consumer.left, Drained(run), s.consumer.outcome, DrainOne(true) in run)
    decreases |run|
  {
    var a, s' := run[0], Next(s, run[0]);
    assert OfConsumer(a);
    assert forall i :: 0 <= i < |run[1..]| ==> run[1..][i] == run[i + 1];
    if a.DrainOne? {
      if s'.consumer.Finished? {
        NothingAfterEnd(s', run[1..]);
      } else {
        DrainRun(s', run[1..]);
      }
      FirstItem(s.queue, s.handled, Drained(run[1..]));
    } else {
      NothingAfterEnd(s', run[1..]);
      assert s.queue[0..] == s.queue && Events(s.queue[..0]) == [];
    }
  }

  lemma FirstItem(q: seq<Item>, handled: seq<Event>, n: nat)
    requires q != [] && n < |q|
    ensures q[1..][n..] == q[n + 1..]
    ensures handled + Events(q[..n + 1]) == WithItem(handled, q[0]) + Events(q[1..][..n])
  {
    assert q[..n + 1][1..] == q[1..][..n];
    PopEvents(handled, q[..n + 1]);
  }

  lemma NothingAfterEnd(s: State, run: seq<Action>)
    requires 1 <= s.maxsize && s.consumer.Finished? && IsRun(s, run) && ConsumerOnly(run)
    ensures run == []
  {
    assert run != [] ==> OfConsumer(run[0]);
  }

  // A stream that is cancelled, is interrupted, fails or meets a failing handler drains:
  // whatever it does then, it hands over the events among the next 100 items, or among
  // all if there are fewer, stopping early only at one that times out, and ends as it broke off.
  lemma BrokenOffDrains(s: State, run: seq<Action>, o: Outcome)
    requires 1 <= s.maxsize && run != [] && IsRun(s, run) && BreaksOff(s, run[0], o)
    requires ConsumerOnly(run) && Final(s, run).consumer.Finished?
    ensures var left := if run[0].Take? then s.queue[1..] else s.queue;
            && HandedOver(Final(s, run), s.handled, left, 100, Drained(run), o, DrainOne(true) in run)
            && (DrainOne(true) !in run ==> Drained(run) == Min(100, |left|))
  {
    assert forall i :: 0 <= i < |run[1..]| ==> run[1..][i] == run[i + 1];
    DrainRun(Next(s, run[0]), run[1..]);
  }

  // With room for one marker only, "done" evicts the error: the capacity bound is needed.
  lemma CapacityOneMasksError(q: seq<Item>, code: nat)
    requires |q| <= 1
    ensures Terminated(q, 1, Failed(code)) == [Done]
  {
    TerminalPutIs(q, 1, Error(code));
    TerminalPutIs(TerminalPut(q, 1, Error(code)), 1, Done);
  }

  // ---------------------------------------------------------------- the code

  lemma {:induction false} Extend(s: State, run: seq<Action>, a: Action)
    requires 1 <= s.maxsize && IsRun(s, run) && Enabled(Final(s, run), a)
    ensures 1 <= Final(s, run).maxsize
    ensures IsRun(s, run + [a]) && Final(s, run + [a]) == Next(Final(s, run), a)
    decreases |run|
  {
    if run == [] {
      assert [] + [a] == [a] && [a][1..] == [];
    } else {
      TailOfAppend(run, [a]);
      Extend(Next(s, run[0]), run[1..], a);
    }
  }

  lemma OneMoreTaken(q: seq<Item>, taken: nat)
    requires taken < |q|
    ensures Events(q[..taken + 1]) == WithItem(Events(q[..taken]), q[taken])
  {
    EventsAppend(q[..taken], [q[taken]]);
    assert q[..taken + 1] == q[..taken] + [q[taken]];
    if q[taken].Ev? { OneEvent(q[taken].event); } else { assert Events([q[taken]]) == []; }
  }

  // How often the consumer has waited for an item.
  function Waits(run: seq<Action>): nat {
    if run == [] then 0
    else
      var last := run[|run| - 1];
      Waits(run[..|run| - 1]) + (if last.Take? || last.Timeout? || last.Cancel? then 1 else 0)
  }

  lemma WaitsSnoc(run: seq<Action>, a: Action)
    ensures Waits(run + [a]) == Waits(run) + (if a.Take? || a.Timeout? || a.Cancel? then 1 else 0)
  {
    assert (run + [a])[..|run|] == run;
  }

  // One round of the consumer loop: what the producer does before the item is taken, and
  // what the cancellation, the interrupt flag and the event handler say.
  datatype Round = Round(producer: seq<Action>, cancelled: bool, interrupted: bool, handlerRaises: bool)

  // What the stream's fields say of a state in which the consumer waits.
  ghost predicate Mirrors(f: State, queue: seq<Item>, maxsize: nat, streamDone: bool) {
    f.queue == queue && f.maxsize == maxsize && f.consumer.Waiting? && (f.producer.Running? <==> !streamDone)
  }

  // Where the loop leaves the consumer: waiting, at its end, or about to drain 100 items.
  ghost predicate Leaves(c: Consumer, outcome: Option<Outcome>) {
    match outcome
    case None => c.Waiting?
    case Some(Completed) => c == Finished(Completed)
    case Some(o) => c == Draining(100, o)
  }

  class EventStream {
    var queue: seq<Item>
    const maxsize: nat
    var streamDone: bool
    var streamError: Option<nat>

    constructor (size: nat)
      ensures queue == [] && maxsize == size && !streamDone && streamError == None
    {
      queue, maxsize, streamDone, streamError := [], size, false, None;
    }

    method PutTerminalQueueItem(item: Item)
      requires 1 <= maxsize
      modifies `queue
      ensures queue == TerminalPut(old(queue), maxsize, item)
    {
      while true
        invariant TerminalPut(queue, maxsize, item) == TerminalPut(old(queue), maxsize, item)
        decreases |queue|
      {
        if |queue| < maxsize {
          queue := queue + [item];
          return;
        }
        queue := queue[1..];
      }
    }

    // The end of run_stream.
    method FinishStream(how: End)
      requires 1 <= maxsize
      modifies this
      ensures queue == Terminated(old(queue), maxsize, how) && streamDone
      ensures streamError == if how.Failed? then Some(how.code) else old(streamError)
    {
      if how.Failed? {
        streamError := Some(how.code);
        PutTerminalQueueItem(Error(how.code));
      }
      streamDone := true;
      PutTerminalQueueItem(Done);
    }

    // The consumer loop over what is queued once the producer has ended.
    method ConsumeAll(how: End) returns (handled: seq<Event>, outcome: Outcome)
      requires MarkersBehind(queue, how)
      modifies `queue
      ensures handled == Events(old(queue))
      ensures outcome == if how.Failed? then Raised(how.code) else Completed
    {
      handled := [];
      while true
        invariant MarkersBehind(queue, how) && handled + Events(queue) == Events(old(queue))
        decreases |queue|
      {
        MarkersAreNoEvents(how);
        PopEvents(handled, queue);
        var item := queue[0];
        queue := queue[1..];
        if item == Done { return handled, Completed; }
        if item.Error? { return handled, Raised(item.code); }
        handled := handled + [item.event];
      }
    }

    // The producer's side of one round; an event that does not fit waits for another.
    method Produces(actions: seq<Action>, ghost s: State, ghost before: seq<Action>) returns (ghost run: seq<Action>)
      requires 1 <= s.maxsize && IsRun(s, before) && Mirrors(Final(s, before), queue, maxsize, streamDone)
      modifies this
      ensures IsRun(s, run) && Mirrors(Final(s, run), queue, maxsize, streamDone)
      ensures Final(s, run).handled == Final(s, before).handled && Waits(run) == Waits(before)
    {
      run := before;
      for i := 0 to |actions|
        invariant IsRun(s, run) && Mirrors(Final(s, run), queue, maxsize, streamDone)
        invariant Final(s, run).handled == Final(s, before).handled && Waits(run) == Waits(before)
      {
        if streamDone { return; }
        WaitsSnoc(run, actions[i]);
        if actions[i].Produce? && |queue| < maxsize {
          Extend(s, run, actions[i]);
          queue := queue + [Ev(actions[i].event)];
          run := run + [actions[i]];
        } else if actions[i].End? {
          Extend(s, run, actions[i]);
          FinishStream(actions[i].how);
          run := run + [actions[i]];
        }
      }
    }

    // The consumer loop under any schedule of the producer, cancellations, interrupts and
    // failing handlers is a run of the protocol.
    method Consume(rounds: seq<Round>, ghost s: State)
      returns (handled: seq<Event>, outcome: Option<Outcome>, ghost run: seq<Action>)
      requires 1 <= maxsize && Mirrors(s, queue, maxsize, streamDone)
      modifies this
      ensures 1 <= s.maxsize && IsRun(s, run) && Final(s, run).queue == queue
      ensures Final(s, run).handled == s.handled + handled && Leaves(Final(s, run).consumer, outcome)
      ensures if outcome == None then Waits(run) == |rounds| else 0 < Waits(run) <= |rounds|
    {
      handled, outcome, run := [], None, [];
      AppendEmpty(s.handled);
      for i := 0 to |rounds|
        invariant IsRun(s, run) && Mirrors(Final(s, run), queue, maxsize, streamDone) && outcome == None && Waits(run) == i
        invariant Final(s, run).handled == s.handled + handled
      {
        run := Produces(rounds[i].producer, s, run);
        handled, outcome, run := TakeOne(rounds[i], s, run, handled);
        if outcome.Some? { return; }
      }
    }

    method TakeOne(round: Round, ghost s: State, ghost before: seq<Action>, already: seq<Event>)
      returns (handled: seq<Event>, outcome: Option<Outcome>, ghost run: seq<Action>)
      requires 1 <= s.maxsize && IsRun(s, before) && Mirrors(Final(s, before), queue, maxsize, streamDone)
      requires Final(s, before).handled == s.handled + already
      modifies `queue
      ensures IsRun(s, run) && Final(s, run).queue == queue && Final(s, run).handled == s.handled + handled
      ensures Leaves(Final(s, run).consumer, outcome)
      ensures outcome == None ==> Mirrors(Final(s, run), queue, maxsize, streamDone)
      ensures Waits(run) == Waits(before) + 1
      ensures round.cancelled ==> outcome == Some(Stopped) && handled == already && queue == old(queue)
      ensures !round.cancelled && old(queue) == [] ==>
                handled == already && queue == [] && outcome == if round.interrupted then Some(Stopped) else None
      ensures !round.cancelled && old(queue) != [] ==>
                && queue == old(queue)[1..] && handled == WithItem(already, old(queue)[0])
                && outcome == match old(queue)[0]
                              case Done => Some(if round.interrupted then Stopped else Completed)
                              case Error(code) => Some(Raised(code))
                              case Ev(_) => if round.handlerRaises then Some(HandlerFailed) else None
    {
      handled, outcome := already, None;
      WaitsSnoc(before, Cancel);
      WaitsSnoc(before, Timeout(round.interrupted));
      WaitsSnoc(before, Take(round.interrupted));
      if round.cancelled {
        Extend(s, before, Cancel);
        return handled, Some(Stopped), before + [Cancel];
      }
      if queue == [] {
        Extend(s, before, Timeout(round.interrupted));
        return handled, if round.interrupted then Some(Stopped) else None, before + [Timeout(round.interrupted)];
      }
      Extend(s, before, Take(round.interrupted));
      run := before + [Take(round.interrupted)];
      var item := queue[0];
      queue := queue[1..];
      if item == Done { return handled, Some(if round.interrupted then Stopped else Completed), run; }
      if item.Error? { return handled, Some(Raised(item.code)), run; }
      Assoc(s.handled, already, [item.event]);
      handled := already + [item.event];
      var result := if round.handlerRaises then HandlerRaises else HandlerReturns;
      Extend(s, run, result);
      WaitsSnoc(run, result);
      run := run + [result];
      outcome := if round.handlerRaises then Some(HandlerFailed) else None;
    }

    // drain_event_queue: at most maxEvents items, stopping at a handler that times out.  In
    // a run in which the consumer is about to drain, it ends the consumer.
    method DrainEventQueue(maxEvents: nat, timesOut: Event -> bool, ghost s: State, ghost before: seq<Action>)
      returns (attempted: seq<Event>, taken: nat, ghost run: seq<Action>)
      requires 1 <= s.maxsize && IsRun(s, before) && Final(s, before).queue == queue
      requires Final(s, before).consumer.Draining? && Final(s, before).consumer.left == maxEvents
      modifies `queue
      ensures taken <= |old(queue)| && taken <= maxEvents
      ensures queue == old(queue)[taken..] && attempted == Events(old(queue)[..taken])
      ensures taken == maxEvents || queue == [] || (attempted != [] && timesOut(attempted[|attempted| - 1]))
      ensures IsRun(s, run) && Final(s, run).queue == queue
      ensures Final(s, run).consumer == Finished(Final(s, before).consumer.outcome)
      ensures Final(s, run).handled == Final(s, before).handled + attempted
    {
      attempted, taken, run := [], 0, before;
      AppendEmpty(Final(s, before).handled);
      while queue != [] && taken < maxEvents
        invariant taken <= |old(queue)| && taken <= maxEvents
        invariant queue == old(queue)[taken..] && attempted == Events(old(queue)[..taken])
        invariant IsRun(s, run) && Final(s, run).queue == queue
        invariant Final(s, run).consumer == Draining(maxEvents - taken, Final(s, before).consumer.outcome)
        invariant Final(s, run).handled == Final(s, before).handled + attempted
        decreases |queue|
      {
        var item := queue[0];
        ghost var step := DrainOne(item.Ev? && timesOut(item.event));
        Extend(s, run, step);
        run := run + [step];
        queue := queue[1..];
        OneMoreTaken(old(queue), taken);
        taken := taken + 1;
        if item.Ev? {
          Assoc(Final(s, before).handled, attempted, [item.event]);
          attempted := attempted + [item.event];
          if timesOut(item.event) { return; }
        }
      }
      Extend(s, run, DrainEnd);
      run := run + [DrainEnd];
    }

    // The consumer loop and, unless it completed, the drain that follows, while the producer
    // rests: with any schedule before it a run of the protocol, which ends the consumer.
    method Stream(rounds: seq<Round>, timesOut: Event -> bool, ghost s: State)
      returns (handled: seq<Event>, outcome: Option<Outcome>, ghost run: seq<Action>)
      requires 1 <= maxsize && Mirrors(s, queue, maxsize, streamDone)
      modifies this
      ensures 1 <= s.maxsize && IsRun(s, run) && Final(s, run).queue == queue
      ensures Final(s, run).handled == s.handled + handled
      ensures match outcome case None => Final(s, run).consumer.Waiting? case Some(o) => Final(s, run).consumer == Finished(o)
    {
      handled, outcome, run := Consume(rounds, s);
      if outcome.Some? && outcome.value != Completed {
        var drained, taken;
        ghost var before := run;
        drained, taken, run := DrainEventQueue(MAX_DRAINED, timesOut, s, before);
        Assoc(s.handled, handled, drained);
        handled := handled + drained;
      }
    }
  }
}
