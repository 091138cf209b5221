/**
  The browser worker's render consumer: one broker access per step, any number of processes, with
  redeliveries, crashes, lost acknowledgements and failed marker writes as steps of their own.
 */
module BrowserWorker {
  import opened Wrappers
  import opened Numbers

  type RenderId = nat

  /** A delivery of the command stream; `render` is absent when the payload does not decode. */
  datatype Message = Message(sequence: nat, render: Option<RenderId>)

  datatype Outcome = Completed(finalUrl: string, dom: string) | Failed(failureClass: string)

  datatype Event = Event(render: RenderId, outcome: Outcome)

  /** Where one process stands in its loop; `handled` counts its terminal jobs. */
  datatype Process =
    | Waiting(handled: nat)
    | Received(handled: nat, message: Message)
    | Rendering(handled: nat, message: Message)
    | Publishing(handled: nat, message: Message, outcome: Outcome)
    | Marking(handled: nat, message: Message)
    | Acking(handled: nat, message: Message, terminal: bool)
    | Recycled(handled: nat)
    | Stopped(handled: nat)

  datatype Worker = Worker(budget: nat, processes: map<nat, Process>, events: seq<Event>,
                           markers: set<RenderId>, acked: set<Message>)

  datatype Render = Rendered(finalUrl: string, dom: string) | RenderFailed(failureClass: string) | NoResult

  datatype Step =
    | Spawn(process: nat)
    | Deliver(process: nat, message: Message)
    | Check(process: nat, answered: bool)
    | Execute(process: nat, result: Render, stored: bool)
    | Publish(process: nat, accepted: bool, acknowledged: bool)
    | Mark(process: nat, stored: bool)
    | Ack(process: nat, arrives: bool)
    | Cancel(process: nat)
    | Crash(process: nat)

  function Init(budget: nat): Worker { Worker(budget, map[], [], {}, {}) }

  /** The loop's own bookkeeping after one delivery. */
  function AfterDelivery(budget: nat, handled: nat, terminal: bool): Process {
    if !terminal then Waiting(handled)
    else if handled + 1 >= budget then Recycled(handled + 1)
    else Waiting(handled + 1)
  }

  function Apply(w: Worker, step: Step): Worker {
    var p := step.process;
    if step.Spawn? then (if p in w.processes then w else w.(processes := w.processes[p := Waiting(0)]))
    else if p !in w.processes then w
    else
      var at := w.processes[p];
      match step
      case Spawn(_) => w
      case Crash(_) => w.(processes := w.processes - {p})
      case Cancel(_) => if at.Waiting? then w.(processes := w.processes[p := Stopped(at.handled)]) else w
      case Deliver(_, message) => if at.Waiting? then w.(processes := w.processes[p := Received(at.handled, message)]) else w
      case Check(_, answered) =>
        if !at.Received? then w
        else if at.message.render.None? || (answered && at.message.render.value in w.markers)
        then w.(processes := w.processes[p := Acking(at.handled, at.message, false)])
        else w.(processes := w.processes[p := Rendering(at.handled, at.message)])
      case Execute(_, result, stored) =>
        if !at.Rendering? then w
        else
          (match result
           case NoResult => w.(processes := w.processes[p := Waiting(at.handled)])
           case RenderFailed(failureClass) =>
             w.(processes := w.processes[p := Publishing(at.handled, at.message, Failed(failureClass))])
           case Rendered(finalUrl, dom) =>
             if !stored then w.(processes := w.processes[p := Waiting(at.handled)])
             else w.(processes := w.processes[p := Publishing(at.handled, at.message, Completed(finalUrl, dom))]))
      case Publish(_, accepted, acknowledged) =>
        if !at.Publishing? || at.message.render.None? then w
        else
          w.(events := if accepted then w.events + [Event(at.message.render.value, at.outcome)] else w.events,
             processes := w.processes[p := if accepted && acknowledged then Marking(at.handled, at.message) else Waiting(at.handled)])
      case Mark(_, stored) =>
        if !at.Marking? || at.message.render.None? then w
        else
          w.(markers := if stored then w.markers + {at.message.render.value} else w.markers,
             processes := w.processes[p := Acking(at.handled, at.message, true)])
      case Ack(_, arrives) =>
        if !at.Acking? then w
        else
          w.(acked := if arrives then w.acked + {at.message} else w.acked,
             processes := w.processes[p := AfterDelivery(w.budget, at.handled, at.terminal)])
  }

  function Run(w: Worker, steps: seq<Step>): Worker
    decreases |steps|
  {
    if steps == [] then w else Apply(Run(w, steps[..|steps| - 1]), steps[|steps| - 1])
  }

  // ----- safety

  predicate HasEvent(events: seq<Event>, r: RenderId) { exists i :: 0 <= i < |events| && events[i].render == r }

  /** A process that is past publishing holds a command whose event the stream accepted. */
  predicate ProcessInv(budget: nat, events: seq<Event>, p: Process) {
    match p
    case Waiting(handled) => handled == 0 || handled < budget
    case Received(handled, _) => handled == 0 || handled < budget
    case Rendering(handled, m) => (handled == 0 || handled < budget) && m.render.Some?
    case Publishing(handled, m, _) => (handled == 0 || handled < budget) && m.render.Some?
    case Marking(handled, m) => (handled == 0 || handled < budget) && m.render.Some? && HasEvent(events, m.render.value)
    case Acking(handled, m, terminal) =>
      (handled == 0 || handled < budget) && (m.render.Some? ==> HasEvent(events, m.render.value))
    case Recycled(handled) => handled == if budget == 0 then 1 else budget
    case Stopped(handled) => handled == 0 || handled < budget
  }

  ghost predicate Inv(w: Worker) {
    && (forall r :: r in w.markers ==> HasEvent(w.events, r))
    && (forall m :: m in w.acked && m.render.Some? ==> HasEvent(w.events, m.render.value))
    && (forall p :: p in w.processes ==> ProcessInv(w.budget, w.events, w.processes[p]))
  }

  lemma EventStays(events: seq<Event>, more: seq<Event>)
    ensures forall r :: HasEvent(events, r) ==> HasEvent(events + more, r)
    ensures more != [] ==> HasEvent(events + more, more[0].render)
  {
    var longer := events + more;
    assert forall i :: 0 <= i < |events| ==> longer[i] == events[i];
    assert more != [] ==> longer[|events|] == more[0];
  }

  lemma PublishKeeps(w: Worker, step: Step)
    requires Inv(w) && step.Publish?
    ensures Inv(Apply(w, step))
  {
    if step.process in w.processes && w.processes[step.process].Publishing? && w.processes[step.process].message.render.Some? {
      var at := w.processes[step.process];
      var event := Event(at.message.render.value, at.outcome);
      EventStays(w.events, [event]);
    }
  }

  lemma StepKeeps(w: Worker, step: Step)
    requires Inv(w)
    ensures Inv(Apply(w, step)) && Apply(w, step).budget == w.budget
  {
    if step.Publish? {
      PublishKeeps(w, step);
    }
  }

  lemma {:induction false} ReachableInv(budget: nat, steps: seq<Step>)
    ensures Inv(Run(Init(budget), steps)) && Run(Init(budget), steps).budget == budget
    decreases |steps|
  {
    if steps != [] {
      ReachableInv(budget, steps[..|steps| - 1]);
      StepKeeps(Run(Init(budget), steps[..|steps| - 1]), steps[|steps| - 1]);
    }
  }

  /** A completion marker exists only for a render whose result event the stream accepted. */
  lemma MarkerMeansEvent(budget: nat, steps: seq<Step>, r: RenderId)
    requires r in Run(Init(budget), steps).markers
    ensures HasEvent(Run(Init(budget), steps).events, r)
  {
    ReachableInv(budget, steps);
  }

  /** Every acknowledged well-formed command has its result event on the stream. */
  lemma AcknowledgedMeansEvent(budget: nat, steps: seq<Step>, m: Message)
    requires m in Run(Init(budget), steps).acked && m.render.Some?
    ensures HasEvent(Run(Init(budget), steps).events, m.render.value)
  {
    ReachableInv(budget, steps);
  }

  /** A process recycles itself exactly at its budget, a zero budget meaning its first job. */
  lemma RecycledAtBudget(budget: nat, steps: seq<Step>, p: nat)
    requires p in Run(Init(budget), steps).processes
    ensures var at := Run(Init(budget), steps).processes[p];
            var limit := if budget == 0 then 1 else budget;
            if at.Recycled? then at.handled == limit else at.handled < limit
  {
    ReachableInv(budget, steps);
    assert ProcessInv(budget, Run(Init(budget), steps).events, Run(Init(budget), steps).processes[p]);
  }

  // ----- what the events say

  /** The step is the render of this event's command, with the result the event tells. */
  predicate Produces(w: Worker, step: Step, e: Event) {
    && step.Execute? && step.process in w.processes && w.processes[step.process].Rendering?
    && w.processes[step.process].message.render == Some(e.render)
    && (match step.result
        case Rendered(finalUrl, dom) => step.stored && e.outcome == Completed(finalUrl, dom)
        case RenderFailed(failureClass) => e.outcome == Failed(failureClass)
        case NoResult => false)
  }

  predicate ProducedAt(budget: nat, steps: seq<Step>, e: Event, k: nat) {
    k < |steps| && Produces(Run(Init(budget), steps[..k]), steps[k], e)
  }

  ghost predicate Produced(budget: nat, steps: seq<Step>, e: Event) { exists k :: ProducedAt(budget, steps, e, k) }

  lemma ProducedLater(budget: nat, steps: seq<Step>, step: Step, e: Event)
    requires Produced(budget, steps, e)
    ensures Produced(budget, steps + [step], e)
  {
    var k: nat :| ProducedAt(budget, steps, e, k);
    assert (steps + [step])[..k] == steps[..k] && (steps + [step])[k] == steps[k];
    assert ProducedAt(budget, steps + [step], e, k);
  }

  /** The event a process is about to publish, if it is. */
  function Pending(p: Process): Option<Event> {
    if p.Publishing? && p.message.render.Some? then Some(Event(p.message.render.value, p.outcome)) else None
  }

  ghost predicate AllProduced(budget: nat, steps: seq<Step>, w: Worker) {
    && (forall i :: 0 <= i < |w.events| ==> Produced(budget, steps, w.events[i]))
    && (forall p :: p in w.processes && Pending(w.processes[p]).Some? ==> Produced(budget, steps, Pending(w.processes[p]).value))
  }

  /** A step publishes only what was pending, and a process comes to publish only by its own render. */
  lemma StepEvents(w: Worker, step: Step)
    ensures var w' := Apply(w, step);
            && (w'.events == w.events
                || (step.process in w.processes && Pending(w.processes[step.process]).Some?
                    && w'.events == w.events + [Pending(w.processes[step.process]).value]))
            && (forall p :: p in w'.processes && Pending(w'.processes[p]).Some? ==>
                  || (p in w.processes && w'.processes[p] == w.processes[p])
                  || Produces(w, step, Pending(w'.processes[p]).value))
  {
  }

  /** Every event of every run tells the result of a render that was executed for its own command. */
  lemma {:induction false} EventsAreProduced(budget: nat, steps: seq<Step>)
    ensures AllProduced(budget, steps, Run(Init(budget), steps))
    decreases |steps|
  {
    if steps != [] {
      var init, step := steps[..|steps| - 1], steps[|steps| - 1];
      var w := Run(Init(budget), init);
      EventsAreProduced(budget, init);
      StepEvents(w, step);
      assert steps == init + [step];
      StepProduced(budget, init, step);
    }
  }

  lemma StepProduced(budget: nat, init: seq<Step>, step: Step)
    requires AllProduced(budget, init, Run(Init(budget), init))
    ensures AllProduced(budget, init + [step], Apply(Run(Init(budget), init), step))
  {
    var w := Run(Init(budget), init);
    var w' := Apply(w, step);
    var steps := init + [step];
    StepEvents(w, step);
    forall i | 0 <= i < |w'.events| ensures Produced(budget, steps, w'.events[i]) {
      if i < |w.events| {
        assert w'.events[i] == w.events[i];
        ProducedLater(budget, init, step, w.events[i]);
      } else {
        ProducedLater(budget, init, step, Pending(w.processes[step.process]).value);
      }
    }
    forall p | p in w'.processes && Pending(w'.processes[p]).Some? ensures Produced(budget, steps, Pending(w'.processes[p]).value) {
      var e := Pending(w'.processes[p]).value;
      if Produces(w, step, e) {
        assert steps[..|init|] == init && steps[|init|] == step;
        assert ProducedAt(budget, steps, e, |init|);
      } else {
        ProducedLater(budget, init, step, e);
      }
    }
  }

  /** One delivery that nothing interrupts, from the broker to the acknowledgement. */
  function Job(p: nat, m: Message, result: Render): seq<Step> {
    [Deliver(p, m), Check(p, true), Execute(p, result, true), Publish(p, true, true), Mark(p, true), Ack(p, true)]
  }

  function OutcomeOf(result: Render): Outcome
    requires !result.NoResult?
  {
    match result
    case Rendered(finalUrl, dom) => Completed(finalUrl, dom)
    case RenderFailed(failureClass) => Failed(failureClass)
  }

  /** The worker with one process moved. */
  function Moved(w: Worker, p: nat, to: Process): Worker { w.(processes := w.processes[p := to]) }

  /**
    A delivered command that has no marker is rendered, its own result published, its marker stored
    and the delivery acknowledged, and it counts one job; one that has a marker is acknowledged alone.
   */
  lemma JobDone(w: Worker, p: nat, m: Message, result: Render)
    requires p in w.processes && w.processes[p].Waiting? && m.render.Some? && !result.NoResult?
    ensures var w' := Run(w, Job(p, m, result));
            var r, handled := m.render.value, w.processes[p].handled;
            && w'.acked == w.acked + {m}
            && (r in w.markers ==> w' == Moved(w.(acked := w.acked + {m}), p, Waiting(handled)))
            && (r !in w.markers ==>
                  && w'.events == w.events + [Event(r, OutcomeOf(result))] && w'.markers == w.markers + {r}
                  && w'.processes == w.processes[p := if handled + 1 >= w.budget then Recycled(handled + 1) else Waiting(handled + 1)])
  {
    RunSix(w, Job(p, m, result));
    if m.render.value in w.markers {
      MarkedJob(w, p, m, result);
    } else {
      UnmarkedJob(w, p, m, result);
    }
  }

  function SixSteps(w: Worker, s: seq<Step>): Worker
    requires |s| == 6
  {
    Apply(Apply(Apply(Apply(Apply(Apply(w, s[0]), s[1]), s[2]), s[3]), s[4]), s[5])
  }

  lemma MarkedJob(w: Worker, p: nat, m: Message, result: Render)
    requires p in w.processes && w.processes[p].Waiting? && m.render.Some? && m.render.value in w.markers
    ensures SixSteps(w, Job(p, m, result)) == Moved(w.(acked := w.acked + {m}), p, Waiting(w.processes[p].handled))
  {
    var job, handled := Job(p, m, result), w.processes[p].handled;
    var w2 := Apply(Apply(w, job[0]), job[1]);
    assert w2 == Moved(w, p, Acking(handled, m, false));
    assert Apply(Apply(Apply(w2, job[2]), job[3]), job[4]) == w2;
  }

  lemma UnmarkedJob(w: Worker, p: nat, m: Message, result: Render)
    requires p in w.processes && w.processes[p].Waiting? && m.render.Some? && m.render.value !in w.markers && !result.NoResult?
    ensures var r, handled := m.render.value, w.processes[p].handled;
            SixSteps(w, Job(p, m, result))
            == Moved(w.(events := w.events + [Event(r, OutcomeOf(result))], markers := w.markers + {r}, acked := w.acked + {m}), p,
                     if handled + 1 >= w.budget then Recycled(handled + 1) else Waiting(handled + 1))
  {
    var job, r, handled := Job(p, m, result), m.render.value, w.processes[p].handled;
    var w2 := Apply(Apply(w, job[0]), job[1]);
    assert w2 == Moved(w, p, Rendering(handled, m));
    var w3 := Apply(w2, job[2]);
    assert w3 == Moved(w, p, Publishing(handled, m, OutcomeOf(result)));
    var w4 := Apply(w3, job[3]);
    assert w4 == Moved(w.(events := w.events + [Event(r, OutcomeOf(result))]), p, Marking(handled, m));
    var w5 := Apply(w4, job[4]);
    assert w5 == Moved(w.(events := w4.events, markers := w.markers + {r}), p, Acking(handled, m, true));
  }

  lemma RunSix(w: Worker, s: seq<Step>)
    requires |s| == 6
    ensures Run(w, s) == SixSteps(w, s)
  {
    assert s[..0] == [];
    assert s[..1][..0] == [] && s[..2][..1] == s[..1] && s[..3][..2] == s[..2];
    assert s[..4][..3] == s[..3] && s[..5][..4] == s[..4] && s[..6] == s;
    assert Run(w, s[..1]) == Apply(w, s[0]);
    assert Run(w, s[..2]) == Apply(Run(w, s[..1]), s[1]);
    assert Run(w, s[..3]) == Apply(Run(w, s[..2]), s[2]);
    assert Run(w, s[..4]) == Apply(Run(w, s[..3]), s[3]);
    assert Run(w, s[..5]) == Apply(Run(w, s[..4]), s[4]);
  }

  // ----- deduplication

  function EventsOf(events: seq<Event>, r: RenderId): nat {
    if events == [] then 0 else EventsOf(events[..|events| - 1], r) + if events[|events| - 1].render == r then 1 else 0
  }

  /** Past the marker lookup and not yet published. */
  predicate Carries(p: Process, r: RenderId) { (p.Rendering? || p.Publishing?) && p.message.render == Some(r) }

  function InFlight(processes: map<nat, Process>, r: RenderId): set<nat> {
    set p | p in processes && Carries(processes[p], r)
  }

  predicate LooksUp(w: Worker, step: Step, r: RenderId) {
    && step.Check? && step.process in w.processes && w.processes[step.process].Received?
    && w.processes[step.process].message.render == Some(r)
  }

  /** The lookups made for this render that were not answered. */
  function Unanswered(w: Worker, steps: seq<Step>, r: RenderId): nat
    decreases |steps|
  {
    if steps == [] then 0
    else
      var before, step := Run(w, steps[..|steps| - 1]), steps[|steps| - 1];
      Unanswered(w, steps[..|steps| - 1], r) + if LooksUp(before, step, r) && !step.answered then 1 else 0
  }

  lemma EventsAppend(events: seq<Event>, e: Event, r: RenderId)
    ensures EventsOf(events + [e], r) == EventsOf(events, r) + if e.render == r then 1 else 0
  {
    assert (events + [e])[..|events|] == events;
  }

  /** Moving one process out of flight frees its place; moving it without entering adds none. */
  lemma FlightUpdate(processes: map<nat, Process>, p: nat, after: Process, r: RenderId)
    requires p in processes
    ensures !Carries(after, r) ==> InFlight(processes[p := after], r) == InFlight(processes, r) - {p}
    ensures Carries(after, r) ==> InFlight(processes[p := after], r) == InFlight(processes, r) + {p}
    ensures InFlight(processes - {p}, r) == InFlight(processes, r) - {p}
  {
  }

  lemma SetStep(s: set<nat>, p: nat)
    ensures |s - {p}| == |s| - (if p in s then 1 else 0) && |s + {p}| == |s| + (if p in s then 0 else 1)
  {
    if p in s { assert s + {p} == s; } else { assert s - {p} == s; }
  }

  predicate PublishesFor(w: Worker, step: Step, r: RenderId) {
    && step.Publish? && step.accepted && step.process in w.processes && w.processes[step.process].Publishing?
    && w.processes[step.process].message.render == Some(r)
  }

  /** The step's process joins the flight only by an unanswered lookup, and leaves it by publishing. */
  lemma FlightStep(w: Worker, step: Step, r: RenderId)
    requires r in w.markers && step.process in w.processes
    ensures (LooksUp(w, step, r) && !step.answered) || InFlight(Apply(w, step).processes, r) <= InFlight(w.processes, r)
    ensures InFlight(Apply(w, step).processes, r) <= InFlight(w.processes, r) + {step.process}
    ensures PublishesFor(w, step, r) ==>
              step.process in InFlight(w.processes, r)
              && InFlight(Apply(w, step).processes, r) == InFlight(w.processes, r) - {step.process}
  {
    var p := step.process;
    if !step.Spawn? && p in Apply(w, step).processes {
      FlightUpdate(w.processes, p, Apply(w, step).processes[p], r);
    } else {
      FlightUpdate(w.processes, p, w.processes[p], r);
    }
  }

  lemma EventStep(w: Worker, step: Step, r: RenderId)
    ensures EventsOf(Apply(w, step).events, r) == EventsOf(w.events, r) + if PublishesFor(w, step, r) then 1 else 0
  {
    var p := step.process;
    if step.Publish? && p in w.processes && w.processes[p].Publishing? && w.processes[p].message.render.Some? {
      EventsAppend(w.events, Event(w.processes[p].message.render.value, w.processes[p].outcome), r);
    }
  }

  /** Only an unanswered lookup raises events plus flights of a marked render, and by one. */
  lemma MarkedStep(w: Worker, step: Step, r: RenderId)
    requires r in w.markers
    ensures r in Apply(w, step).markers
    ensures EventsOf(Apply(w, step).events, r) + |InFlight(Apply(w, step).processes, r)|
            <= EventsOf(w.events, r) + |InFlight(w.processes, r)| + if LooksUp(w, step, r) && !step.answered then 1 else 0
  {
    EventStep(w, step, r);
    var flight, flight' := InFlight(w.processes, r), InFlight(Apply(w, step).processes, r);
    SetStep(flight, step.process);
    if step.process in w.processes {
      FlightStep(w, step, r);
      if flight' <= flight {
        SubsetSize(flight', flight);
      } else {
        SubsetSize(flight', flight + {step.process});
      }
    } else {
      SpawnedIsWaiting(w.processes, step.process, r);
    }
  }

  lemma SpawnedIsWaiting(processes: map<nat, Process>, p: nat, r: RenderId)
    requires p !in processes
    ensures InFlight(processes[p := Waiting(0)], r) == InFlight(processes, r)
  {
  }

  /**
    Once a marker is stored, over every later run: the events added for its render are at most the
    renders that were past their lookup when it was stored plus the lookups that were not answered.
   */
  lemma {:induction false} MarkedIsNotRenderedAgain(w: Worker, steps: seq<Step>, r: RenderId)
    requires r in w.markers
    ensures r in Run(w, steps).markers
    ensures EventsOf(Run(w, steps).events, r) + |InFlight(Run(w, steps).processes, r)|
            <= EventsOf(w.events, r) + |InFlight(w.processes, r)| + Unanswered(w, steps, r)
    decreases |steps|
  {
    if steps != [] {
      MarkedIsNotRenderedAgain(w, steps[..|steps| - 1], r);
      MarkedStep(Run(w, steps[..|steps| - 1]), steps[|steps| - 1], r);
    }
  }

  lemma RunAppend(w: Worker, steps: seq<Step>, step: Step)
    ensures Run(w, steps + [step]) == Apply(Run(w, steps), step)
  {
    assert (steps + [step])[..|steps|] == steps;
  }

  /** From a state whose process `p` waits: one delivery whose lookup fails is rendered and published. */
  lemma UnansweredPublishes(w: Worker, p: nat, r: RenderId, steps: seq<Step>) returns (after: seq<Step>)
    requires p in Run(w, steps).processes && Run(w, steps).processes[p] == Waiting(0)
    ensures after == steps + [Deliver(p, Message(0, Some(r)))] + [Check(p, false)]
                     + [Execute(p, RenderFailed("navigation_failed"), true)] + [Publish(p, true, true)]
    ensures EventsOf(Run(w, after).events, r) == EventsOf(Run(w, steps).events, r) + 1
  {
    var m := Message(0, Some(r));
    var delivered := steps + [Deliver(p, m)];
    RunAppend(w, steps, Deliver(p, m));
    assert Run(w, delivered).processes[p] == Received(0, m);
    var checked := delivered + [Check(p, false)];
    RunAppend(w, delivered, Check(p, false));
    assert Run(w, checked).processes[p] == Rendering(0, m);
    var executed := checked + [Execute(p, RenderFailed("navigation_failed"), true)];
    RunAppend(w, checked, Execute(p, RenderFailed("navigation_failed"), true));
    assert Run(w, executed).processes[p] == Publishing(0, m, Failed("navigation_failed"));
    after := executed + [Publish(p, true, true)];
    RunAppend(w, executed, Publish(p, true, true));
    EventsAppend(Run(w, executed).events, Event(r, Failed("navigation_failed")), r);
  }

  /** A restarted process whose lookup fails publishes a marked render again. */
  lemma MarkedRenderedAgain(w: Worker, p: nat, r: RenderId) returns (steps: seq<Step>)
    ensures steps == [Crash(p)] + [Spawn(p)] + [Deliver(p, Message(0, Some(r)))] + [Check(p, false)]
                     + [Execute(p, RenderFailed("navigation_failed"), true)] + [Publish(p, true, true)]
    ensures EventsOf(Run(w, steps).events, r) == EventsOf(w.events, r) + 1
  {
    RunAppend(w, [], Crash(p));
    assert [] + [Crash(p)] == [Crash(p)];
    RunAppend(w, [Crash(p)], Spawn(p));
    var waiting := [Crash(p)] + [Spawn(p)];
    assert Run(w, waiting).processes[p] == Waiting(0) && Run(w, waiting).events == w.events;
    steps := UnansweredPublishes(w, p, r, waiting);
  }

  /** The processes whose lookups may go unanswered. */
  predicate Obeys(steps: seq<Step>, mayFail: nat -> bool) {
    forall i :: 0 <= i < |steps| && steps[i].Check? && !steps[i].answered ==> mayFail(steps[i].process)
  }

  lemma {:induction false} ReliableIsAnswered(w: Worker, steps: seq<Step>, mayFail: nat -> bool, r: RenderId)
    requires Obeys(steps, mayFail) && forall p :: !mayFail(p)
    ensures Unanswered(w, steps, r) == 0
    decreases |steps|
  {
    if steps != [] { ReliableIsAnswered(w, steps[..|steps| - 1], mayFail, r); }
  }

  lemma {:induction false} EventsNeverLost(w: Worker, steps: seq<Step>, r: RenderId)
    ensures EventsOf(w.events, r) <= EventsOf(Run(w, steps).events, r)
    decreases |steps|
  {
    if steps != [] {
      EventsNeverLost(w, steps[..|steps| - 1], r);
      EventStep(Run(w, steps[..|steps| - 1]), steps[|steps| - 1], r);
    }
  }

  /** No run under this policy publishes the render again. */
  ghost predicate NeverAgain(w: Worker, mayFail: nat -> bool, r: RenderId) {
    forall steps :: Obeys(steps, mayFail) ==> EventsOf(Run(w, steps).events, r) == EventsOf(w.events, r)
  }

  /**
    From any state with the marker stored and the render not in flight, no run publishes it again
    exactly when no process's lookup may go unanswered.
   */
  lemma DeduplicatedExactly(w: Worker, mayFail: nat -> bool, r: RenderId)
    requires r in w.markers && InFlight(w.processes, r) == {}
    ensures NeverAgain(w, mayFail, r) <==> forall p :: !mayFail(p)
  {
    if forall p :: !mayFail(p) {
      forall steps | Obeys(steps, mayFail) ensures EventsOf(Run(w, steps).events, r) == EventsOf(w.events, r) {
        MarkedIsNotRenderedAgain(w, steps, r);
        ReliableIsAnswered(w, steps, mayFail, r);
        EventsNeverLost(w, steps, r);
      }
    } else {
      var p :| mayFail(p);
      var steps := MarkedRenderedAgain(w, p, r);
      assert Obeys(steps, mayFail);
    }
  }

  // ----- the loop

  /** How one delivery of the stream ended for the consumer. */
  datatype Delivery = Terminal | Skipped | Undelivered

  function Jobs(deliveries: seq<Delivery>): nat {
    if deliveries == [] then 0
    else Jobs(deliveries[..|deliveries| - 1]) + if deliveries[|deliveries| - 1].Terminal? then 1 else 0
  }

  /**
    `run_render_consumer`: it stops right after the delivery that fills its budget and after no
    other, and reads the whole stream when none does.
   */
  method RunRenderConsumer(deliveries: seq<Delivery>, budget: nat) returns (consumed: nat, handled: nat)
    ensures consumed <= |deliveries| && handled == Jobs(deliveries[..consumed])
    ensures forall i :: 0 <= i < consumed && Jobs(deliveries[..i]) >= 1 ==> Jobs(deliveries[..i]) < budget
    ensures consumed < |deliveries| ==> handled >= 1 && handled >= budget && deliveries[consumed - 1].Terminal?
  {
    consumed, handled := 0, 0;
    while consumed < |deliveries|
      invariant consumed <= |deliveries| && handled == Jobs(deliveries[..consumed])
      invariant handled == 0 || handled < budget
      invariant forall i :: 0 <= i < consumed && Jobs(deliveries[..i]) >= 1 ==> Jobs(deliveries[..i]) < budget
      decreases |deliveries| - consumed
    {
      assert deliveries[..consumed + 1][..consumed] == deliveries[..consumed];
      consumed := consumed + 1;
      if deliveries[consumed - 1].Terminal? {
        handled := handled + 1;
        if handled >= budget {
          return;
        }
      }
    }
  }
}
