/** The concurrency controller inside segmented transfers: its own theorems, stated of whole transfers. */
module SegmentedControl {
  import opened Collections
  import opened Controller
  import opened Segmented
  import opened SegmentedInvariant

  ghost function Controllers(states: seq<State>): (r: seq<Controller>)
    ensures |r| == |states| && forall i :: 0 <= i < |states| ==> r[i] == states[i].controller
  {
    seq(|states|, i requires 0 <= i < |states| => states[i].controller)
  }

  /** The ticket was read from the controller in state `j`. */
  ghost predicate IssuedIn(states: seq<State>, j: nat, t: Ticket)
  {
    j < |states| && TicketOf(states[j].controller) == t
  }

  ghost predicate AllIssued(states: seq<State>, i: nat)
    requires i < |states|
  {
    forall q :: q in states[i].flight ==> exists j :: 0 <= j <= i && IssuedIn(states, j, states[i].flight[q].task.ticket)
  }

  /** Every attempt in flight carries a ticket that was issued in an earlier state. */
  lemma {:induction false} TicketsAreIssued(states: seq<State>, steps: seq<Step>, i: nat)
    requires Execution(states, steps) && i < |states|
    ensures AllIssued(states, i)
  {
    if i > 0 {
      TicketsAreIssued(states, steps, i - 1);
      forall q | q in states[i].flight
        ensures exists j :: 0 <= j <= i && IssuedIn(states, j, states[i].flight[q].task.ticket)
      {
        var j := TicketSource(states, steps, i, q);
        assert IssuedIn(states, j, states[i].flight[q].task.ticket);
      }
    }
  }

  lemma TicketSource(states: seq<State>, steps: seq<Step>, i: nat, q: nat) returns (j: nat)
    requires Execution(states, steps) && 0 < i < |states| && AllIssued(states, i - 1) && q in states[i].flight
    ensures j <= i && IssuedIn(states, j, states[i].flight[q].task.ticket)
  {
    assert StepAt(states, steps, i - 1);
    TicketMoves(states[i - 1], steps[i - 1], q);
    if q in states[i - 1].flight && states[i].flight[q].task.ticket == states[i - 1].flight[q].task.ticket {
      j :| 0 <= j <= i - 1 && IssuedIn(states, j, states[i - 1].flight[q].task.ticket);
    } else {
      j := i - 1;
    }
  }

  /** A step leaves an attempt's ticket alone, or the attempt is just launched with the controller's. */
  lemma TicketMoves(s: State, step: Step, q: nat)
    requires Enabled(s, step) && q in Apply(s, step).flight
    ensures (q in s.flight && Apply(s, step).flight[q].task.ticket == s.flight[q].task.ticket)
         || Apply(s, step).flight[q].task.ticket == TicketOf(s.controller)
  {
  }

  /** The state that issued the ticket of an attempt in flight. */
  ghost function SourceOf(states: seq<State>, i: nat, q: nat): (j: nat)
    requires i < |states| && AllIssued(states, i) && q in states[i].flight
    ensures j <= i && IssuedIn(states, j, states[i].flight[q].task.ticket)
  {
    var j :| 0 <= j <= i && IssuedIn(states, j, states[i].flight[q].task.ticket);
    j
  }

  /** What a step of the transfer is for the controller. */
  ghost function EventOf(states: seq<State>, steps: seq<Step>, i: nat): Event
    requires i < |steps| && |states| == |steps| + 1 && Enabled(states[i], steps[i]) && AllIssued(states, i)
  {
    var s := states[i];
    match steps[i]
    case StepAdjust(workers) => Ceiling(WorkerLimit(workers, s.active + |s.tasks|))
    case StepReceive(q, _, workers) => ReplyEvent(s.flight[q], SourceOf(states, i, q), workers, s.active - 1 + |s.tasks|)
    case _ => Quiet
  }

  ghost function ReplyEvent(a: Attempt, source: nat, workers: Connections, remaining: int): Event
    requires a.end.Some?
  {
    match a.end.value
    case Completed => Succeeded(source, WorkerLimit(workers, remaining))
    case ServerBusy => Throttled(source, WorkerLimit(workers, if Again(a) then remaining + 1 else remaining))
    case _ => if Again(a) then Failed(source, WorkerLimit(workers, remaining + 1)) else Quiet
  }

  /** The events of a whole transfer. */
  ghost predicate EventsOf(states: seq<State>, steps: seq<Step>, events: seq<Event>)
    requires Execution(states, steps)
  {
    && |events| == |steps|
    && forall i :: 0 <= i < |steps| ==>
         Enabled(states[i], steps[i]) && AllIssued(states, i) && events[i] == EventOf(states, steps, i)
  }

  lemma ReplyReacts(c: Controller, a: Attempt, source: nat, workers: Connections, remaining: int)
    requires a.end.Some?
    ensures ControllerAfter(c, a, workers, remaining) == React(c, ReplyEvent(a, source, workers, remaining), a.task.ticket)
  {
  }

  lemma EventReacts(states: seq<State>, steps: seq<Step>, i: nat)
    requires Execution(states, steps) && i < |steps| && Enabled(states[i], steps[i]) && AllIssued(states, i)
    ensures states[i + 1].controller ==
            React(states[i].controller, EventOf(states, steps, i), TicketAt(Controllers(states)[..i + 1], EventOf(states, steps, i)))
    ensures var e := EventOf(states, steps, i); !e.Quiet? && !e.Ceiling? ==> e.ticket <= i
  {
    assert StepAt(states, steps, i);
    ControllerStep(states[i], steps[i]);
    StepReacts(states, steps, i, Apply(states[i], steps[i]).controller);
  }

  lemma StepReacts(states: seq<State>, steps: seq<Step>, i: nat, next: Controller)
    requires i < |steps| && |states| == |steps| + 1 && Enabled(states[i], steps[i]) && AllIssued(states, i)
    requires var s, step := states[i], steps[i];
             && (step.StepAdjust? ==> next == Clamp(s.controller, WorkerLimit(step.workers, s.active + |s.tasks|)))
             && (step.StepReceive? ==> next == ControllerAfter(s.controller, s.flight[step.index], step.workers, s.active - 1 + |s.tasks|))
             && (!step.StepAdjust? && !step.StepReceive? ==> next == s.controller)
    ensures var e := EventOf(states, steps, i);
            && next == React(states[i].controller, e, TicketAt(Controllers(states)[..i + 1], e))
            && (!e.Quiet? && !e.Ceiling? ==> e.ticket <= i)
  {
    var s := states[i];
    if steps[i].StepReceive? {
      ResultReacts(states, i, steps[i].index, steps[i].workers, s.active - 1 + |s.tasks|);
    }
  }

  lemma ResultReacts(states: seq<State>, i: nat, q: nat, workers: Connections, remaining: int)
    requires i < |states| && AllIssued(states, i) && q in states[i].flight && states[i].flight[q].end.Some?
    ensures var e := ReplyEvent(states[i].flight[q], SourceOf(states, i, q), workers, remaining);
            && ControllerAfter(states[i].controller, states[i].flight[q], workers, remaining)
               == React(states[i].controller, e, TicketAt(Controllers(states)[..i + 1], e))
            && (!e.Quiet? && !e.Ceiling? ==> e.ticket <= i)
  {
    var e := ReplyEvent(states[i].flight[q], SourceOf(states, i, q), workers, remaining);
    SourceTicket(states, i, q, e);
    ReplyReacts(states[i].controller, states[i].flight[q], SourceOf(states, i, q), workers, remaining);
  }

  /** Only a launch pass and a result touch the controller. */
  lemma ControllerStep(s: State, step: Step)
    requires Enabled(s, step)
    ensures step.StepAdjust? ==>
      Apply(s, step).controller == Clamp(s.controller, WorkerLimit(step.workers, s.active + |s.tasks|))
    ensures step.StepReceive? ==>
      Apply(s, step).controller == ControllerAfter(s.controller, s.flight[step.index], step.workers, s.active - 1 + |s.tasks|)
    ensures !step.StepAdjust? && !step.StepReceive? ==> Apply(s, step).controller == s.controller
  {
  }

  lemma SourceTicket(states: seq<State>, i: nat, q: nat, e: Event)
    requires i < |states| && AllIssued(states, i) && q in states[i].flight
    requires !e.Quiet? && !e.Ceiling? ==> e.ticket == SourceOf(states, i, q)
    ensures !e.Quiet? && !e.Ceiling? ==> TicketAt(Controllers(states)[..i + 1], e) == states[i].flight[q].task.ticket
  {
  }

  /** The controller of every transfer goes through a history in which all tickets were really issued. */
  lemma ControllerHistory(states: seq<State>, steps: seq<Step>) returns (events: seq<Event>)
    requires Execution(states, steps)
    ensures EventsOf(states, steps, events) && History(Controllers(states), events)
  {
    forall i | 0 <= i < |steps|
      ensures Enabled(states[i], steps[i]) && AllIssued(states, i)
    {
      assert StepAt(states, steps, i);
      TicketsAreIssued(states, steps, i);
    }
    events := seq(|steps|, i requires 0 <= i < |steps| => EventOf(states, steps, i));
    forall i | 0 <= i < |events|
      ensures EventAt(Controllers(states), events, i)
    {
      EventReacts(states, steps, i);
    }
  }

  // ----- the controller's results, of transfers -----

  /** The loop takes a throttle of the controller's current generation. */
  ghost predicate TakesThrottle(s: State, step: Step)
  {
    && step.StepReceive? && step.index in s.flight && s.flight[step.index].end == Some(ServerBusy)
    && var a := s.flight[step.index];
       a.task.ticket.generation ==
       Clamp(s.controller, WorkerLimit(step.workers, s.active - 1 + |s.tasks| + if Again(a) then 1 else 0)).generation
  }

  lemma ThrottleIsEffective(states: seq<State>, steps: seq<Step>, events: seq<Event>, i: nat)
    requires i < |steps| == |events| && |states| == |steps| + 1 && Enabled(states[i], steps[i]) && AllIssued(states, i)
    requires events[i] == EventOf(states, steps, i)
    ensures Effective(Controllers(states), events, i) <==> TakesThrottle(states[i], steps[i])
  {
    if steps[i].StepReceive? {
      SourceTicket(states, i, steps[i].index, events[i]);
    }
  }

  /** After a throttle at a limit above one, the transfer never reaches that limit again. */
  lemma NeverAtThrottledLimit(states: seq<State>, steps: seq<Step>, i: nat, j: nat)
    requires Execution(states, steps) && i < |steps| && TakesThrottle(states[i], steps[i])
    requires states[i].controller.limit > 1 && i < j < |states|
    ensures states[j].controller.limit < states[i].controller.limit
  {
    var events := ControllerHistory(states, steps);
    ThrottleIsEffective(states, steps, events, i);
    ThrottledForGood(Controllers(states), events, i, j);
  }

  /** The options never allow more than `most` workers. */
  ghost predicate AtMost(step: Step, most: nat)
  {
    (step.StepAdjust? || step.StepReceive?) ==> Configured(step.workers) <= most
  }

  lemma CeilingsAtMost(states: seq<State>, steps: seq<Step>, events: seq<Event>, most: nat, i: nat)
    requires Execution(states, steps) && EventsOf(states, steps, events) && i < |steps| && 1 <= most && AtMost(steps[i], most)
    ensures CeilingOf(events[i]) <= most
  {
    assert events[i] == EventOf(states, steps, i);
  }

  /** The number of throttles above limit one among the first `n` steps. */
  ghost function ThrottlesTaken(states: seq<State>, steps: seq<Step>, n: nat): nat
    requires n <= |steps| && |states| == |steps| + 1
  {
    if n == 0 then 0
    else ThrottlesTaken(states, steps, n - 1)
         + if TakesThrottle(states[n - 1], steps[n - 1]) && states[n - 1].controller.limit > 1 then 1 else 0
  }

  lemma {:induction false} SameThrottles(states: seq<State>, steps: seq<Step>, events: seq<Event>, n: nat)
    requires |states| == |steps| + 1 && |events| == |steps| && n <= |steps|
    requires forall i :: 0 <= i < n ==> (Effective(Controllers(states), events, i) <==> TakesThrottle(states[i], steps[i]))
    ensures ThrottlesTaken(states, steps, n) == Throttles(Controllers(states), events, n)
  {
    if n > 0 {
      SameThrottles(states, steps, events, n - 1);
    }
  }

  /** A transfer takes fewer throttles above limit one than the options ever allow workers. */
  lemma FewThrottlesTaken(states: seq<State>, steps: seq<Step>, most: nat)
    requires Execution(states, steps) && 1 <= most && forall i :: 0 <= i < |steps| ==> AtMost(steps[i], most)
    ensures ThrottlesTaken(states, steps, |steps|) <= most - 1
  {
    var events := ControllerHistory(states, steps);
    forall i | 0 <= i < |events|
      ensures CeilingOf(events[i]) <= most
    {
      CeilingsAtMost(states, steps, events, most, i);
    }
    FewThrottles(Controllers(states), events, most);
    forall i | 0 <= i < |steps|
      ensures Effective(Controllers(states), events, i) <==> TakesThrottle(states[i], steps[i])
    {
      ThrottleIsEffective(states, steps, events, i);
    }
    SameThrottles(states, steps, events, |steps|);
  }

  /** In every state of a transfer the limit and the workers are at most what the options ever allowed. */
  lemma {:induction false} WorkersWithinOptions(states: seq<State>, steps: seq<Step>, most: nat, i: nat)
    requires Execution(states, steps) && 1 <= most && i < |states| && forall k :: 0 <= k < |steps| ==> AtMost(steps[k], most)
    ensures 1 <= states[i].controller.limit <= most && |states[i].flight| == states[i].active <= most
  {
    LimitWithinOptions(states, steps, most, i);
    FlightCounted(states, steps, i);
    if i > 0 {
      WorkersWithinOptions(states, steps, most, i - 1);
      WorkersGrow(states, steps, i);
    }
  }

  lemma LimitWithinOptions(states: seq<State>, steps: seq<Step>, most: nat, i: nat)
    requires Execution(states, steps) && 1 <= most && i < |states| && forall k :: 0 <= k < |steps| ==> AtMost(steps[k], most)
    ensures 1 <= states[i].controller.limit <= most
  {
    var events := ControllerHistory(states, steps);
    forall k | 0 <= k < |events|
      ensures CeilingOf(events[k]) <= most
    {
      CeilingsAtMost(states, steps, events, most, k);
    }
    LimitWithinCeilings(Controllers(states), events, most, i);
  }

  lemma FlightCounted(states: seq<State>, steps: seq<Step>, i: nat)
    requires Execution(states, steps) && i < |states|
    ensures states[i].active == |states[i].flight|
  {
    ExecutionKeeps(states, steps, i);
  }

  lemma WorkersGrow(states: seq<State>, steps: seq<Step>, i: nat)
    requires Execution(states, steps) && 0 < i < |states| && 1 <= states[i - 1].controller.limit
    ensures states[i].active <= (if states[i - 1].active < states[i - 1].controller.limit
                                 then states[i - 1].controller.limit else states[i - 1].active)
  {
    assert StepAt(states, steps, i - 1);
    OneMoreWorker(states[i - 1], steps[i - 1]);
  }

  lemma OneMoreWorker(s: State, step: Step)
    requires Enabled(s, step) && 1 <= s.controller.limit
    ensures Apply(s, step).active <= if s.active < s.controller.limit then s.controller.limit else s.active
  {
  }
}
