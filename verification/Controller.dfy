/**
 The adaptive concurrency controller of a segmented transfer: it probes upwards
 after enough successes, steps back when the server throttles, and never probes
 a rejected level again. A reply is judged by the limit and generation its
 request was launched under, so late replies of older generations change nothing.
 */
module Controller {

  datatype Controller = Controller(limit: int, successes: int, rejected: int, generation: int)

  /** The limit and the generation a request is launched under. */
  datatype Ticket = Ticket(limit: int, generation: int)

  function NewController(): Controller { Controller(1, 0, 0, 0) }

  function Limit(c: Controller): int { if c.limit < 1 then 1 else c.limit }

  function TicketOf(c: Controller): Ticket { Ticket(Limit(c), c.generation) }

  /** The largest limit that the ceiling allows and that no rejected limit rules out, and at least 1. */
  function Adjusted(c: Controller, ceiling: int): (r: int)
    ensures 1 <= r && (r == 1 || (r <= ceiling && (c.rejected > 0 ==> r < c.rejected)))
    ensures ceiling <= r || (c.rejected > 0 && c.rejected <= r + 1)
  {
    var ceiling := if ceiling < 1 then 1 else ceiling;
    if c.rejected > 0 && ceiling >= c.rejected then (if c.rejected - 1 < 1 then 1 else c.rejected - 1) else ceiling
  }

  function Clamp(c: Controller, ceiling: int): Controller
  {
    var next := if Limit(c) > Adjusted(c, ceiling) then Adjusted(c, ceiling) else Limit(c);
    if next == c.limit then c else Controller(next, 0, c.rejected, c.generation + 1)
  }

  function Success(c: Controller, t: Ticket, ceiling: int): Controller
  {
    var c := Clamp(c, ceiling);
    if t.generation != c.generation || t.limit != c.limit then c
    else if c.successes + 1 < c.limit then c.(successes := c.successes + 1)
    else if c.limit < Adjusted(c, ceiling) then Controller(c.limit + 1, 0, c.rejected, c.generation + 1)
    else c.(successes := 0)
  }

  function Throttle(c: Controller, t: Ticket, ceiling: int): Controller
  {
    var c := Clamp(c, ceiling);
    if t.generation != c.generation then c
    else
      var launched := if t.limit < 1 then Limit(c) else t.limit;
      var c := if launched > 1 && (c.rejected == 0 || launched < c.rejected) then c.(rejected := launched) else c;
      var next := if launched - 1 < 1 then 1 else launched - 1;
      Controller(if next > Adjusted(c, ceiling) then Adjusted(c, ceiling) else next, 0, c.rejected, c.generation + 1)
  }

  function RetryableError(c: Controller, t: Ticket, ceiling: int): Controller
  {
    var c := Clamp(c, ceiling);
    if t.generation != c.generation || t.limit != c.limit then c
    else c.(successes := 0, generation := c.generation + 1)
  }

  // ----- runs -----

  /**
   `ticket` is the index of an earlier state whose ticket the reply carries. `Quiet`
   stands for whatever leaves the controller alone, such as reading a ticket.
   */
  datatype Event =
    | Quiet
    | Ceiling(ceiling: int)
    | Succeeded(ticket: nat, ceiling: int)
    | Throttled(ticket: nat, ceiling: int)
    | Failed(ticket: nat, ceiling: int)

  /** The ceiling an event brings along. */
  function CeilingOf(e: Event): int
  {
    if e.Quiet? then 1 else e.ceiling
  }

  function React(c: Controller, e: Event, t: Ticket): Controller
  {
    match e
    case Quiet => c
    case Ceiling(m) => Clamp(c, m)
    case Succeeded(_, m) => Success(c, t, m)
    case Throttled(_, m) => Throttle(c, t, m)
    case Failed(_, m) => RetryableError(c, t, m)
  }

  /** The ticket an event refers to, taken from the states so far. */
  function TicketAt(states: seq<Controller>, e: Event): Ticket
    requires states != []
  {
    if e.Quiet? || e.Ceiling? || e.ticket >= |states| then TicketOf(states[|states| - 1]) else TicketOf(states[e.ticket])
  }

  ghost predicate History(states: seq<Controller>, events: seq<Event>)
  {
    && |states| == |events| + 1 && states[0] == NewController()
    && forall i :: 0 <= i < |events| ==> EventAt(states, events, i)
  }

  ghost predicate EventAt(states: seq<Controller>, events: seq<Event>, i: nat)
    requires i < |events| && |states| == |events| + 1
  {
    && (!events[i].Quiet? && !events[i].Ceiling? ==> events[i].ticket <= i)
    && states[i + 1] == React(states[i], events[i], TicketAt(states[..i + 1], events[i]))
  }

  ghost predicate Valid(c: Controller)
  {
    0 <= c.successes < c.limit && (c.rejected == 0 || (2 <= c.rejected && c.limit < c.rejected))
  }

  /** A limit never changes without a new generation, and generations only grow. */
  ghost predicate Advances(c: Controller, d: Controller)
  {
    && c.generation <= d.generation && (c.generation == d.generation ==> c.limit == d.limit)
    && (c.rejected != 0 ==> d.rejected != 0 && d.rejected <= c.rejected)
  }

  lemma ReactKeeps(c: Controller, e: Event, t: Ticket)
    requires Valid(c) && (t.generation == c.generation ==> t.limit == c.limit) && t.generation <= c.generation
    ensures Valid(React(c, e, t)) && Advances(c, React(c, e, t))
  {
  }

  lemma {:induction false} RunKeeps(states: seq<Controller>, events: seq<Event>, i: nat, j: nat)
    requires History(states, events) && i <= j < |states|
    ensures Valid(states[i]) && Valid(states[j]) && Advances(states[i], states[j])
    decreases j
  {
    if j > 0 {
      assert EventAt(states, events, j - 1);
      RunKeeps(states, events, if i < j then i else j - 1, j - 1);
      if !events[j - 1].Quiet? && !events[j - 1].Ceiling? {
        RunKeeps(states, events, events[j - 1].ticket, j - 1);
      }
      ReactKeeps(states[j - 1], events[j - 1], TicketAt(states[..j], events[j - 1]));
    }
  }

  /** Tickets of one generation carry one limit, whenever they were issued. */
  lemma GenerationFixesLimit(states: seq<Controller>, events: seq<Event>, i: nat, j: nat)
    requires History(states, events) && i < |states| && j < |states|
    requires states[i].generation == states[j].generation
    ensures TicketOf(states[i]) == TicketOf(states[j])
  {
    RunKeeps(states, events, if i < j then i else j, if i < j then j else i);
  }

  /** The limit stays between one and the largest ceiling. */
  lemma {:induction false} LimitWithinCeilings(states: seq<Controller>, events: seq<Event>, most: nat, i: nat)
    requires History(states, events) && 1 <= most && i < |states|
    requires forall k :: 0 <= k < |events| ==> CeilingOf(events[k]) <= most
    ensures 1 <= states[i].limit <= most
  {
    RunKeeps(states, events, i, i);
    if i > 0 {
      LimitWithinCeilings(states, events, most, i - 1);
      assert EventAt(states, events, i - 1);
      RunKeeps(states, events, i - 1, i - 1);
      if events[i - 1].Throttled? && Effective(states, events, i - 1) {
        ThrottleStepsBack(states, events, i - 1);
      }
    }
  }

  // ----- probing upwards -----

  /** The event is a reply to a request launched in the generation in force. */
  ghost predicate Current(states: seq<Controller>, events: seq<Event>, i: nat)
    requires i < |events| && |states| == |events| + 1
  {
    !events[i].Quiet? && !events[i].Ceiling? && TicketAt(states[..i + 1], events[i]).generation == states[i].generation
  }

  ghost predicate HasRoom(c: Controller, e: Event)
  {
    e.Quiet? || c.limit < Adjusted(c, e.ceiling)
  }

  /** There is room above the limit, and the event is not a current throttle or failure. */
  ghost predicate Undisturbed(states: seq<Controller>, events: seq<Event>, i: nat)
    requires i < |events| && |states| == |events| + 1
  {
    HasRoom(states[i], events[i]) && (Current(states, events, i) ==> events[i].Succeeded?)
  }

  /** The current successes among the events from `i` to `j`. */
  ghost function Arrivals(states: seq<Controller>, events: seq<Event>, i: nat, j: nat): nat
    requires i <= j <= |events| && |states| == |events| + 1
  {
    if i == j then 0
    else Arrivals(states, events, i, j - 1) + if Current(states, events, j - 1) && events[j - 1].Succeeded? then 1 else 0
  }

  /** One undisturbed event: a current success counts, the last one needed raises the limit, and nothing else changes anything. */
  lemma ReactUndisturbed(c: Controller, e: Event, t: Ticket)
    requires Valid(c) && HasRoom(c, e) && t.generation <= c.generation && (t.generation == c.generation ==> t.limit == c.limit)
    requires !e.Quiet? && !e.Ceiling? && t.generation == c.generation ==> e.Succeeded?
    ensures var d := React(c, e, t);
            if !e.Succeeded? || t.generation != c.generation then d == c
            else if c.successes + 1 < c.limit then d == c.(successes := c.successes + 1)
            else d == Controller(c.limit + 1, 0, c.rejected, c.generation + 1)
  {
  }

  lemma StepUndisturbed(states: seq<Controller>, events: seq<Event>, i: nat)
    requires History(states, events) && i < |events| && Undisturbed(states, events, i)
    ensures var c, d := states[i], states[i + 1];
            if !(Current(states, events, i) && events[i].Succeeded?) then d == c
            else if c.successes + 1 < c.limit then d == c.(successes := c.successes + 1)
            else d == Controller(c.limit + 1, 0, c.rejected, c.generation + 1)
  {
    assert EventAt(states, events, i);
    RunKeeps(states, events, i, i);
    var e := events[i];
    if !e.Quiet? && !e.Ceiling? {
      RunKeeps(states, events, e.ticket, i);
      assert TicketAt(states[..i + 1], e) == TicketOf(states[e.ticket]);
    } else {
      assert TicketAt(states[..i + 1], e) == TicketOf(states[i]);
    }
    ReactUndisturbed(states[i], e, TicketAt(states[..i + 1], e));
  }

  /** Undisturbed successes are counted one by one, and as long as fewer have arrived than the limit, it stays. */
  lemma {:induction false} Counts(states: seq<Controller>, events: seq<Event>, i: nat, j: nat)
    requires History(states, events) && i <= j <= |events|
    requires forall k :: i <= k < j ==> Undisturbed(states, events, k)
    requires states[i].successes + Arrivals(states, events, i, j) < states[i].limit
    ensures states[j] == states[i].(successes := states[i].successes + Arrivals(states, events, i, j))
    decreases j
  {
    if i < j {
      Counts(states, events, i, j - 1);
      StepUndisturbed(states, events, j - 1);
    }
  }

  /** Enough of them raise the limit by one, in a new generation; late replies in between do no harm. */
  lemma Climbs(states: seq<Controller>, events: seq<Event>, i: nat, j: nat)
    requires History(states, events) && i < j <= |events|
    requires forall k :: i <= k < j ==> Undisturbed(states, events, k)
    requires states[i].successes + Arrivals(states, events, i, j - 1) + 1 == states[i].limit
    requires Current(states, events, j - 1) && events[j - 1].Succeeded?
    ensures states[j] == Controller(states[i].limit + 1, 0, states[i].rejected, states[i].generation + 1)
  {
    Counts(states, events, i, j - 1);
    StepUndisturbed(states, events, j - 1);
  }

  /** A current failure that may pass keeps the limit and starts the count over in a new generation. */
  lemma FailureStartsOver(states: seq<Controller>, events: seq<Event>, i: nat)
    requires History(states, events) && i < |events| && events[i].Failed? && Current(states, events, i)
    requires states[i].limit <= Adjusted(states[i], events[i].ceiling)
    ensures states[i + 1] == states[i].(successes := 0, generation := states[i].generation + 1)
  {
    assert EventAt(states, events, i);
    RunKeeps(states, events, events[i].ticket, i);
  }

  /** A ceiling below the limit comes first and starts a new generation, so the reply is late; a late reply changes nothing. */
  lemma LateReply(states: seq<Controller>, events: seq<Event>, i: nat)
    requires History(states, events) && i < |events| && !events[i].Quiet?
    ensures states[i].limit > Adjusted(states[i], events[i].ceiling) ==>
              states[i + 1] == Controller(Adjusted(states[i], events[i].ceiling), 0, states[i].rejected, states[i].generation + 1)
    ensures states[i].limit <= Adjusted(states[i], events[i].ceiling) && !Current(states, events, i) ==> states[i + 1] == states[i]
  {
    assert EventAt(states, events, i);
    RunKeeps(states, events, i, i);
    if !events[i].Ceiling? {
      RunKeeps(states, events, events[i].ticket, i);
    }
  }

  // ----- throttles -----

  /** A throttle takes effect when its ticket is of the current generation. */
  ghost predicate Effective(states: seq<Controller>, events: seq<Event>, i: nat)
    requires i < |events| && |states| == |events| + 1
  {
    events[i].Throttled? && TicketAt(states[..i + 1], events[i]).generation == Clamp(states[i], events[i].ceiling).generation
  }

  /** For tickets the controller issued, a throttle steps the limit back by exactly one. */
  lemma ThrottleStepsBack(states: seq<Controller>, events: seq<Event>, i: nat)
    requires History(states, events) && i < |events| && Effective(states, events, i)
    ensures var k := states[i].limit;
            && states[i + 1].limit == (if k == 1 then 1 else k - 1)
            && states[i + 1].rejected == (if k == 1 then states[i].rejected else k)
            && states[i + 1].successes == 0 && states[i + 1].generation == states[i].generation + 1
            && k <= (if events[i].ceiling < 1 then 1 else events[i].ceiling)
  {
    assert EventAt(states, events, i);
    RunKeeps(states, events, events[i].ticket, i);
  }

  /** A throttle counts for the limit its ticket names, or for the limit in force if it names none. */
  lemma ThrottleByTicket(c: Controller, t: Ticket, ceiling: int)
    requires Valid(c) && t.generation == c.generation && c.limit <= Adjusted(c, ceiling)
    ensures var k, d := if t.limit < 1 then c.limit else t.limit, Throttle(c, t, ceiling);
            && d.generation == c.generation + 1 && d.successes == 0 && 1 <= d.limit
            && (k == 1 ==> d.limit == 1 && d.rejected == c.rejected)
            && (k > 1 ==> d.limit < k && d.rejected == if c.rejected == 0 || k < c.rejected then k else c.rejected)
            && (1 < k <= c.limit ==> d.limit == k - 1)
  {
  }

  /** Once a limit above 1 was throttled, the run never reaches it again. */
  lemma ThrottledForGood(states: seq<Controller>, events: seq<Event>, i: nat, j: nat)
    requires History(states, events) && i < |events| && Effective(states, events, i) && states[i].limit > 1
    requires i < j < |states|
    ensures states[j].limit < states[i].limit
  {
    ThrottleStepsBack(states, events, i);
    RunKeeps(states, events, i + 1, j);
  }

  /** The number of throttles above limit 1 that took effect among the first `n` events. */
  ghost function Throttles(states: seq<Controller>, events: seq<Event>, n: nat): nat
    requires n <= |events| && |states| == |events| + 1
  {
    if n == 0 then 0
    else Throttles(states, events, n - 1) + if Effective(states, events, n - 1) && states[n - 1].limit > 1 then 1 else 0
  }

  /** Each one rejects a smaller limit than the last, so there are fewer than the largest ceiling. */
  lemma FewThrottles(states: seq<Controller>, events: seq<Event>, most: nat)
    requires History(states, events) && 1 <= most
    requires forall i :: 0 <= i < |events| ==> CeilingOf(events[i]) <= most
    ensures Throttles(states, events, |events|) <= most - 1
  {
    ThrottlesSoFar(states, events, most, |events|);
  }

  lemma {:induction false} ThrottlesSoFar(states: seq<Controller>, events: seq<Event>, most: nat, n: nat)
    requires History(states, events) && 1 <= most && n <= |events|
    requires forall i :: 0 <= i < |events| ==> CeilingOf(events[i]) <= most
    ensures Throttles(states, events, n) <= if states[n].rejected == 0 then 0 else most + 1 - states[n].rejected
    ensures Throttles(states, events, n) <= most - 1
  {
    if n > 0 {
      ThrottlesSoFar(states, events, most, n - 1);
      RunKeeps(states, events, n - 1, n);
      assert EventAt(states, events, n - 1);
      if Effective(states, events, n - 1) {
        ThrottleStepsBack(states, events, n - 1);
      }
    }
  }

  // ----- the controller in place -----

  class SegmentedConcurrencyController {
    var effectiveLimit: int
    var successesAtLimit: int
    var rejectedProbeLimit: int
    var generation: int

    function View(): Controller
      reads this
    {
      Controller(effectiveLimit, successesAtLimit, rejectedProbeLimit, generation)
    }

    constructor (ceiling: int)
      ensures View() == NewController()
    {
      effectiveLimit, successesAtLimit, rejectedProbeLimit, generation := 1, 0, 0, 0;
      new;
      ClampCeiling(ceiling);
    }

    function AdjustedCeiling(ceiling: int): (r: int)
      reads this
      ensures r == Adjusted(View(), ceiling)
    {
      var ceiling := if ceiling < 1 then 1 else ceiling;
      if rejectedProbeLimit > 0 && ceiling >= rejectedProbeLimit
      then (if rejectedProbeLimit - 1 < 1 then 1 else rejectedProbeLimit - 1) else ceiling
    }

    method ClampCeiling(ceiling: int)
      modifies this
      ensures View() == Clamp(old(View()), ceiling)
    {
      var ceiling, oldLimit := AdjustedCeiling(ceiling), effectiveLimit;
      if effectiveLimit < 1 {
        effectiveLimit := 1;
      }
      if effectiveLimit > ceiling {
        effectiveLimit := ceiling;
      }
      if effectiveLimit != oldLimit {
        successesAtLimit := 0;
        generation := generation + 1;
      }
    }

    method OnSuccess(t: Ticket, ceiling: int)
      modifies this
      ensures View() == Success(old(View()), t, ceiling)
    {
      ClampCeiling(ceiling);
      if t.generation != generation || t.limit != effectiveLimit {
        return;
      }
      successesAtLimit := successesAtLimit + 1;
      if successesAtLimit < effectiveLimit {
        return;
      }
      successesAtLimit := 0;
      if effectiveLimit < AdjustedCeiling(ceiling) {
        effectiveLimit := effectiveLimit + 1;
        generation := generation + 1;
      }
    }

    method OnThrottle(t: Ticket, ceiling: int)
      modifies this
      ensures View() == Throttle(old(View()), t, ceiling)
    {
      ClampCeiling(ceiling);
      if t.generation != generation {
        return;
      }
      var launchLimit := if t.limit < 1 then Limit(View()) else t.limit;
      if launchLimit > 1 && (rejectedProbeLimit == 0 || launchLimit < rejectedProbeLimit) {
        rejectedProbeLimit := launchLimit;
      }
      var nextLimit := if launchLimit - 1 < 1 then 1 else launchLimit - 1;
      if nextLimit > AdjustedCeiling(ceiling) {
        nextLimit := AdjustedCeiling(ceiling);
      }
      effectiveLimit := nextLimit;
      successesAtLimit := 0;
      generation := generation + 1;
    }

    method OnRetryableError(t: Ticket, ceiling: int)
      modifies this
      ensures View() == RetryableError(old(View()), t, ceiling)
    {
      ClampCeiling(ceiling);
      if t.generation != generation || t.limit != effectiveLimit {
        return;
      }
      successesAtLimit := 0;
      generation := generation + 1;
    }
  }
}
