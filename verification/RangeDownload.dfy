/** One attempt at one range: the request, the checks of the response, the copy and the close. */
module RangeDownload {
  import opened Collections
  import opened Chunks
  import opened ContentRange
  import opened Segmented
  import opened SegmentedInvariant
  import opened SegmentedTheorems
  import opened CopyLoop

  /** What the network and the file system do in one attempt; `Retryable` fields classify the error. */
  datatype Exchange = Exchange(
    requestFails: bool, requestRetryable: bool,
    status: int, response: Response,
    openFails: bool, openRetryable: bool,
    body: seq<byte>, buffer: nat, lowestSpeed: bool, turns: seq<Turn>, copyRetryable: bool,
    closeFails: bool, closeRetryable: bool)

  /** Statuses that make the controller step back. */
  predicate ThrottleStatus(status: int)
  {
    status == 403 || status == 429 || 500 <= status <= 599
  }

  /** A refusal by status: throttling is told apart first, and of the rest only a request timeout is tried again. */
  function Refusal(status: int): End
  {
    if ThrottleStatus(status) then ServerBusy else Refused(status == 408)
  }

  /** The response to the request for range `i` is one the program takes. */
  predicate Accepts(p: Plan, i: nat, x: Exchange)
    requires i < |p.chunks|
  {
    !x.requestFails && x.status == 206 && ValidateExact(x.response, p.chunks[i].start, p.chunks[i].end, p.total).Some?
  }

  /**
   Whatever happens, an attempt writes a prefix of the body into its range, only
   from a response it accepted, and returns only in a way the transfer allows its
   workers to end. `None` stands for an attempt that is still copying. What the
   network and the file system did decides how: throttling statuses are told apart,
   and an accepted body that is copied and closed without a fault completes it.
   */
  method DownloadRange(p: Plan, i: nat, x: Exchange) returns (end: Option<End>, events: seq<Event>)
    requires PlanOk(p) && i < |p.chunks|
    ensures Legal(events) && Told(events) <= |Data(events)| <= Size(p, i)
    ensures |Data(events)| <= |x.body| && Data(events) == x.body[..|Data(events)|]
    ensures end.Some? ==> CanEnd(p, i, Data(events), Told(events), end.value)
    ensures Data(events) != [] || end == Some(Completed) ==> Accepts(p, i, x)
    ensures x.requestFails ==> end == Some(Refused(x.requestRetryable))
    ensures !x.requestFails && (x.status == 403 || x.status == 429 || 500 <= x.status <= 599) ==> end == Some(ServerBusy)
    ensures !x.requestFails && x.status == 408 ==> end == Some(Refused(true))
    ensures !x.requestFails && x.status != 408 && !Accepts(p, i, x) ==> end == Some(ServerBusy) || end == Some(Refused(false))
    ensures !x.requestFails && x.status == 206 && !Accepts(p, i, x) ==> end == Some(Refused(false))
    ensures end == Some(ServerBusy) ==> !x.requestFails && ThrottleStatus(x.status)
    ensures Accepts(p, i, x) && x.openFails ==> end == Some(Refused(x.openRetryable))
    ensures Accepts(p, i, x) && !x.openFails ==>
              && (end.Some? ==> end.value in {Completed, BodyFailed(x.copyRetryable), CloseFailed(x.closeRetryable)})
              && (end == Some(Completed) ==> !x.closeFails) && (end == Some(CloseFailed(x.closeRetryable)) ==> x.closeFails)
              && (AllClean(x.buffer, x.turns) && Size(p, i) <= |x.body| && Size(p, i) < |x.turns| ==>
                    end == Some(if x.closeFails then CloseFailed(x.closeRetryable) else Completed))
  {
    assert 1 <= Length(p.chunks[i]);
    events := [];
    if x.requestFails {
      return Some(Refused(x.requestRetryable)), events;
    }
    if x.status != 206 {
      return Some(Refusal(x.status)), events;
    }
    if ValidateExact(x.response, p.chunks[i].start, p.chunks[i].end, p.total).None? {
      return Some(Refused(false)), events;
    }
    if x.openFails {
      return Some(Refused(x.openRetryable)), events;
    }
    var outcome;
    outcome, events := CopyExact(x.body, Size(p, i), x.buffer, x.lowestSpeed, x.turns);
    match outcome
    case Running => end := None;
    case Failed => end := Some(BodyFailed(x.copyRetryable));
    case Copied => end := if x.closeFails then Some(CloseFailed(x.closeRetryable)) else Some(Completed);
  }

  // ----- an attempt is a run of worker steps -----

  /** The worker step an event of the copy is. */
  function StepOf(i: nat, e: Event): Step
  {
    match e case Wrote(data) => StepWrite(i, data) case Reported(n) => StepFlush(i, n)
  }

  function StepsOf(i: nat, events: seq<Event>, end: Option<End>): seq<Step>
  {
    seq(|events|, k requires 0 <= k < |events| => StepOf(i, events[k])) + if end.Some? then [StepEnd(i, end.value)] else []
  }

  /** The attempt at range `i` has done these events and has not returned. */
  ghost predicate Has(s: State, i: nat, events: seq<Event>)
  {
    && i in s.flight && s.flight[i].end.None?
    && s.flight[i].data == Data(events) && s.flight[i].flushed == Told(events)
  }

  ghost predicate RoomIn(s: State, i: nat)
  {
    i < |s.plan.chunks| && 0 <= Start(s.plan, i) && Start(s.plan, i) + Size(s.plan, i) <= |s.file|
  }

  ghost predicate Fragment(states: seq<State>, steps: seq<Step>)
  {
    |states| == |steps| + 1 && forall k :: 0 <= k < |steps| ==> StepAt(states, steps, k)
  }

  lemma ExtendFragment(states: seq<State>, steps: seq<Step>, step: Step) returns (next: seq<State>)
    requires Fragment(states, steps) && Enabled(states[|steps|], step)
    ensures Fragment(next, steps + [step]) && next == states + [Apply(states[|steps|], step)]
  {
    next := states + [Apply(states[|steps|], step)];
    forall k | 0 <= k < |steps + [step]|
      ensures StepAt(next, steps + [step], k)
    {
      if k < |steps| {
        assert StepAt(states, steps, k);
      }
    }
  }

  /** After the first events of an attempt, its next event is an enabled step that leads to having done it too. */
  lemma EventEnabled(s: State, i: nat, events: seq<Event>, e: Event)
    requires Has(s, i, events) && RoomIn(s, i) && Legal(events + [e]) && |Data(events + [e])| <= Size(s.plan, i)
    ensures Enabled(s, StepOf(i, e))
    ensures Has(Apply(s, StepOf(i, e)), i, events + [e]) && RoomIn(Apply(s, StepOf(i, e)), i)
    ensures Apply(s, StepOf(i, e)).plan == s.plan
  {
    OneMore(events, e);
  }

  lemma {:induction false} DataGrows(events: seq<Event>, k: nat)
    requires k <= |events|
    ensures Data(events[..k]) <= Data(events)
    decreases |events|
  {
    if k < |events| {
      DataGrows(events[..|events| - 1], k);
      assert events[..|events| - 1][..k] == events[..k];
    } else {
      assert events[..k] == events;
    }
  }

  /** From a fresh launch, all the events of a legal copy are worker steps of the transfer, one after the other. */
  lemma {:induction false} EventsRun(s: State, i: nat, events: seq<Event>) returns (states: seq<State>)
    requires Has(s, i, []) && RoomIn(s, i) && Legal(events) && |Data(events)| <= Size(s.plan, i)
    ensures Fragment(states, StepsOf(i, events, None)) && states[0] == s
    ensures Has(states[|events|], i, events) && RoomIn(states[|events|], i) && states[|events|].plan == s.plan
    decreases |events|
  {
    if events == [] {
      states := [s];
      assert StepsOf(i, events, None) == [];
    } else {
      var n := |events| - 1;
      var front, e := events[..n], events[n];
      assert events == front + [e];
      DataGrows(events, n);
      states := EventsRun(s, i, front);
      EventEnabled(states[n], i, front, e);
      assert StepsOf(i, events, None) == StepsOf(i, front, None) + [StepOf(i, e)];
      states := ExtendFragment(states, StepsOf(i, front, None), StepOf(i, e));
    }
  }

  /** And its return is one too: the whole attempt is a fragment of an execution, ending with its result. */
  lemma AttemptRuns(s: State, i: nat, events: seq<Event>, end: End) returns (states: seq<State>)
    requires Has(s, i, []) && RoomIn(s, i) && Legal(events) && |Data(events)| <= Size(s.plan, i)
    requires CanEnd(s.plan, i, Data(events), Told(events), end)
    ensures Fragment(states, StepsOf(i, events, Some(end))) && states[0] == s
    ensures var t := states[|events| + 1];
            i in t.flight && t.flight[i].data == Data(events) && t.flight[i].flushed == Told(events) && t.flight[i].end == Some(end)
  {
    states := EventsRun(s, i, events);
    assert StepsOf(i, events, Some(end)) == StepsOf(i, events, None) + [StepEnd(i, end)];
    states := ExtendFragment(states, StepsOf(i, events, None), StepEnd(i, end));
  }

  /** The body carries the bytes of the representation that were asked for, as far as it goes. */
  ghost predicate TruthfulBody(p: Plan, i: nat, x: Exchange, representation: seq<byte>)
    requires i < |p.chunks|
  {
    forall k :: 0 <= k < |x.body| && k < Size(p, i) && 0 <= Start(p, i) + k < |representation| ==>
      x.body[k] == representation[Start(p, i) + k]
  }

  /**
   If accepted responses are truthful, every write of an attempt is honest, in any
   state in which the attempt has done its earlier events, whatever other workers
   and the loop have done in between.
   */
  lemma WritesAreHonest(s: State, i: nat, x: Exchange, events: seq<Event>, k: nat, representation: seq<byte>)
    requires RoomIn(s, i) && |representation| == |s.file|
    requires |Data(events)| <= |x.body| && Data(events) == x.body[..|Data(events)|] && |Data(events)| <= Size(s.plan, i)
    requires Data(events) != [] ==> Accepts(s.plan, i, x)
    requires Accepts(s.plan, i, x) ==> TruthfulBody(s.plan, i, x, representation)
    requires k < |events| && Has(s, i, events[..k])
    ensures Honest(s, StepOf(i, events[k]), representation)
  {
    if events[k].Wrote? {
      WrittenSlice(x.body, events, k);
      if Data(events) == [] {
        assert Holds(representation, Start(s.plan, i) + |s.flight[i].data|, events[k].data);
      } else {
        assert TruthfulBody(s.plan, i, x, representation);
        HonestWrite(s, i, x, events[k].data, representation);
      }
    }
  }

  lemma HonestWrite(s: State, i: nat, x: Exchange, data: seq<byte>, representation: seq<byte>)
    requires RoomIn(s, i) && |representation| == |s.file| && TruthfulBody(s.plan, i, x, representation) && i in s.flight
    requires var at := |s.flight[i].data|; at + |data| <= |x.body| && at + |data| <= Size(s.plan, i) && data == x.body[at..at + |data|]
    ensures Honest(s, StepWrite(i, data), representation)
  {
    SliceHolds(representation, Start(s.plan, i), x.body, |s.flight[i].data|, data, Size(s.plan, i));
  }

  /** What an event writes is the next slice of the body. */
  lemma WrittenSlice(body: seq<byte>, events: seq<Event>, k: nat)
    requires |Data(events)| <= |body| && Data(events) == body[..|Data(events)|] && k < |events| && events[k].Wrote?
    ensures var at, data := |Data(events[..k])|, events[k].data;
            at + |data| <= |Data(events)| && data == body[at..at + |data|]
  {
    assert events[..k + 1] == events[..k] + [events[k]];
    OneMore(events[..k], events[k]);
    DataGrows(events, k + 1);
  }

  lemma SliceHolds(representation: seq<byte>, start: nat, body: seq<byte>, at: nat, data: seq<byte>, size: int)
    requires at + |data| <= |body| && data == body[at..at + |data|] && at + |data| <= size && start + size <= |representation|
    requires forall k :: 0 <= k < |body| && k < size && 0 <= start + k < |representation| ==> body[k] == representation[start + k]
    ensures Holds(representation, start + at, data)
  {
    var there := representation[start + at..start + at + |data|];
    forall m | 0 <= m < |data|
      ensures there[m] == data[m]
    {
      assert body[at + m] == data[m];
      assert body[at + m] == representation[start + (at + m)];
    }
    assert there == data;
  }
}
