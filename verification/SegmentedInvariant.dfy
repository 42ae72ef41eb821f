/** What every step of a segmented transfer keeps. */
module SegmentedInvariant {
  import opened Collections
  import opened Machine
  import opened Chunks
  import opened Bitfield
  import opened Controller
  import opened Progress
  import opened Segmented

  ghost function Indexes(tasks: seq<Task>): seq<nat>
  {
    seq(|tasks|, k requires 0 <= k < |tasks| => tasks[k].index)
  }

  /** Every range is in exactly one place: queued, in flight, finished or given up. */
  ghost predicate Placed(s: State)
  {
    NoDuplicates(Indexes(s.tasks)) && forall i: nat :: PlacedOnce(s, i)
  }

  ghost predicate PlacedOnce(s: State, i: nat)
  {
    && (i in Indexes(s.tasks) ==> i !in s.flight && i !in s.finished && i !in s.abandoned)
    && (i in s.flight ==> i !in s.finished && i !in s.abandoned)
    && (i in s.finished ==> i !in s.abandoned)
    && (i < |s.plan.chunks| <==> i in Indexes(s.tasks) || i in s.flight || i in s.finished || i in s.abandoned)
  }

  ghost predicate LoopOk(s: State)
  {
    s.active == |s.flight| && (s.abandoned != {} ==> s.failed)
  }

  ghost predicate AttemptOk(p: Plan, i: nat, a: Attempt)
  {
    && i < |p.chunks| && a.task.index == i && a.flushed <= |a.data| <= Size(p, i)
    && (a.end.Some? ==> CanEnd(p, i, a.data, a.flushed, a.end.value))
  }

  ghost predicate FlightOk(s: State)
  {
    forall i :: i in s.flight ==> AttemptOk(s.plan, i, s.flight[i])
  }

  ghost predicate Holds(file: seq<byte>, at: int, data: seq<byte>)
  {
    0 <= at && at + |data| <= |file| && file[at..at + |data|] == data
  }

  /** What a finished or running attempt received stands in the file, at its own range. */
  ghost predicate FileOk(s: State)
  {
    && |s.file| == s.plan.total as int
    && (forall i :: i in s.finished ==>
          i < |s.plan.chunks| && |s.finished[i]| == Size(s.plan, i) && Holds(s.file, Start(s.plan, i), s.finished[i]))
    && (forall i :: i in s.flight ==> i < |s.plan.chunks| && Holds(s.file, Start(s.plan, i), s.flight[i].data))
  }

  ghost predicate LaunchesOk(s: State)
  {
    && |s.launches| == |s.plan.chunks|
    && (forall k :: 0 <= k < |s.tasks| ==> s.tasks[k].index < |s.launches| && s.launches[s.tasks[k].index] == s.tasks[k].attempts)
    && (forall i :: i in s.flight ==> i < |s.launches| && s.launches[i] == s.flight[i].task.attempts)
  }

  /** A ticket of the controller's own generation carries its limit. */
  ghost predicate Issued(c: Controller, t: Ticket)
  {
    t.generation <= c.generation && (t.generation == c.generation ==> t.limit == c.limit)
  }

  ghost predicate TicketsOk(s: State)
  {
    Valid(s.controller) && forall i :: i in s.flight ==> Issued(s.controller, s.flight[i].task.ticket)
  }

  ghost predicate Inv(s: State)
  {
    && Layout(s.plan) && Placed(s) && LoopOk(s) && FlightOk(s)
    && FileOk(s) && LaunchesOk(s) && TicketsOk(s) && BitsOk(s)
  }

  // ----- places -----

  lemma IndexesAppend(tasks: seq<Task>, t: Task)
    ensures Indexes(tasks + [t]) == Indexes(tasks) + [t.index]
  {
  }

  lemma IndexesRemove(tasks: seq<Task>, k: nat)
    requires k < |tasks|
    ensures Indexes(tasks[..k] + tasks[k + 1..]) == Indexes(tasks)[..k] + Indexes(tasks)[k + 1..]
  {
  }

  lemma LaunchPlaced(s: State, k: nat, maxTries: int, retryWait: int)
    requires Placed(s) && LoopOk(s) && k < |s.tasks|
    ensures s.tasks[k].index !in s.flight
    ensures Placed(LaunchTask(s, k, maxTries, retryWait)) && LoopOk(LaunchTask(s, k, maxTries, retryWait))
  {
    var t := LaunchTask(s, k, maxTries, retryWait);
    var q := s.tasks[k].index;
    TaskTaken(s.tasks, k);
    assert PlacedOnce(s, q);
    assert t.flight.Keys == s.flight.Keys + {q};
    LaunchMoves(s, t, q);
  }

  lemma TaskTaken(tasks: seq<Task>, k: nat)
    requires NoDuplicates(Indexes(tasks)) && k < |tasks|
    ensures tasks[k].index in Indexes(tasks) && NoDuplicates(Indexes(tasks[..k] + tasks[k + 1..]))
    ensures forall i :: i in Indexes(tasks[..k] + tasks[k + 1..]) <==> i in Indexes(tasks) && i != tasks[k].index
  {
    assert Indexes(tasks)[k] == tasks[k].index;
    IndexesRemove(tasks, k);
    RemoveAt(Indexes(tasks), k);
  }

  lemma LaunchMoves(s: State, t: State, q: nat)
    requires Placed(s) && q in Indexes(s.tasks) && NoDuplicates(Indexes(t.tasks))
    requires forall i :: i in Indexes(t.tasks) <==> i in Indexes(s.tasks) && i != q
    requires t.flight.Keys == s.flight.Keys + {q} && t.finished == s.finished && t.abandoned == s.abandoned && t.plan == s.plan
    ensures Placed(t)
  {
    forall i: nat
      ensures PlacedOnce(t, i)
    {
      assert PlacedOnce(s, i);
    }
  }

  lemma ReceivePlaced(s: State, q: nat, now: int, workers: Connections)
    requires Placed(s) && LoopOk(s) && FlightOk(s) && q in s.flight && s.flight[q].end.Some?
    ensures Placed(Receive(s, q, now, workers)) && LoopOk(Receive(s, q, now, workers))
  {
    var a := s.flight[q];
    var t := Receive(s, q, now, workers);
    assert AttemptOk(s.plan, q, a);
    assert PlacedOnce(s, q);
    assert t.flight.Keys == s.flight.Keys - {q};
    if !a.end.value.Completed? && Again(a) {
      IndexesAppend(s.tasks, a.task.(notBefore := Some(now + a.retryWait)));
      DuplicateFreeAppend(Indexes(s.tasks), q);
    }
    forall i: nat
      ensures PlacedOnce(t, i)
    {
      assert PlacedOnce(s, i);
    }
  }

  lemma StepPlaced(s: State, step: Step)
    requires Placed(s) && LoopOk(s) && FlightOk(s) && Enabled(s, step)
    ensures Placed(Apply(s, step)) && LoopOk(Apply(s, step))
  {
    match step
    case StepLaunch(now, maxTries, retryWait) => LaunchPlaced(s, ReadyIndex(s.tasks, now), maxTries, retryWait);
    case StepReceive(i, now, workers) => ReceivePlaced(s, i, now, workers);
    case _ => SamePlaces(s, Apply(s, step));
  }

  lemma SamePlaces(s: State, t: State)
    requires Placed(s) && LoopOk(s) && t.flight.Keys == s.flight.Keys
    requires t.plan == s.plan && t.tasks == s.tasks && t.active == s.active && (s.failed ==> t.failed)
    requires t.finished == s.finished && t.abandoned == s.abandoned
    ensures Placed(t) && LoopOk(t)
  {
    assert |t.flight| == |t.flight.Keys| && |s.flight| == |s.flight.Keys|;
    forall i: nat
      ensures PlacedOnce(t, i)
    {
      assert PlacedOnce(s, i);
    }
  }

  // ----- attempts, launches and tickets -----

  lemma StepFlight(s: State, step: Step)
    requires FlightOk(s) && Placed(s) && Layout(s.plan) && Enabled(s, step)
    ensures FlightOk(Apply(s, step))
  {
    var t := Apply(s, step);
    forall i | i in t.flight
      ensures AttemptOk(t.plan, i, t.flight[i])
    {
      assert i in s.flight ==> AttemptOk(s.plan, i, s.flight[i]);
      if i !in s.flight {
        var k := ReadyIndex(s.tasks, step.now);
        assert Indexes(s.tasks)[k] == i;
        assert PlacedOnce(s, i) && Inside(s.plan, i);
      }
    }
  }

  lemma StepLaunches(s: State, step: Step)
    requires LaunchesOk(s) && Placed(s) && FlightOk(s) && Enabled(s, step)
    ensures LaunchesOk(Apply(s, step))
  {
    match step
    case StepLaunch(now, maxTries, retryWait) => LaunchLaunches(s, ReadyIndex(s.tasks, now), maxTries, retryWait);
    case StepReceive(i, now, workers) => assert AttemptOk(s.plan, i, s.flight[i]);
    case _ =>
  }

  lemma LaunchLaunches(s: State, k: nat, maxTries: int, retryWait: int)
    requires LaunchesOk(s) && Placed(s) && k < |s.tasks|
    ensures LaunchesOk(LaunchTask(s, k, maxTries, retryWait))
  {
    var t := LaunchTask(s, k, maxTries, retryWait);
    var indexes := Indexes(s.tasks);
    forall j | 0 <= j < |t.tasks|
      ensures t.tasks[j].index < |t.launches| && t.launches[t.tasks[j].index] == t.tasks[j].attempts
    {
      var from := if j < k then j else j + 1;
      assert t.tasks[j] == s.tasks[from];
      assert indexes[from] != indexes[k];
    }
    forall i | i in t.flight
      ensures i < |t.launches| && t.launches[i] == t.flight[i].task.attempts
    {
      assert indexes[k] in indexes;
    }
  }

  lemma ControllerMoves(c: Controller, a: Attempt, workers: Connections, remaining: int)
    requires a.end.Some? && Valid(c) && Issued(c, a.task.ticket)
    ensures Valid(ControllerAfter(c, a, workers, remaining)) && Advances(c, ControllerAfter(c, a, workers, remaining))
  {
    var t := a.task.ticket;
    match a.end.value
    case Completed => ReactKeeps(c, Succeeded(0, WorkerLimit(workers, remaining)), t);
    case ServerBusy =>
      ReactKeeps(c, Throttled(0, WorkerLimit(workers, if Again(a) then remaining + 1 else remaining)), t);
    case _ => ReactKeeps(c, Failed(0, WorkerLimit(workers, remaining + 1)), t);
  }

  lemma StepTickets(s: State, step: Step)
    requires TicketsOk(s) && Enabled(s, step)
    ensures TicketsOk(Apply(s, step))
  {
    match step
    case StepAdjust(workers) =>
      ReactKeeps(s.controller, Ceiling(WorkerLimit(workers, Remaining(s, false))), TicketOf(s.controller));
    case StepReceive(i, now, workers) => ReceiveTickets(s, i, now, workers);
    case _ =>
  }

  lemma ReceiveTickets(s: State, i: nat, now: int, workers: Connections)
    requires TicketsOk(s) && i in s.flight && s.flight[i].end.Some?
    ensures TicketsOk(Receive(s, i, now, workers))
  {
    ControllerMoves(s.controller, s.flight[i], workers, s.active - 1 + |s.tasks|);
    ReceiveParts(s, i, now, workers);
    TicketsAgree(s, Receive(s, i, now, workers));
  }

  lemma TicketsAgree(s: State, t: State)
    requires TicketsOk(s) && Valid(t.controller) && Advances(s.controller, t.controller)
    requires forall q :: q in t.flight ==> q in s.flight && t.flight[q] == s.flight[q]
    ensures TicketsOk(t)
  {
    forall q | q in t.flight
      ensures Issued(t.controller, t.flight[q].task.ticket)
    {
      assert Issued(s.controller, s.flight[q].task.ticket);
    }
  }

  lemma ReceiveParts(s: State, i: nat, now: int, workers: Connections)
    requires i in s.flight && s.flight[i].end.Some?
    ensures var t := Receive(s, i, now, workers);
            && t.controller == ControllerAfter(s.controller, s.flight[i], workers, s.active - 1 + |s.tasks|)
            && t.flight == s.flight - {i}
  {
  }

  // ----- the file -----

  /** The ranges lie inside the file and share no byte. */
  ghost predicate Layout(p: Plan)
  {
    && (forall i: nat :: i < |p.chunks| ==> Inside(p, i))
    && (forall i: nat, j: nat :: i < j < |p.chunks| ==> Before(p, i, j))
    && Sum(Sizes(p)) == p.total as int
  }

  ghost function Sizes(p: Plan): seq<int>
  {
    seq(|p.chunks|, i requires 0 <= i < |p.chunks| => Size(p, i))
  }

  lemma {:induction false} SizesSum(p: Plan, n: nat)
    requires PlanOk(p) && n < |p.chunks|
    ensures Sum(Sizes(p)[..n + 1]) == p.chunks[n].end as int + 1
  {
    if n > 0 {
      SizesSum(p, n - 1);
    }
    assert Sizes(p)[..n + 1][..n] == Sizes(p)[..n];
  }

  ghost predicate Inside(p: Plan, i: nat)
    requires i < |p.chunks|
  {
    0 <= Start(p, i) && 1 <= Size(p, i) && Start(p, i) + Size(p, i) <= p.total as int
  }

  ghost predicate Before(p: Plan, i: nat, j: nat)
    requires i < |p.chunks| && j < |p.chunks|
  {
    Start(p, i) + Size(p, i) <= Start(p, j)
  }

  lemma PlanLayout(p: Plan)
    requires PlanOk(p)
    ensures Layout(p)
  {
    SizesSum(p, |p.chunks| - 1);
    assert Sizes(p)[..|p.chunks|] == Sizes(p);
    forall i: nat | i < |p.chunks|
      ensures Inside(p, i)
    {
      assert 1 <= Length(p.chunks[i]);
      RangesAscend(p.chunks, p.total as int, p.size as int, 0, i);
      RangesAscend(p.chunks, p.total as int, p.size as int, i, |p.chunks| - 1);
    }
    forall i: nat, j: nat | i < j < |p.chunks|
      ensures Before(p, i, j)
    {
      RangesAscend(p.chunks, p.total as int, p.size as int, i, j);
    }
  }

  lemma {:induction false} RangesAscend(chunks: seq<Range>, total: int, size: int, i: nat, j: nat)
    requires Cut(chunks, total, size) && i <= j < |chunks|
    ensures chunks[i].start <= chunks[j].start && chunks[i].end <= chunks[j].end
    ensures i < j ==> chunks[i].end < chunks[j].start
    decreases j
  {
    if j > i {
      RangesAscend(chunks, total, size, i, j - 1);
      assert Length(chunks[j - 1]) >= 1 && Length(chunks[j]) >= 1;
    }
  }

  /** Writing elsewhere leaves what is held; writing next to it extends it. */
  lemma SpliceApart(file: seq<byte>, at: int, data: seq<byte>, there: int, held: seq<byte>)
    requires 0 <= at && at + |data| <= |file| && Holds(file, there, held)
    requires there + |held| <= at || at + |data| <= there
    ensures Holds(Splice(file, at, data), there, held)
  {
    var after := Splice(file, at, data);
    forall k | 0 <= k < |held|
      ensures after[there + k] == held[k]
    {
      assert held[k] == file[there..there + |held|][k];
    }
    assert after[there..there + |held|] == held;
  }

  lemma SpliceExtends(file: seq<byte>, at: int, data: seq<byte>, held: seq<byte>)
    requires Holds(file, at, held) && at + |held| + |data| <= |file|
    ensures Holds(Splice(file, at + |held|, data), at, held + data)
  {
    var after := Splice(file, at + |held|, data);
    forall k | 0 <= k < |held + data|
      ensures after[at + k] == (held + data)[k]
    {
      assert k < |held| ==> held[k] == file[at..at + |held|][k];
    }
    assert after[at..at + |held + data|] == held + data;
  }

  lemma WriteFile(s: State, i: nat, data: seq<byte>)
    requires Layout(s.plan) && FlightOk(s) && Placed(s) && FileOk(s) && CanWrite(s, i, data)
    ensures FileOk(Write(s, i, data))
  {
    var t := Write(s, i, data);
    SpliceExtends(s.file, Start(s.plan, i), data, s.flight[i].data);
    forall j | j in t.finished
      ensures Holds(t.file, Start(t.plan, j), t.finished[j])
    {
      assert PlacedOnce(s, j);
      WriteApart(s, i, data, j, s.finished[j]);
    }
    forall j | j in t.flight && j != i
      ensures Holds(t.file, Start(t.plan, j), t.flight[j].data)
    {
      assert AttemptOk(s.plan, j, s.flight[j]);
      WriteApart(s, i, data, j, s.flight[j].data);
    }
  }

  lemma WriteApart(s: State, i: nat, data: seq<byte>, j: nat, held: seq<byte>)
    requires Layout(s.plan) && CanWrite(s, i, data) && i != j && j < |s.plan.chunks|
    requires |held| <= Size(s.plan, j) && Holds(s.file, Start(s.plan, j), held)
    ensures Holds(Write(s, i, data).file, Start(s.plan, j), held)
  {
    Apart(s.plan, i, j);
    SpliceApart(s.file, Start(s.plan, i) + |s.flight[i].data|, data, Start(s.plan, j), held);
  }

  lemma Apart(p: Plan, i: nat, j: nat)
    requires Layout(p) && i < |p.chunks| && j < |p.chunks| && i != j
    ensures Start(p, i) + Size(p, i) <= Start(p, j) || Start(p, j) + Size(p, j) <= Start(p, i)
  {
    assert if i < j then Before(p, i, j) else Before(p, j, i);
  }

  lemma LaunchFile(s: State, k: nat, maxTries: int, retryWait: int)
    requires Layout(s.plan) && Placed(s) && FileOk(s) && k < |s.tasks|
    ensures FileOk(LaunchTask(s, k, maxTries, retryWait))
  {
    var i := s.tasks[k].index;
    assert i in Indexes(s.tasks) by {
      assert Indexes(s.tasks)[k] == i;
    }
    assert PlacedOnce(s, i) && Inside(s.plan, i);
  }

  lemma ReceiveFile(s: State, i: nat, now: int, workers: Connections)
    requires FlightOk(s) && FileOk(s) && i in s.flight && s.flight[i].end.Some?
    ensures FileOk(Receive(s, i, now, workers))
  {
    assert AttemptOk(s.plan, i, s.flight[i]);
  }

  lemma StepFile(s: State, step: Step)
    requires Layout(s.plan) && FlightOk(s) && Placed(s) && FileOk(s) && Enabled(s, step)
    ensures FileOk(Apply(s, step))
  {
    match step
    case StepWrite(i, data) => WriteFile(s, i, data);
    case StepLaunch(now, maxTries, retryWait) => LaunchFile(s, ReadyIndex(s.tasks, now), maxTries, retryWait);
    case StepReceive(i, now, workers) => ReceiveFile(s, i, now, workers);
    case _ =>
  }

  // ----- the bitfield -----

  /** With two or more ranges a bit is set exactly when its range has finished. */
  ghost predicate BitsOk(s: State)
  {
    Mirrors(s.progress, s.plan, s.finished.Keys)
  }

  ghost predicate Mirrors(p: Progress, plan: Plan, finished: set<nat>)
  {
    var n := |plan.chunks|;
    && Counted(p) && p.total == plan.total && p.numPieces as int == n
    && (n >= 2 ==> |p.bits| == Padded(n) && forall i: nat :: i < |p.bits| ==> (p.bits[i] <==> i in finished))
  }

  lemma MirrorsMoves(p: Progress, plan: Plan, finished: set<nat>, n: int64, i: nat)
    requires Mirrors(p, plan, finished) && i < |plan.chunks|
    ensures Mirrors(Add(p, n), plan, finished) && Mirrors(Rollback(p, n), plan, finished)
    ensures Mirrors(Mark(p, i), plan, finished + {i})
  {
    CountedSteps(p, n, i);
  }

  lemma StepBits(s: State, step: Step)
    requires FlightOk(s) && BitsOk(s) && Enabled(s, step)
    ensures BitsOk(Apply(s, step))
  {
    match step
    case StepReceive(i, now, workers) => ReceiveBits(s, i, now, workers);
    case StepFlush(i, n) =>
      assert AttemptOk(s.plan, i, s.flight[i]);
      MirrorsMoves(s.progress, s.plan, s.finished.Keys, Wrap(n), i);
    case _ =>
  }

  lemma ReceiveBits(s: State, i: nat, now: int, workers: Connections)
    requires FlightOk(s) && BitsOk(s) && i in s.flight && s.flight[i].end.Some?
    ensures BitsOk(Receive(s, i, now, workers))
  {
    var a := s.flight[i];
    var t := Receive(s, i, now, workers);
    assert AttemptOk(s.plan, i, a);
    MirrorsMoves(s.progress, s.plan, s.finished.Keys, Wrap(|a.data|), i);
    assert t.progress == ProgressAfter(s.progress, i, a);
    assert t.finished.Keys == if a.end.value.Completed? then s.finished.Keys + {i} else s.finished.Keys;
  }

  // ----- all steps -----

  lemma Starts(p: Plan, file: seq<byte>)
    requires PlanOk(p) && |file| == p.total as int
    ensures Inv(Initial(p, file))
  {
    PlanLayout(p);
    StartPlaced(p, file);
    StartBits(p, file);
  }

  lemma StartPlaced(p: Plan, file: seq<byte>)
    ensures Placed(Initial(p, file)) && LaunchesOk(Initial(p, file))
  {
    var s := Initial(p, file);
    forall i: nat
      ensures PlacedOnce(s, i)
    {
      if i < |p.chunks| {
        assert Indexes(s.tasks)[i] == i;
      }
    }
  }

  lemma StartBits(p: Plan, file: seq<byte>)
    requires PlanOk(p)
    ensures BitsOk(Initial(p, file))
  {
    CountedStart(p.total, p.chunks);
    assert Length(p.chunks[0]) >= 1;
    CutCount(p.chunks, p.total, p.size);
    CutFirst(p.chunks, p.total, p.size);
  }

  lemma StepKeeps(s: State, step: Step)
    requires Inv(s) && Enabled(s, step)
    ensures Inv(Apply(s, step)) && Apply(s, step).plan == s.plan
  {
    SamePlan(s, step);
    StepPlaced(s, step);
    StepFlight(s, step);
    StepLaunches(s, step);
    StepTickets(s, step);
    StepFile(s, step);
    StepBits(s, step);
  }

  lemma {:induction false} ExecutionKeeps(states: seq<State>, steps: seq<Step>, i: nat)
    requires Execution(states, steps) && i < |states|
    ensures Inv(states[i]) && states[i].plan == states[0].plan
  {
    if i == 0 {
      BeginKeeps(states[0]);
    } else {
      ExecutionKeeps(states, steps, i - 1);
      KeepsAt(states, steps, i);
    }
  }

  lemma BeginKeeps(s: State)
    requires Begins(s)
    ensures Inv(s)
  {
    Starts(s.plan, s.file);
  }

  lemma KeepsAt(states: seq<State>, steps: seq<Step>, i: nat)
    requires Execution(states, steps) && 0 < i < |states| && Inv(states[i - 1])
    ensures Inv(states[i]) && states[i].plan == states[i - 1].plan
  {
    assert StepAt(states, steps, i - 1);
    StepKeeps(states[i - 1], steps[i - 1]);
  }

  lemma SamePlan(s: State, step: Step)
    requires Enabled(s, step)
    ensures Apply(s, step).plan == s.plan
  {
  }
}
