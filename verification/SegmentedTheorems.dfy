/** What holds over whole segmented transfers. */
module SegmentedTheorems {
  import opened Collections
  import opened Chunks
  import opened Bitfield
  import opened Segmented
  import opened SegmentedInvariant
  import opened SegmentedConservation

  // ----- places and the bitfield -----

  /** In every state each range is queued, in flight, finished or given up, and in one of these only. */
  lemma OnePlace(states: seq<State>, steps: seq<Step>, i: nat, chunk: nat)
    requires Execution(states, steps) && i < |states| && chunk < |states[0].plan.chunks|
    ensures var s := states[i];
            var places := (if chunk in Indexes(s.tasks) then 1 else 0) + (if chunk in s.flight then 1 else 0)
                          + (if chunk in s.finished then 1 else 0) + (if chunk in s.abandoned then 1 else 0);
            && places == 1 && NoDuplicates(Indexes(s.tasks))
            && s.active == |s.flight| && (s.abandoned != {} ==> s.failed)
  {
    ExecutionKeeps(states, steps, i);
    assert PlacedOnce(states[i], chunk);
  }

  /** With several ranges the bitfield shows exactly the finished ones, and the count agrees. */
  lemma BitsShowFinished(states: seq<State>, steps: seq<Step>, i: nat, chunk: nat)
    requires Execution(states, steps) && i < |states|
    requires |states[0].plan.chunks| >= 2 && chunk < |states[0].plan.chunks|
    ensures var p := states[i].progress;
            && chunk < |p.bits| && (p.bits[chunk] <==> chunk in states[i].finished)
            && p.done as int == CountSet(p.bits)
  {
    ExecutionKeeps(states, steps, i);
  }

  // ----- the assembled file -----

  /** A successful transfer finished every range, and each holds what its last attempt received. */
  lemma SuccessFinishesAll(states: seq<State>, steps: seq<Step>, i: nat, chunk: nat)
    requires Execution(states, steps) && i < |states| && Succeeds(states[i]) && chunk < |states[0].plan.chunks|
    ensures chunk in states[i].finished
    ensures |states[i].finished[chunk]| == Size(states[0].plan, chunk)
    ensures Holds(states[i].file, Start(states[0].plan, chunk), states[i].finished[chunk])
  {
    ExecutionKeeps(states, steps, i);
    assert PlacedOnce(states[i], chunk);
  }

  /** And once every range has finished and nothing has failed, the loop leaves with success. */
  lemma AllFinishedSucceeds(states: seq<State>, steps: seq<Step>, i: nat)
    requires Execution(states, steps) && i < |states| && !states[i].failed
    requires forall chunk :: 0 <= chunk < |states[0].plan.chunks| ==> chunk in states[i].finished
    ensures Succeeds(states[i])
  {
    ExecutionKeeps(states, steps, i);
    NothingLeft(states[i]);
  }

  /** The loop leaves exactly when nothing is in flight and every range has finished or something has failed. */
  lemma LeavesIff(states: seq<State>, steps: seq<Step>, i: nat)
    requires Execution(states, steps) && i < |states|
    ensures LoopExits(states[i]) <==> states[i].flight == map[] && (states[i].failed || AllFinished(states[i]))
  {
    var s := states[i];
    ExecutionKeeps(states, steps, i);
    assert s.active == 0 <==> s.flight == map[];
    if s.flight == map[] && !s.failed {
      QueueOrFinished(s);
    }
  }

  ghost predicate AllFinished(s: State)
  {
    forall chunk :: 0 <= chunk < |s.plan.chunks| ==> chunk in s.finished
  }

  lemma QueueOrFinished(s: State)
    requires Placed(s) && s.flight == map[] && s.abandoned == {}
    ensures s.tasks == [] <==> AllFinished(s)
  {
    forall chunk: nat
      ensures chunk < |s.plan.chunks| <==> chunk in Indexes(s.tasks) || chunk in s.finished
      ensures chunk in Indexes(s.tasks) ==> chunk !in s.finished
    {
      assert PlacedOnce(s, chunk);
    }
    FirstQueued(s.tasks);
  }

  lemma FirstQueued(tasks: seq<Task>)
    ensures tasks == [] || tasks[0].index in Indexes(tasks)
  {
    if tasks != [] {
      assert Indexes(tasks)[0] == tasks[0].index;
    }
  }

  lemma NothingLeft(s: State)
    requires Placed(s) && LoopOk(s) && forall chunk :: 0 <= chunk < |s.plan.chunks| ==> chunk in s.finished
    ensures s.tasks == [] && s.active == 0
  {
    forall chunk: nat
      ensures chunk !in Indexes(s.tasks) && chunk !in s.flight
    {
      assert PlacedOnce(s, chunk);
    }
    assert s.flight == map[];
    FirstQueued(s.tasks);
  }

  /** A body carries the bytes its range asked for, as far as it goes. */
  ghost predicate Honest(s: State, step: Step, representation: seq<byte>)
  {
    step.StepWrite? && CanWrite(s, step.index, step.data) ==>
      Holds(representation, Start(s.plan, step.index) + |s.flight[step.index].data|, step.data)
  }

  ghost predicate Truthful(s: State, representation: seq<byte>)
  {
    && (forall i :: i in s.flight ==> i < |s.plan.chunks| && Holds(representation, Start(s.plan, i), s.flight[i].data))
    && (forall i :: i in s.finished ==> i < |s.plan.chunks| && Holds(representation, Start(s.plan, i), s.finished[i]))
  }

  lemma HoldsMore(file: seq<byte>, at: int, a: seq<byte>, b: seq<byte>)
    requires Holds(file, at, a) && Holds(file, at + |a|, b)
    ensures Holds(file, at, a + b)
  {
    assert file[at..at + |a + b|] == file[at..at + |a|] + file[at + |a|..at + |a| + |b|];
  }

  lemma StepTruthful(s: State, step: Step, representation: seq<byte>)
    requires Placed(s) && Layout(s.plan) && |representation| == s.plan.total as int
    requires Truthful(s, representation) && Enabled(s, step) && Honest(s, step, representation)
    ensures Truthful(Apply(s, step), representation)
  {
    match step
    case StepWrite(i, data) => HoldsMore(representation, Start(s.plan, i), s.flight[i].data, data);
    case StepLaunch(now, maxTries, retryWait) => LaunchTruthful(s, ReadyIndex(s.tasks, now), maxTries, retryWait, representation);
    case StepReceive(i, now, workers) => ReceiveTruthful(s, i, now, workers, representation);
    case _ =>
  }

  lemma LaunchTruthful(s: State, k: nat, maxTries: int, retryWait: int, representation: seq<byte>)
    requires Placed(s) && Layout(s.plan) && |representation| == s.plan.total as int
    requires Truthful(s, representation) && k < |s.tasks|
    ensures Truthful(LaunchTask(s, k, maxTries, retryWait), representation)
  {
    var i := s.tasks[k].index;
    assert i in Indexes(s.tasks) by {
      assert Indexes(s.tasks)[k] == i;
    }
    assert PlacedOnce(s, i) && Inside(s.plan, i);
  }

  lemma ReceiveTruthful(s: State, i: nat, now: int, workers: Connections, representation: seq<byte>)
    requires Truthful(s, representation) && i in s.flight && s.flight[i].end.Some?
    ensures Truthful(Receive(s, i, now, workers), representation)
  {
  }

  lemma {:induction false} RunTruthful(states: seq<State>, steps: seq<Step>, representation: seq<byte>, i: nat)
    requires Execution(states, steps) && i < |states| && |representation| == states[0].plan.total as int
    requires forall k :: 0 <= k < i ==> Honest(states[k], steps[k], representation)
    ensures Truthful(states[i], representation)
  {
    if i > 0 {
      RunTruthful(states, steps, representation, i - 1);
      TruthfulAt(states, steps, representation, i - 1);
    }
  }

  lemma TruthfulAt(states: seq<State>, steps: seq<Step>, representation: seq<byte>, i: nat)
    requires Execution(states, steps) && i < |steps| && |representation| == states[0].plan.total as int
    requires Truthful(states[i], representation) && Honest(states[i], steps[i], representation)
    ensures Truthful(states[i + 1], representation)
  {
    ExecutionKeeps(states, steps, i);
    assert StepAt(states, steps, i);
    StepTruthful(states[i], steps[i], representation);
  }

  /**
   If every body carried the bytes asked for, a successful transfer leaves exactly
   the representation, whatever the order, the failures and the retries were and
   whatever the file held before.
   */
  lemma SuccessAssembles(states: seq<State>, steps: seq<Step>, representation: seq<byte>, i: nat)
    requires Execution(states, steps) && i < |states| && Succeeds(states[i])
    requires |representation| == states[0].plan.total as int
    requires forall k :: 0 <= k < i ==> Honest(states[k], steps[k], representation)
    ensures states[i].file == representation
  {
    ExecutionKeeps(states, steps, i);
    forall b | 0 <= b < |representation|
      ensures states[i].file[b] == representation[b]
    {
      ByteArrives(states, steps, representation, i, b);
    }
  }

  lemma ByteArrives(states: seq<State>, steps: seq<Step>, representation: seq<byte>, i: nat, b: nat)
    requires Execution(states, steps) && i < |states| && Succeeds(states[i])
    requires |representation| == states[0].plan.total as int == |states[i].file| && b < |representation|
    requires forall k :: 0 <= k < i ==> Honest(states[k], steps[k], representation)
    ensures states[i].file[b] == representation[b]
  {
    var p := states[0].plan;
    RunTruthful(states, steps, representation, i);
    var chunk := RangeOf(p, b);
    SuccessFinishesAll(states, steps, i, chunk);
    ExecutionKeeps(states, steps, i);
    SameByte(states[i].file, representation, Start(p, chunk), states[i].finished[chunk], b);
  }

  lemma RangeOf(p: Plan, b: nat) returns (chunk: nat)
    requires PlanOk(p) && b < p.total as int
    ensures chunk < |p.chunks| && Start(p, chunk) <= b < Start(p, chunk) + Size(p, chunk)
  {
    ByteInOneChunk(p.chunks, p.total as int, p.size as int, b);
    chunk := b / p.size as int;
  }

  lemma SameByte(a: seq<byte>, b: seq<byte>, at: int, data: seq<byte>, k: int)
    requires Holds(a, at, data) && Holds(b, at, data) && at <= k < at + |data|
    ensures a[k] == b[k]
  {
    assert a[at..at + |data|][k - at] == b[at..at + |data|][k - at];
  }

  /** The counter then stands at the total, if every file closed. */
  lemma SuccessCountsAll(states: seq<State>, steps: seq<Step>, i: nat)
    requires Execution(states, steps) && i < |states| && Succeeds(states[i]) && states[i].closeFailures == 0
    ensures states[i].progress.completed == states[0].plan.total
  {
    var s := states[i];
    ExecutionKeeps(states, steps, i);
    RunConserves(states, steps, i);
    forall chunk: nat | chunk < |s.plan.chunks|
      ensures Credit(s, chunk) == Size(s.plan, chunk)
    {
      assert PlacedOnce(s, chunk);
    }
    assert Credits(s) == Sizes(s.plan);
  }

  // ----- launches -----

  /** With nothing in flight and a task that is due, the next pass launches one. */
  lemma IdleLaunches(states: seq<State>, steps: seq<Step>, i: nat, now: int, workers: Connections)
    requires Execution(states, steps) && i < |states|
    requires !states[i].failed && states[i].flight == map[] && ReadyIndex(states[i].tasks, now) < |states[i].tasks|
    ensures CanLaunch(Adjust(states[i], workers), now)
  {
    ExecutionKeeps(states, steps, i);
    assert |states[i].flight| == 0;
  }

  /** The attempts allowed by one fixed setting `tries`. */
  ghost predicate Bounded(s: State, tries: nat)
  {
    && (forall k :: 0 <= k < |s.tasks| ==> s.tasks[k].attempts < tries)
    && (forall i :: i in s.flight ==> s.flight[i].maxTries == tries)
    && (forall i :: 0 <= i < |s.launches| ==> s.launches[i] <= tries)
  }

  ghost predicate Tries(step: Step, tries: nat)
  {
    step.StepLaunch? ==> step.maxTries == tries || (step.maxTries < 0 && tries == 1)
  }

  lemma StepBounded(s: State, step: Step, tries: nat)
    requires LaunchesOk(s) && Bounded(s, tries) && 1 <= tries && Enabled(s, step) && Tries(step, tries)
    ensures Bounded(Apply(s, step), tries)
  {
    match step
    case StepLaunch(now, maxTries, retryWait) => LaunchBounded(s, ReadyIndex(s.tasks, now), maxTries, retryWait, tries);
    case StepReceive(i, now, workers) => ReceiveBounded(s, i, now, workers, tries);
    case _ =>
  }

  lemma LaunchBounded(s: State, k: nat, maxTries: int, retryWait: int, tries: nat)
    requires LaunchesOk(s) && Bounded(s, tries) && k < |s.tasks|
    requires maxTries == tries || (maxTries < 0 && tries == 1)
    ensures Bounded(LaunchTask(s, k, maxTries, retryWait), tries)
  {
    var t := LaunchTask(s, k, maxTries, retryWait);
    assert forall j :: 0 <= j < |t.tasks| ==> t.tasks[j] == s.tasks[if j < k then j else j + 1];
  }

  lemma ReceiveBounded(s: State, i: nat, now: int, workers: Connections, tries: nat)
    requires LaunchesOk(s) && Bounded(s, tries) && 1 <= tries && i in s.flight && s.flight[i].end.Some?
    ensures Bounded(Receive(s, i, now, workers), tries)
  {
    var t := Receive(s, i, now, workers);
    assert t.flight == s.flight - {i} && t.launches == s.launches;
  }

  lemma {:induction false} RunBounded(states: seq<State>, steps: seq<Step>, tries: nat, i: nat)
    requires Execution(states, steps) && i < |states| && 1 <= tries
    requires forall k :: 0 <= k < i ==> Tries(steps[k], tries)
    ensures Bounded(states[i], tries)
  {
    if i > 0 {
      RunBounded(states, steps, tries, i - 1);
      BoundedAt(states, steps, tries, i - 1);
    }
  }

  lemma BoundedAt(states: seq<State>, steps: seq<Step>, tries: nat, i: nat)
    requires Execution(states, steps) && i < |steps| && 1 <= tries && Tries(steps[i], tries) && Bounded(states[i], tries)
    ensures Bounded(states[i + 1], tries)
  {
    ExecutionKeeps(states, steps, i);
    assert StepAt(states, steps, i);
    StepBounded(states[i], steps[i], tries);
  }

  ghost function LaunchCount(steps: seq<Step>): nat
  {
    if steps == [] then 0 else LaunchCount(steps[..|steps| - 1]) + if steps[|steps| - 1].StepLaunch? then 1 else 0
  }

  lemma {:induction false} LaunchesAreCounted(states: seq<State>, steps: seq<Step>, i: nat)
    requires Execution(states, steps) && i < |states|
    ensures LaunchCount(steps[..i]) == Sum(states[i].launches)
  {
    if i == 0 {
      SumConstant(states[0].launches, 0);
    } else {
      LaunchesAreCounted(states, steps, i - 1);
      LaunchAdds(states, steps, i - 1);
      assert steps[..i][..i - 1] == steps[..i - 1];
    }
  }

  lemma LaunchAdds(states: seq<State>, steps: seq<Step>, i: nat)
    requires Execution(states, steps) && i < |steps|
    ensures Sum(states[i + 1].launches) == Sum(states[i].launches) + if steps[i].StepLaunch? then 1 else 0
  {
    assert StepAt(states, steps, i);
    ExecutionKeeps(states, steps, i);
    StepAdds(states[i], steps[i]);
  }

  lemma StepAdds(s: State, step: Step)
    requires LaunchesOk(s) && Enabled(s, step)
    ensures Sum(Apply(s, step).launches) == Sum(s.launches) + if step.StepLaunch? then 1 else 0
  {
    if step.StepLaunch? {
      var q := s.tasks[ReadyIndex(s.tasks, step.now)].index;
      SumUpdate(s.launches, q, s.launches[q] + 1);
      assert Apply(s, step).launches == s.launches[q := s.launches[q] + 1];
    }
  }

  /** No range is launched more often than it may be tried, so launches are at most ranges times tries. */
  lemma FewLaunches(states: seq<State>, steps: seq<Step>, tries: nat)
    requires Execution(states, steps) && 1 <= tries
    requires forall k :: 0 <= k < |steps| ==> Tries(steps[k], tries)
    ensures LaunchCount(steps) <= |states[0].plan.chunks| * tries
    ensures var last := states[|steps|].launches;
            |last| == |states[0].plan.chunks| && forall i :: 0 <= i < |last| ==> last[i] <= tries
  {
    var n := |steps|;
    var last := states[n].launches;
    RunBounded(states, steps, tries, n);
    LaunchesAreCounted(states, steps, n);
    ExecutionKeeps(states, steps, n);
    assert steps[..n] == steps;
    var most: seq<int> := seq(|last|, _ => tries);
    SumConstant(most, tries);
    SumOrder(last, most);
  }

  // ----- a failed close -----

  lemma Extend(states: seq<State>, steps: seq<Step>, step: Step) returns (next: seq<State>)
    requires Execution(states, steps) && Enabled(states[|steps|], step)
    ensures Execution(next, steps + [step]) && next == states + [Apply(states[|steps|], step)]
  {
    next := states + [Apply(states[|steps|], step)];
    forall i | 0 <= i < |steps + [step]|
      ensures StepAt(next, steps + [step], i)
    {
      if i < |steps| {
        assert StepAt(states, steps, i);
      }
    }
  }

  /** An attempt of the first range that has written `data` and reported none or all of it. */
  ghost predicate FirstAttempt(s: State, p: Plan, data: seq<byte>, flushed: nat, end: Option<End>)
  {
    && s.plan == p && |s.file| == p.total as int && s.closeFailures == 0 && 0 in s.flight
    && s.flight[0].data == data && s.flight[0].flushed == flushed && s.flight[0].end == end
  }

  lemma FirstLaunch(p: Plan, file: seq<byte>, step: Step)
    requires PlanOk(p) && |file| == p.total as int && step == StepLaunch(0, 5, 0)
    ensures Enabled(Initial(p, file), step)
    ensures FirstAttempt(Apply(Initial(p, file), step), p, [], 0, None)
  {
    var s := Initial(p, file);
    assert IsReady(s.tasks[0], 0);
    assert ReadyIndex(s.tasks, 0) == 0;
  }

  lemma FirstRange(p: Plan, file: seq<byte>, data: seq<byte>, end: End) returns (states: seq<State>, steps: seq<Step>)
    requires PlanOk(p) && |file| == p.total as int && |data| == Size(p, 0) && end == CloseFailed(true)
    ensures Execution(states, steps) && |steps| == 4
    ensures FirstAttempt(states[4], p, data, |data|, Some(end))
  {
    PlanLayout(p);
    assert Inside(p, 0) && Start(p, 0) == 0;
    FirstLaunch(p, file, StepLaunch(0, 5, 0));
    states := Extend([Initial(p, file)], [], StepLaunch(0, 5, 0));
    states := Extend(states, [StepLaunch(0, 5, 0)], StepWrite(0, data));
    steps := [StepLaunch(0, 5, 0)] + [StepWrite(0, data)];
    assert FirstAttempt(states[2], p, data, 0, None);
    states := Extend(states, steps, StepFlush(0, |data|));
    steps := steps + [StepFlush(0, |data|)];
    assert FirstAttempt(states[3], p, data, |data|, None);
    states := Extend(states, steps, StepEnd(0, end));
    steps := steps + [StepEnd(0, end)];
  }

  /**
   Whatever the plan, there is a run in which the counter is wrong: the first range
   arrives in full, its file fails to close, and the range is queued again while
   its bytes stay counted.
   */
  lemma CloseFailureMiscounts(p: Plan, file: seq<byte>, data: seq<byte>) returns (states: seq<State>, steps: seq<Step>)
    requires PlanOk(p) && |file| == p.total as int && |data| == Size(p, 0)
    ensures Execution(states, steps) && |steps| == 5
    ensures states[5].progress.completed as int == Sum(Credits(states[5])) + Size(p, 0)
  {
    states, steps := FirstRange(p, file, data, CloseFailed(true));
    CloseMiscounts(states, steps, StepReceive(0, 0, Connections(1, 1)));
    states := Extend(states, steps, StepReceive(0, 0, Connections(1, 1)));
    steps := steps + [StepReceive(0, 0, Connections(1, 1))];
  }

  lemma CloseMiscounts(states: seq<State>, steps: seq<Step>, step: Step)
    requires Execution(states, steps) && states[|steps|].closeFailures == 0
    requires Enabled(states[|steps|], step) && TakesCloseFailure(states[|steps|], step)
    ensures var s := states[|steps|];
            && step.index < |s.plan.chunks|
            && Apply(s, step).progress.completed as int == Sum(Credits(Apply(s, step))) + Size(s.plan, step.index)
  {
    RunConserves(states, steps, |steps|);
    ExecutionKeeps(states, steps, |steps|);
    StepConserves(states[|steps|], step);
  }
}
