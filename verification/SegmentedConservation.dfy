/**
 Byte conservation: what the progress counter says is what the finished ranges
 hold plus what running attempts reported, until a range file fails to close.
 */
module SegmentedConservation {
  import opened Collections
  import opened Machine
  import opened Progress
  import opened Segmented
  import opened SegmentedInvariant

  /** The bytes of a range the counter should include. */
  ghost function Credit(s: State, i: nat): int
    requires i < |s.plan.chunks|
  {
    if i in s.finished then Size(s.plan, i) else if i in s.flight then s.flight[i].flushed else 0
  }

  ghost function Credits(s: State): seq<int>
  {
    seq(|s.plan.chunks|, i requires 0 <= i < |s.plan.chunks| => Credit(s, i))
  }

  ghost predicate Conserved(s: State)
  {
    s.progress.completed as int == Sum(Credits(s))
  }

  lemma CreditBounds(s: State)
    requires Layout(s.plan) && FlightOk(s)
    ensures 0 <= Sum(Credits(s)) <= s.plan.total as int
    ensures forall i: nat :: i < |s.plan.chunks| ==> 0 <= Credit(s, i) <= Size(s.plan, i)
  {
    forall i: nat | i < |s.plan.chunks|
      ensures 0 <= Credit(s, i) <= Size(s.plan, i)
    {
      assert Inside(s.plan, i);
      assert i in s.flight ==> AttemptOk(s.plan, i, s.flight[i]);
    }
    SumOrder(Credits(s), Sizes(s.plan));
    var zeros := seq(|s.plan.chunks|, _ => 0);
    SumConstant(zeros, 0);
    SumOrder(zeros, Credits(s));
  }

  /** One range's credit moves and the counter moves with it. */
  lemma OneMoves(s: State, t: State, i: nat)
    requires t.plan == s.plan && i < |s.plan.chunks|
    requires forall j: nat :: j < |s.plan.chunks| && j != i ==> Credit(t, j) == Credit(s, j)
    ensures Sum(Credits(t)) == Sum(Credits(s)) - Credit(s, i) + Credit(t, i)
  {
    assert Credits(t) == Credits(s)[i := Credit(t, i)];
    SumUpdate(Credits(s), i, Credit(t, i));
  }

  /** Reported bytes are added exactly: neither the wrap-around nor the clamp at the total happens. */
  lemma FlushExact(s: State, i: nat, n: nat)
    requires Placed(s) && FlightOk(s) && Layout(s.plan)
    requires s.progress.total == s.plan.total && Conserved(s) && Enabled(s, StepFlush(i, n))
    ensures Conserved(Flush(s, i, n))
    ensures Flush(s, i, n).progress.completed as int == s.progress.completed as int + n
  {
    var t := Flush(s, i, n);
    assert AttemptOk(s.plan, i, s.flight[i]) && PlacedOnce(s, i) && Inside(s.plan, i);
    OneMoves(s, t, i);
    StepFlight(s, StepFlush(i, n));
    CreditBounds(s);
    CreditBounds(t);
    AddIs(s.progress, n);
  }

  lemma AddIs(p: Progress, n: nat)
    requires 0 < n && 0 <= p.completed && p.completed as int + n <= p.total as int
    ensures Add(p, Wrap(n)).completed as int == p.completed as int + n
  {
  }

  lemma RollbackIs(p: Progress, n: nat)
    requires n <= p.completed as int
    ensures Rollback(p, Wrap(n)).completed as int == p.completed as int - n
  {
  }

  /** A failed body is taken back exactly: the floor at zero does nothing. */
  lemma RollbackExact(s: State, i: nat, now: int, workers: Connections)
    requires Placed(s) && FlightOk(s) && Layout(s.plan)
    requires Conserved(s) && Enabled(s, StepReceive(i, now, workers)) && s.flight[i].end.value.BodyFailed?
    ensures Conserved(Receive(s, i, now, workers))
    ensures Receive(s, i, now, workers).progress.completed as int == s.progress.completed as int - |s.flight[i].data|
  {
    ReceiveCredit(s, i, now, workers);
    var t := Receive(s, i, now, workers);
    StepFlight(s, StepReceive(i, now, workers));
    CreditBounds(t);
    RollbackIs(s.progress, |s.flight[i].data|);
  }

  lemma ReceiveCredit(s: State, i: nat, now: int, workers: Connections)
    requires Placed(s) && FlightOk(s) && Layout(s.plan)
    requires Enabled(s, StepReceive(i, now, workers))
    ensures i < |s.plan.chunks| && Credit(s, i) == |s.flight[i].data|
    ensures Sum(Credits(Receive(s, i, now, workers)))
         == Sum(Credits(s)) - if s.flight[i].end.value.Completed? then 0 else |s.flight[i].data|
  {
    var t := Receive(s, i, now, workers);
    assert AttemptOk(s.plan, i, s.flight[i]) && PlacedOnce(s, i);
    assert t.flight == s.flight - {i};
    assert t.finished == if s.flight[i].end.value.Completed? then s.finished[i := s.flight[i].data] else s.finished;
    OneMoves(s, t, i);
  }

  ghost predicate TakesCloseFailure(s: State, step: Step)
  {
    step.StepReceive? && step.index in s.flight && s.flight[step.index].end.Some?
    && s.flight[step.index].end.value.CloseFailed?
  }

  /** A step keeps the counter right exactly when it does not take the result of a failed close. */
  lemma StepConserves(s: State, step: Step)
    requires Inv(s) && Conserved(s) && Enabled(s, step)
    ensures Conserved(Apply(s, step)) <==> !TakesCloseFailure(s, step)
    ensures TakesCloseFailure(s, step) ==>
      step.index < |s.plan.chunks| && Apply(s, step).progress.completed as int == Sum(Credits(Apply(s, step))) + Size(s.plan, step.index)
  {
    if step.StepReceive? {
      ReceiveConserves(s, step.index, step.now, step.workers);
    } else {
      OthersConserve(s, step);
    }
  }

  lemma OthersConserve(s: State, step: Step)
    requires Placed(s) && LoopOk(s) && FlightOk(s) && Layout(s.plan) && s.progress.total == s.plan.total
    requires Conserved(s) && Enabled(s, step) && !step.StepReceive?
    ensures Conserved(Apply(s, step))
  {
    if step.StepFlush? {
      FlushExact(s, step.index, step.n);
    } else if step.StepLaunch? {
      LaunchCredits(s, ReadyIndex(s.tasks, step.now), step.maxTries, step.retryWait);
    } else {
      SameCredits(s, Apply(s, step));
    }
  }

  lemma ReceiveConserves(s: State, i: nat, now: int, workers: Connections)
    requires Placed(s) && FlightOk(s) && Layout(s.plan)
    requires Conserved(s) && Enabled(s, StepReceive(i, now, workers))
    ensures i < |s.plan.chunks|
    ensures 1 <= Size(s.plan, i)
    ensures Receive(s, i, now, workers).progress.completed as int
         == Sum(Credits(Receive(s, i, now, workers))) + (if s.flight[i].end.value.CloseFailed? then Size(s.plan, i) else 0)
  {
    var a := s.flight[i];
    assert AttemptOk(s.plan, i, a) && Inside(s.plan, i);
    ReceiveCredit(s, i, now, workers);
    if a.end.value.BodyFailed? {
      RollbackExact(s, i, now, workers);
    } else {
      assert Receive(s, i, now, workers).progress == ProgressAfter(s.progress, i, a);
    }
  }

  lemma LaunchCredits(s: State, k: nat, maxTries: int, retryWait: int)
    requires Placed(s) && LoopOk(s) && Conserved(s) && k < |s.tasks|
    ensures Conserved(LaunchTask(s, k, maxTries, retryWait))
  {
    var t := LaunchTask(s, k, maxTries, retryWait);
    var i := s.tasks[k].index;
    LaunchPlaced(s, k, maxTries, retryWait);
    assert t.flight == s.flight[i := t.flight[i]];
    SameCredits(s, t);
  }

  lemma SameCredits(s: State, t: State)
    requires t.plan == s.plan && t.finished == s.finished && Conserved(s) && t.progress == s.progress
    requires forall i :: i in s.flight ==> i in t.flight && t.flight[i].flushed == s.flight[i].flushed
    requires forall i :: i in t.flight && i !in s.flight ==> t.flight[i].flushed == 0
    ensures Conserved(t)
  {
    assert Credits(t) == Credits(s);
  }

  /** Over a whole run without a failed close the counter is exact in every state. */
  lemma {:induction false} RunConserves(states: seq<State>, steps: seq<Step>, i: nat)
    requires Execution(states, steps) && i < |states| && states[i].closeFailures == 0
    ensures Conserved(states[i]) && 0 <= states[i].progress.completed <= states[i].progress.total
  {
    if i == 0 {
      StartConserved(states[0]);
    } else {
      ConservesAt(states, steps, i - 1);
      RunConserves(states, steps, i - 1);
    }
    BoundsAt(states, steps, i);
  }

  lemma BoundsAt(states: seq<State>, steps: seq<Step>, i: nat)
    requires Execution(states, steps) && i < |states|
    ensures 0 <= Sum(Credits(states[i])) <= states[i].progress.total as int
  {
    ExecutionKeeps(states, steps, i);
    CreditBounds(states[i]);
  }

  lemma ConservesAt(states: seq<State>, steps: seq<Step>, i: nat)
    requires Execution(states, steps) && i < |steps| && states[i + 1].closeFailures == 0
    ensures states[i].closeFailures == 0 && (Conserved(states[i]) ==> Conserved(states[i + 1]))
  {
    CloseFailuresGrow(states, steps, i);
    ExecutionKeeps(states, steps, i);
    if Conserved(states[i]) {
      StepConserves(states[i], steps[i]);
    }
  }

  lemma StartConserved(s: State)
    requires Begins(s)
    ensures Conserved(s)
  {
    SumConstant(Credits(s), 0);
  }

  lemma CloseFailuresGrow(states: seq<State>, steps: seq<Step>, i: nat)
    requires Execution(states, steps) && i < |steps|
    ensures Enabled(states[i], steps[i]) && states[i + 1] == Apply(states[i], steps[i])
    ensures states[i + 1].closeFailures == states[i].closeFailures + if TakesCloseFailure(states[i], steps[i]) then 1 else 0
  {
    assert StepAt(states, steps, i);
  }
}
