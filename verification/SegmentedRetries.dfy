/** When a failed range is tried again, when it is given up, and how long it waits. */
module SegmentedRetries {
  import opened Collections
  import Controller
  import opened Segmented
  import opened SegmentedInvariant
  import opened SegmentedTheorems

  /** Ends that may be tried again: the server was busy, or the error is of a kind that may pass. */
  ghost predicate MayPass(end: End)
  {
    || end == ServerBusy
    || end == BodyFailed(true) || end == CloseFailed(true) || end == Refused(true)
  }

  /** The range waits in the queue, not to be launched before `t`. */
  ghost predicate QueuedUntil(s: State, i: nat, t: int)
  {
    exists k :: 0 <= k < |s.tasks| && s.tasks[k].index == i && s.tasks[k].notBefore == Some(t)
  }

  // ----- one result -----

  /**
   What becomes of a range when its result is taken, by how it ended, how often the
   range has been launched and how often it may be: a completed one is finished
   with what it received; one that failed in a way that may pass, with tries left
   or without a limit, is queued until the retry wait is over; any other is given
   up and fails the transfer.
   */
  lemma ResultDecides(s: State, i: nat, now: int, workers: Connections, launched: nat)
    requires Placed(s) && FlightOk(s) && LaunchesOk(s) && i in s.flight && s.flight[i].end.Some?
    requires i < |s.launches| && launched == s.launches[i]
    ensures var a, t := s.flight[i], Receive(s, i, now, workers);
            var end, tries := a.end.value, a.maxTries;
            && i !in t.flight
            && (end == Completed ==> i in t.finished && t.finished[i] == a.data && t.failed == s.failed)
            && (MayPass(end) && (tries == 0 || launched < tries) ==>
                  QueuedUntil(t, i, now + a.retryWait) && i !in t.abandoned && t.failed == s.failed)
            && (end != Completed && !(MayPass(end) && (tries == 0 || launched < tries)) && 0 <= tries && 1 <= launched ==>
                  i in t.abandoned && t.failed)
  {
    var a, t := s.flight[i], Receive(s, i, now, workers);
    assert AttemptOk(s.plan, i, a) && PlacedOnce(s, i);
    if !a.end.value.Completed? && Again(a) {
      assert t.tasks[|s.tasks|] == a.task.(notBefore := Some(now + a.retryWait));
    }
  }

  // ----- giving up -----

  /** A result of the range was taken in step `n`; this is how it ended. */
  ghost predicate TakenAt(states: seq<State>, steps: seq<Step>, n: nat, i: nat, end: End)
  {
    && n < |steps| && n < |states| && steps[n].StepReceive? && steps[n].index == i
    && i in states[n].flight && states[n].flight[i].end == Some(end)
  }

  /** Why a range may be given up: it failed in a way that does not pass, or all its tries are used. */
  ghost predicate GivenUpRightly(states: seq<State>, steps: seq<Step>, m: nat, i: nat, tries: nat)
    requires m < |states|
  {
    exists n, end :: 0 <= n < m && TakenAt(states, steps, n, i, end) && end != Completed
      && (!MayPass(end) || (1 <= tries && i < |states[m].launches| && states[m].launches[i] == tries))
  }

  /** The step into state `m`, and what is known before it. */
  lemma StepTo(states: seq<State>, steps: seq<Step>, m: nat) returns (s: State, step: Step, t: State)
    requires Execution(states, steps) && 0 < m < |states|
    ensures s == states[m - 1] && step == steps[m - 1] && t == states[m]
    ensures Enabled(s, step) && t == Apply(s, step) && Placed(s) && FlightOk(s) && LaunchesOk(s)
  {
    KnownAt(states, steps, m - 1);
    assert StepAt(states, steps, m - 1);
    s, step, t := states[m - 1], steps[m - 1], states[m];
  }

  lemma KnownAt(states: seq<State>, steps: seq<Step>, m: nat)
    requires Execution(states, steps) && m < |states|
    ensures Placed(states[m]) && FlightOk(states[m]) && LaunchesOk(states[m])
  {
    ExecutionKeeps(states, steps, m);
  }

  lemma GivenUpNow(states: seq<State>, steps: seq<Step>, m: nat, i: nat, tries: nat)
    requires Execution(states, steps) && 0 < m < |states| && i in states[m].abandoned && i !in states[m - 1].abandoned
    requires (tries == 0 || Bounded(states[m - 1], tries)) && AllTries(states[m - 1], tries)
    ensures GivenUpRightly(states, steps, m, i, tries)
  {
    var s, step, t := StepTo(states, steps, m);
    var end := AbandonedBy(s, step, t, i, tries);
    assert TakenAt(states, steps, m - 1, i, end);
  }

  /** Only taking its own failed result gives a range up. */
  lemma AbandonedBy(s: State, step: Step, t: State, i: nat, tries: nat) returns (end: End)
    requires Enabled(s, step) && t == Apply(s, step) && LaunchesOk(s) && i in t.abandoned && i !in s.abandoned
    requires (tries == 0 || Bounded(s, tries)) && AllTries(s, tries)
    ensures step.StepReceive? && step.index == i && i in s.flight && s.flight[i].end == Some(end) && end != Completed
    ensures !MayPass(end) || (1 <= tries && i < |t.launches| && t.launches[i] == tries)
  {
    end := s.flight[step.index].end.value;
  }

  /** Every attempt in flight was launched with this many tries. */
  ghost predicate AllTries(s: State, tries: nat)
  {
    forall q :: q in s.flight ==> s.flight[q].maxTries == tries
  }

  lemma {:induction false} TriesInFlight(states: seq<State>, steps: seq<Step>, m: nat, tries: nat)
    requires Execution(states, steps) && m < |states| && forall k :: 0 <= k < m ==> Tries(steps[k], tries)
    ensures AllTries(states[m], tries)
  {
    if m > 0 {
      TriesInFlight(states, steps, m - 1, tries);
      assert StepAt(states, steps, m - 1);
      TriesStep(states[m - 1], steps[m - 1], tries);
    }
  }

  lemma TriesStep(s: State, step: Step, tries: nat)
    requires Enabled(s, step) && Tries(step, tries) && AllTries(s, tries)
    ensures AllTries(Apply(s, step), tries)
  {
  }

  /** A range that was given up stays so and is not launched again. */
  lemma AbandonedStays(s: State, step: Step, t: State, i: nat)
    requires Placed(s) && Enabled(s, step) && t == Apply(s, step) && i in s.abandoned
    ensures i in t.abandoned
    ensures i < |s.launches| ==> i < |t.launches| && t.launches[i] == s.launches[i]
  {
    assert PlacedOnce(s, i);
    if step.StepLaunch? {
      var k := ReadyIndex(s.tasks, step.now);
      assert Indexes(s.tasks)[k] == s.tasks[k].index;
    }
  }

  /**
   With one fixed setting of the tries, zero meaning no limit and a negative one a
   single try: in every state a range that was given up either failed in a way that
   does not pass, or was launched exactly as often as it may be.
   */
  lemma {:induction false} GivenUpOnlyRightly(states: seq<State>, steps: seq<Step>, m: nat, i: nat, tries: nat)
    requires Execution(states, steps) && m < |states| && i in states[m].abandoned
    requires forall k :: 0 <= k < m ==> Tries(steps[k], tries)
    ensures GivenUpRightly(states, steps, m, i, tries)
  {
    assert m > 0;
    TriesInFlight(states, steps, m - 1, tries);
    if tries > 0 {
      RunBounded(states, steps, tries, m - 1);
    }
    if i in states[m - 1].abandoned {
      GivenUpOnlyRightly(states, steps, m - 1, i, tries);
      StillRightly(states, steps, m, i, tries);
    } else {
      GivenUpNow(states, steps, m, i, tries);
    }
  }

  lemma StillRightly(states: seq<State>, steps: seq<Step>, m: nat, i: nat, tries: nat)
    requires Execution(states, steps) && 0 < m < |states| && i in states[m - 1].abandoned
    requires GivenUpRightly(states, steps, m - 1, i, tries)
    ensures GivenUpRightly(states, steps, m, i, tries)
  {
    var s, step, t := StepTo(states, steps, m);
    AbandonedStays(s, step, t, i);
    var n, end :| 0 <= n < m - 1 && TakenAt(states, steps, n, i, end) && end != Completed
      && (!MayPass(end) || (1 <= tries && i < |states[m - 1].launches| && states[m - 1].launches[i] == tries));
    assert TakenAt(states, steps, n, i, end);
  }

  /** Every attempt in flight was launched with this wait before a retry. */
  ghost predicate AllWait(s: State, wait: int)
  {
    forall q :: q in s.flight ==> s.flight[q].retryWait == wait
  }

  ghost predicate Waits(step: Step, wait: int)
  {
    step.StepLaunch? ==> step.retryWait == wait
  }

  lemma WaitStep(s: State, step: Step, wait: int)
    requires Enabled(s, step) && Waits(step, wait) && AllWait(s, wait)
    ensures AllWait(Apply(s, step), wait)
  {
  }

  lemma {:induction false} WaitInFlight(states: seq<State>, steps: seq<Step>, m: nat, wait: int)
    requires Execution(states, steps) && m < |states| && forall k :: 0 <= k < m ==> Waits(steps[k], wait)
    ensures AllWait(states[m], wait)
  {
    if m > 0 {
      WaitInFlight(states, steps, m - 1, wait);
      assert StepAt(states, steps, m - 1);
      WaitStep(states[m - 1], steps[m - 1], wait);
    }
  }

  /**
   With fixed settings, a failure that may pass puts the range back into the queue,
   until the wait is over, as long as it was launched less often than it may be, and
   always without a limit of tries.
   */
  lemma RetriedAfterWait(states: seq<State>, steps: seq<Step>, n: nat, i: nat, end: End, tries: nat, wait: int)
    requires Execution(states, steps) && TakenAt(states, steps, n, i, end) && MayPass(end)
    requires forall k :: 0 <= k < n ==> Tries(steps[k], tries) && Waits(steps[k], wait)
    requires i < |states[n].launches| && (tries == 0 || states[n].launches[i] < tries)
    ensures QueuedUntil(states[n + 1], i, steps[n].now + wait)
    ensures i !in states[n + 1].abandoned && states[n + 1].failed == states[n].failed
  {
    TriesInFlight(states, steps, n, tries);
    WaitInFlight(states, steps, n, wait);
    var s, step, t := StepTo(states, steps, n + 1);
    ResultDecides(s, i, step.now, step.workers, s.launches[i]);
  }

  // ----- waiting -----

  /** This step launches the range. */
  ghost predicate LaunchesRange(s: State, step: Step, i: nat)
  {
    step.StepLaunch? && Enabled(s, step) && s.tasks[ReadyIndex(s.tasks, step.now)].index == i
  }

  /** A queued range stays as it is until it is launched, which is not before its time. */
  lemma StepWaits(s: State, step: Step, i: nat, t: int)
    requires Placed(s) && Enabled(s, step) && QueuedUntil(s, i, t)
    ensures !LaunchesRange(s, step, i) ==> QueuedUntil(Apply(s, step), i, t)
    ensures LaunchesRange(s, step, i) ==> t <= step.now
  {
    var k :| 0 <= k < |s.tasks| && s.tasks[k].index == i && s.tasks[k].notBefore == Some(t);
    var u := Apply(s, step);
    if step.StepLaunch? {
      var j := ReadyIndex(s.tasks, step.now);
      assert Indexes(s.tasks)[j] == s.tasks[j].index && Indexes(s.tasks)[k] == i;
      if j != k {
        assert u.tasks[if k < j then k else k - 1] == s.tasks[k];
      }
    } else if step.StepReceive? {
      assert u.tasks[k] == s.tasks[k];
    } else {
      assert u.tasks[k] == s.tasks[k];
    }
  }

  /** Once its time has come, a queued range no longer keeps the loop waiting: with room below the limit something is launched. */
  lemma DueLaunches(s: State, i: nat, t: int, now: int)
    requires QueuedUntil(s, i, t) && t <= now && !s.failed && s.active < Controller.Limit(s.controller)
    ensures CanLaunch(s, now)
  {
    var k :| 0 <= k < |s.tasks| && s.tasks[k].index == i && s.tasks[k].notBefore == Some(t);
    assert IsReady(s.tasks[k], now);
  }

  lemma {:induction false} StaysQueued(states: seq<State>, steps: seq<Step>, n: nat, m: nat, i: nat, t: int)
    requires Execution(states, steps) && n <= m < |states| && QueuedUntil(states[n], i, t)
    requires forall k :: n <= k < m ==> !LaunchesRange(states[k], steps[k], i)
    ensures QueuedUntil(states[m], i, t)
    decreases m
  {
    if n < m {
      StaysQueued(states, steps, n, m - 1, i, t);
      var s, step, _ := StepTo(states, steps, m);
      StepWaits(s, step, i, t);
    }
  }

  /** A range that is queued until `t` is next launched at `t` or later. */
  lemma RetryWaits(states: seq<State>, steps: seq<Step>, n: nat, m: nat, i: nat, t: int)
    requires Execution(states, steps) && n <= m < |steps| && QueuedUntil(states[n], i, t)
    requires forall k :: n <= k < m ==> !LaunchesRange(states[k], steps[k], i)
    requires LaunchesRange(states[m], steps[m], i)
    ensures t <= steps[m].now
  {
    StaysQueued(states, steps, n, m, i, t);
    ExecutionKeeps(states, steps, m);
    StepWaits(states[m], steps[m], i, t);
  }
}
