/**
 What a status means. Each is traced to the events that lead to it: how a run
 ended, what a user asked for, and what the scheduler did.
 */
module LifecycleStatuses {
  import opened Collections
  import opened Reservations
  import opened Lifecycle
  import opened LifecycleInvariant
  import opened LifecycleSteps
  import opened LifecycleFinish
  import opened LifecycleRuns
  import opened LifecyclePaths

  // ----- single steps -----

  /**
   The end of a run: nothing but a run of an active download changes its status.
   Running to the end completes it; otherwise a shutdown leaves it waiting for the
   next start, a cancellation pauses it and any other error is reported.
   */
  lemma FinishStatus(s: State, r: Run, outcome: RunOutcome, id: Id)
    requires r.id in s.objects && s.objects[r.id].ctx == Some(r.ctx) && id in s.objects
    ensures id in Finish(s, r, outcome).objects
    ensures var before, after := s.objects[id].status, Finish(s, r, outcome).objects[id].status;
            && (r.id != id || before != Active ==> after == before)
            && (r.id == id && before == Active ==>
                  && (outcome == RanToEnd ==> after == Complete)
                  && (outcome == Canceled && !s.shutdown ==> after == Paused)
                  && (outcome == Broke && !s.shutdown ==> after == Errored)
                  && (outcome != RanToEnd && s.shutdown ==> after == Waiting))
  {
    FinishIs(s, r, outcome);
    assert Finish(s, r, outcome).objects == AfterRun(s, r, outcome).objects;
  }

  /**
   The run that ended is gone, and its download has neither a context nor, if it was
   active, a cancel function, which the finisher has still to call.
   */
  lemma FinishClears(s: State, r: Run, outcome: RunOutcome)
    requires r.id in s.objects && s.objects[r.id].ctx == Some(r.ctx)
    ensures var t := Finish(s, r, outcome);
            && r.id in t.objects && t.objects[r.id].ctx == None && r !in t.runs && s.objects[r.id].gid !in t.active
            && (s.objects[r.id].status == Active ==> t.objects[r.id].cancel == None)
            && (s.objects[r.id].status == Active && s.objects[r.id].cancel.Some? ==>
                  CancelThenSignal(s.objects[r.id].cancel.value) in t.tails)
            && (forall q :: q in s.runs && q != r ==> q in t.runs)
  {
    FinishIs(s, r, outcome);
    var t := AfterRun(s, r, outcome);
    assert t.objects == Finish(s, r, outcome).objects && t.runs == Finish(s, r, outcome).runs
        && t.active == Finish(s, r, outcome).active && t.tails == Finish(s, r, outcome).tails;
  }

  /** What a user's request does to the download it names, and that it does nothing to any other. */
  ghost predicate Obeys(control: Control, accepted: bool, before: Status, after: Status)
  {
    match control
    case ToPause => after == if Terminal(before) then before else Paused
    case ToUnpause => after == if before == Paused then Waiting else before
    case ToRemove => after == if Terminal(before) then before else Removed
    case ToChangeUri(changed) => after == if changed && before == Active then Waiting else before
    case ToChangeOption(c) =>
      after == if accepted && (c.others || c.dir.Some? || c.out.Some?) && before == Active then Waiting else before
    case ToMove(_, _) => after == before
    case ToRemoveResult => after == before
  }

  ghost predicate AcceptedBy(s: State, id: Id, control: Control)
    requires id in s.objects
  {
    control.ToChangeOption? ==> OptionChangeAccepted(s, id, control.change)
  }

  lemma ActStatus(s: State, j: Id, control: Control, id: Id)
    requires j in s.objects && id in s.objects
    ensures id in Act(s, j, control).objects
    ensures j != id ==> Act(s, j, control).objects[id] == s.objects[id]
    ensures j == id ==> Obeys(control, AcceptedBy(s, id, control), s.objects[id].status, Act(s, j, control).objects[id].status)
  {
    match control
    case ToPause => PauseStatus(s, j, id);
    case ToUnpause => UnpauseStatus(s, j, id);
    case ToRemove => RemoveStatus(s, j, id);
    case ToMove(pos, how) => MoveStatus(s, j, pos, how, id);
    case ToChangeUri(changed) => ChangeUriStatus(s, j, changed, id);
    case ToChangeOption(c) => ChangeOptionStatus(s, j, c, id);
    case ToRemoveResult => RemoveResultStatus(s, j, id);
  }

  lemma PauseStatus(s: State, j: Id, id: Id)
    requires j in s.objects && id in s.objects
    ensures var e := Pause(s, j).objects[id];
            if j == id then Obeys(ToPause, true, s.objects[id].status, e.status) else e == s.objects[id]
  {
  }

  lemma UnpauseStatus(s: State, j: Id, id: Id)
    requires j in s.objects && id in s.objects
    ensures var e := Unpause(s, j).objects[id];
            if j == id then Obeys(ToUnpause, true, s.objects[id].status, e.status) else e == s.objects[id]
  {
  }

  lemma RemoveStatus(s: State, j: Id, id: Id)
    requires j in s.objects && id in s.objects
    ensures id in Remove(s, j).objects
    ensures var e := Remove(s, j).objects[id];
            if j == id then Obeys(ToRemove, true, s.objects[id].status, e.status) else e == s.objects[id]
  {
  }

  lemma MoveStatus(s: State, j: Id, pos: int, how: Anchor, id: Id)
    requires j in s.objects && id in s.objects
    ensures ChangePosition(s, j, pos, how).objects == s.objects
  {
  }

  lemma ChangeUriStatus(s: State, j: Id, changed: bool, id: Id)
    requires j in s.objects && id in s.objects
    ensures var e := ChangeUri(s, j, changed).objects[id];
            if j == id then Obeys(ToChangeUri(changed), true, s.objects[id].status, e.status) else e == s.objects[id]
  {
  }

  lemma ChangeOptionStatus(s: State, j: Id, c: OptionChange, id: Id)
    requires j in s.objects && id in s.objects
    ensures id in ChangeOption(s, j, c).objects
    ensures var e := ChangeOption(s, j, c).objects[id];
            if j == id then Obeys(ToChangeOption(c), OptionChangeAccepted(s, id, c), s.objects[id].status, e.status)
            else e == s.objects[id]
  {
    if OptionChangeAccepted(s, j, c) {
      var u := s.(owner := OwnerAfterChange(s, j, c), objects := s.objects[j := Changed(s, j, c)]);
      assert u.objects[j].status == s.objects[j].status;
      RestartStatus(u, j, id);
    }
  }

  lemma RestartStatus(s: State, j: Id, id: Id)
    requires j in s.objects && id in s.objects
    ensures id in Restart(s, j).objects
    ensures var e := Restart(s, j).objects[id];
            if j == id then e.status == (if s.objects[id].status == Active then Waiting else s.objects[id].status) else e == s.objects[id]
  {
  }

  lemma RemoveResultStatus(s: State, j: Id, id: Id)
    requires j in s.objects && id in s.objects
    ensures RemoveResult(s, j).objects == s.objects
  {
  }

  /** The scheduler leaves a download alone or makes a waiting one active with a new run of its own. */
  ghost predicate OnlyLaunched(s: State, t: State, id: Id)
  {
    && id in s.objects && id in t.objects && s.runs <= t.runs
    && (t.objects[id] == s.objects[id] || JustLaunched(s, t, id))
  }

  ghost predicate JustLaunched(s: State, t: State, id: Id)
    requires id in s.objects && id in t.objects
  {
    && s.objects[id].status == Waiting && t.objects[id].status == Active
    && t.objects[id].ctx.Some? && Run(id, t.objects[id].ctx.value) in t.runs && Run(id, t.objects[id].ctx.value) !in s.runs
  }

  lemma TurnStatus(s: State, id: Id)
    requires Inv(s) && s.waiting != [] && id in s.objects
    ensures OnlyLaunched(s, ScheduleTurn(s), id)
  {
    NoDefensiveDrop(s);
    var gid := s.waiting[0];
    if gid !in s.active {
      NewRunIsNew(s, s.downloads[gid]);
      LaunchStatus(s.(waiting := s.waiting[1..]), gid, id);
    }
  }

  lemma LaunchStatus(s: State, gid: Gid, id: Id)
    requires gid in s.downloads && s.downloads[gid] in s.objects && StatusOf(s, gid) == Waiting && id in s.objects
    requires Run(s.downloads[gid], s.nextCtx) !in s.runs
    ensures OnlyLaunched(s, Launch(s, gid), id)
  {
  }

  lemma NewRunIsNew(s: State, id: Id)
    requires Inv(s)
    ensures Run(id, s.nextCtx) !in s.runs
  {
    assert forall r :: r in s.runs ==> RunOk(s, r);
  }

  lemma LoopStatus(s: State, c: nat, id: Id)
    requires Inv(s) && s.taken && id in s.objects
    ensures OnlyLaunched(s, ScheduleLoop(s, c), id)
  {
    var trace := LoopTrace(s, c);
    TraceStatus(trace, |trace| - 1, id);
  }

  lemma {:induction false} TraceStatus(trace: seq<State>, k: nat, id: Id)
    requires Turns(trace) && k < |trace| && id in trace[0].objects
    ensures OnlyLaunched(trace[0], trace[k], id)
  {
    if k > 0 {
      TraceStatus(trace, k - 1, id);
      assert TurnAt(trace, k - 1);
      TurnStatus(trace[k - 1], id);
      LaunchedThrough(trace[0], trace[k - 1], trace[k], id);
    }
  }

  lemma LaunchedThrough(s: State, u: State, t: State, id: Id)
    requires OnlyLaunched(s, u, id) && OnlyLaunched(u, t, id)
    ensures OnlyLaunched(s, t, id)
  {
  }

  // ----- all steps -----

  /** The step is this request, and it names this download. */
  ghost predicate Asks(s: State, step: Step, id: Id)
  {
    step.StepControl? && Find(s.downloads, step.query) == Found(id)
  }

  /** Everything a step can do to the status of a download. */
  ghost predicate StatusMoves(s: State, step: Step, id: Id, before: Status, after: Status)
    requires id in s.objects
  {
    match step
    case StepControl(query, control) =>
      if Asks(s, step, id) then Obeys(control, AcceptedBy(s, id, control), before, after) else after == before
    case StepSchedule(_) => after == before || (before == Waiting && after == Active)
    case StepFinish(r, outcome) =>
      if r.id != id || before != Active then after == before
      else if outcome == RanToEnd then after == Complete
      else if s.shutdown then after == Waiting
      else if outcome == Canceled then after == Paused
      else after == Errored
    case _ => after == before
  }

  /** The status of a known download changes exactly as the event says. */
  lemma StepStatus(s: State, step: Step, id: Id)
    requires Inv(s) && Enabled(s, step) && id in s.objects
    ensures id in Apply(s, step).objects
    ensures StatusMoves(s, step, id, s.objects[id].status, Apply(s, step).objects[id].status)
  {
    match step
    case StepControl(query, control) => ControlStatus(s, query, control, id);
    case StepSchedule(cut) => ScheduleStatus(s, cut, id);
    case StepFinish(r, outcome) => EndStatusMoves(s, r, outcome, id);
    case _ => OtherStatus(s, step, id);
  }

  lemma ScheduleStatus(s: State, cut: Option<nat>, id: Id)
    requires Inv(s) && s.taken && id in s.objects
    ensures OnlyLaunched(s, Schedule(s, cut), id)
  {
    var turns := if s.shutdown then 0 else if cut.Some? && cut.value < |s.waiting| then cut.value else |s.waiting|;
    LoopStatus(s, turns, id);
    var t := ScheduleLoop(s, turns);
    assert Schedule(s, cut).objects == t.objects && Schedule(s, cut).runs == t.runs;
  }

  lemma EndStatusMoves(s: State, r: Run, outcome: RunOutcome, id: Id)
    requires Inv(s) && r in s.runs && id in s.objects
    ensures r.id in s.objects && id in Finish(s, r, outcome).objects
    ensures StatusMoves(s, StepFinish(r, outcome), id, s.objects[id].status, Finish(s, r, outcome).objects[id].status)
  {
    NeverStale(s, r);
    FinishStatus(s, r, outcome, id);
  }

  lemma ControlStatus(s: State, query: Gid, control: Control, id: Id)
    requires Inv(s) && id in s.objects
    ensures id in Apply(s, StepControl(query, control)).objects
    ensures StatusMoves(s, StepControl(query, control), id, s.objects[id].status,
                        Apply(s, StepControl(query, control)).objects[id].status)
  {
    var found := Find(s.downloads, query);
    if found.Found? {
      FoundIsRegistered(s, query);
      ActStatus(s, found.id, control, id);
    }
  }

  lemma OtherStatus(s: State, step: Step, id: Id)
    requires Inv(s) && Enabled(s, step) && id in s.objects && !step.StepControl? && !step.StepSchedule? && !step.StepFinish?
    ensures id in Apply(s, step).objects && Apply(s, step).objects[id].status == s.objects[id].status
  {
    if step.StepReserve? || step.StepPublish? {
      RunStatus(s, step, id);
    } else {
      assert id in Apply(s, step).objects && Apply(s, step).objects[id] == s.objects[id];
    }
  }

  lemma RunStatus(s: State, step: Step, id: Id)
    requires id in s.objects && (step.StepReserve? || step.StepPublish?)
    ensures id in Apply(s, step).objects && Apply(s, step).objects[id].status == s.objects[id].status
  {
  }

  /** A new download is waiting or paused, of the kind and for the place it was added with, and has no run and no path yet. */
  lemma AddedStatus(s: State, step: Step, id: Id)
    requires Inv(s) && Enabled(s, step) && id in Apply(s, step).objects && id !in s.objects
    ensures step.StepAdd? && step.newId == id
    ensures var d := Apply(s, step).objects[id];
            && d.status == (if step.paused then Paused else Waiting) && d.gid == step.gid && d.kind == step.kind
            && d.target.options == step.place && d.target.shown == step.place && d.target.path.None?
            && d.ctx.None? && d.cancel.None?
  {
    if !step.StepAdd? {
      AddsNone(s, step);
      assert false;
    }
  }

  // ----- whole executions -----

  /** In this state a run of the download ended this way. */
  ghost predicate EndedAt(states: seq<State>, steps: seq<Step>, n: nat, id: Id, outcome: RunOutcome)
  {
    n < |steps| && steps[n].StepFinish? && steps[n].run.id == id && steps[n].outcome == outcome
  }

  ghost predicate RemovedAt(states: seq<State>, steps: seq<Step>, n: nat, id: Id)
  {
    n < |steps| && n < |states| && Asks(states[n], steps[n], id) && steps[n].control.ToRemove?
  }

  /** Where a terminal status comes from. */
  ghost predicate Explained(states: seq<State>, steps: seq<Step>, i: nat, id: Id, status: Status)
  {
    && (status == Complete ==> exists n :: 0 <= n < i && EndedAt(states, steps, n, id, RanToEnd))
    && (status == Errored ==> exists n :: 0 <= n < i && EndedAt(states, steps, n, id, Broke))
    && (status == Removed ==> exists n :: 0 <= n < i && RemovedAt(states, steps, n, id))
  }

  lemma ExplainedLater(states: seq<State>, steps: seq<Step>, i: nat, id: Id, status: Status)
    requires Explained(states, steps, i, id, status)
    ensures Explained(states, steps, i + 1, id, status)
  {
  }

  /**
   In every state of every execution: a download is complete only if a run of it
   ran to the end, in error only if a run of it broke, and removed only if someone
   removed it.
   */
  lemma {:induction false} StatusIsExplained(states: seq<State>, steps: seq<Step>, i: nat, id: Id)
    requires Execution(states, steps) && i < |states| && id in states[i].objects
    ensures Explained(states, steps, i, id, states[i].objects[id].status)
  {
    if i == 0 {
      var limits, entries :| states[0] == Loaded(limits, entries);
      LoadedStatus(limits, entries, id);
    } else {
      if id in states[i - 1].objects {
        StatusIsExplained(states, steps, i - 1, id);
      }
      ExplainedAt(states, steps, i, id);
    }
  }

  lemma ExplainedAt(states: seq<State>, steps: seq<Step>, i: nat, id: Id)
    requires Execution(states, steps) && 0 < i < |states| && id in states[i].objects
    requires id in states[i - 1].objects ==> Explained(states, steps, i - 1, id, states[i - 1].objects[id].status)
    ensures Explained(states, steps, i, id, states[i].objects[id].status)
  {
    var s, step, t := StepTo(states, steps, i);
    if id in s.objects {
      StepStatus(s, step, id);
      ExplainedByStep(states, steps, i, id, s.objects[id].status, t.objects[id].status);
    } else {
      AddedStatus(s, step, id);
    }
  }

  lemma ExplainedByStep(states: seq<State>, steps: seq<Step>, i: nat, id: Id, before: Status, after: Status)
    requires 0 < i < |states| && |states| == |steps| + 1 && id in states[i - 1].objects
    requires Explained(states, steps, i - 1, id, before) && StatusMoves(states[i - 1], steps[i - 1], id, before, after)
    ensures Explained(states, steps, i, id, after)
  {
    ExplainedLater(states, steps, i - 1, id, before);
    if after != before {
      assert after == Complete ==> EndedAt(states, steps, i - 1, id, RanToEnd);
      assert after == Errored ==> EndedAt(states, steps, i - 1, id, Broke);
      assert after == Removed ==> RemovedAt(states, steps, i - 1, id);
    }
  }

  lemma {:induction false} LoadedStatus(limits: Limits, entries: seq<Entry>, id: Id)
    requires id in Loaded(limits, entries).objects
    ensures var status := Loaded(limits, entries).objects[id].status; status == Waiting || status == Paused
  {
    if entries != [] {
      if id in Loaded(limits, entries[..|entries| - 1]).objects {
        LoadedStatus(limits, entries[..|entries| - 1], id);
      }
    }
  }

  /** A result never changes: once complete, in error or removed, a download stays so. */
  lemma {:induction false} ResultsAreFinal(states: seq<State>, steps: seq<Step>, i: nat, j: nat, id: Id)
    requires Execution(states, steps) && i <= j < |states| && id in states[i].objects && Terminal(states[i].objects[id].status)
    ensures id in states[j].objects && states[j].objects[id].status == states[i].objects[id].status
    decreases j
  {
    if i < j {
      ResultsAreFinal(states, steps, i, j - 1, id);
      ResultStays(states, steps, j, id);
    }
  }

  lemma ResultStays(states: seq<State>, steps: seq<Step>, j: nat, id: Id)
    requires Execution(states, steps) && 0 < j < |states| && id in states[j - 1].objects && Terminal(states[j - 1].objects[id].status)
    ensures id in states[j].objects && states[j].objects[id].status == states[j - 1].objects[id].status
  {
    var s, step, t := StepTo(states, steps, j);
    StepStatus(s, step, id);
  }

  /** The end of a run, in any execution, by how it ended. */
  lemma RunEndStatus(states: seq<State>, steps: seq<Step>, i: nat, r: Run, outcome: RunOutcome)
    requires Execution(states, steps) && i < |steps| && steps[i] == StepFinish(r, outcome)
    ensures r.id in states[i].objects && r.id in states[i + 1].objects
    ensures var before, after := states[i].objects[r.id].status, states[i + 1].objects[r.id].status;
            && (before != Active ==> after == before)
            && (before == Active && outcome == RanToEnd ==> after == Complete)
            && (before == Active && outcome != RanToEnd && states[i].shutdown ==> after == Waiting)
            && (before == Active && outcome == Canceled && !states[i].shutdown ==> after == Paused)
            && (before == Active && outcome == Broke && !states[i].shutdown ==> after == Errored)
  {
    var s, step, t := StepTo(states, steps, i + 1);
    NeverStale(s, r);
    StepStatus(s, step, r.id);
  }
}
