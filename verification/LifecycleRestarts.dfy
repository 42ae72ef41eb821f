/** What a restart keeps reserved: the keys a download holds when the run it replaces has ended. */
module LifecycleRestarts {
  import opened Collections
  import opened Reservations
  import opened Lifecycle
  import opened LifecycleInvariant
  import opened LifecycleSteps
  import opened LifecycleFinish
  import opened LifecycleRuns
  import opened LifecyclePaths
  import opened LifecycleStatuses
  import opened LifecycleTheorems

  // ----- the marks of active downloads -----

  /** A download that is running carries no mark of a restart. */
  ghost predicate Unmarked(s: State)
  {
    forall id :: id in s.objects ==> UnmarkedAt(s, id)
  }

  ghost predicate UnmarkedAt(s: State, id: Id)
    requires id in s.objects
  {
    s.objects[id].status == Active ==> s.objects[id].retainAfterRun.None?
  }

  /** A download without a run carries no marks, so a launch finds none. */
  lemma TurnUnmarked(s: State)
    requires Inv(s) && Unmarked(s) && s.waiting != []
    ensures Unmarked(ScheduleTurn(s))
  {
    NoDefensiveDrop(s);
    var gid := s.waiting[0];
    if gid !in s.active {
      NoRunNoMark(s, s.downloads[gid]);
    }
    forall id | id in ScheduleTurn(s).objects
      ensures UnmarkedAt(ScheduleTurn(s), id)
    {
      assert id in s.objects && UnmarkedAt(s, id);
    }
  }

  lemma NoRunNoMark(s: State, id: Id)
    requires Inv(s) && id in s.objects && s.objects[id].gid !in s.active
    ensures s.objects[id].ctx.None? && s.objects[id].retainAfterRun.None?
  {
    assert HandOverOk(s, s.objects[id]);
    ContextMeansActive(s, id);
  }

  lemma ContextMeansActive(s: State, id: Id)
    requires RunsOk(s) && id in s.objects
    ensures s.objects[id].ctx.Some? ==> s.objects[id].gid in s.active
  {
    if s.objects[id].ctx.Some? {
      assert RunOk(s, Run(id, s.objects[id].ctx.value));
    }
  }

  lemma LoopUnmarked(s: State, c: nat)
    requires Inv(s) && s.taken && Unmarked(s)
    ensures Unmarked(ScheduleLoop(s, c))
  {
    var trace := LoopTrace(s, c);
    TraceUnmarked(trace, |trace| - 1);
  }

  lemma {:induction false} TraceUnmarked(trace: seq<State>, k: nat)
    requires Turns(trace) && k < |trace| && Unmarked(trace[0])
    ensures Unmarked(trace[k])
  {
    if k > 0 {
      TraceUnmarked(trace, k - 1);
      UnmarkedTurn(trace, k);
    }
  }

  lemma UnmarkedTurn(trace: seq<State>, k: nat)
    requires Turns(trace) && 0 < k < |trace| && Unmarked(trace[k - 1])
    ensures Unmarked(trace[k])
  {
    assert TurnAt(trace, k - 1);
    TurnUnmarked(trace[k - 1]);
  }

  lemma ScheduleUnmarked(s: State, cut: Option<nat>)
    requires Inv(s) && s.taken && Unmarked(s)
    ensures Unmarked(Schedule(s, cut))
  {
    var turns := if s.shutdown then 0 else if cut.Some? && cut.value < |s.waiting| then cut.value else |s.waiting|;
    LoopUnmarked(s, turns);
    var u, t := ScheduleLoop(s, turns), Schedule(s, cut);
    forall id | id in t.objects
      ensures UnmarkedAt(t, id)
    {
      assert UnmarkedAt(u, id);
    }
  }

  lemma ControlUnmarked(s: State, query: Gid, control: Control, id: Id)
    requires Inv(s) && id in s.objects && UnmarkedAt(s, id)
    ensures id in Apply(s, StepControl(query, control)).objects
    ensures UnmarkedAt(Apply(s, StepControl(query, control)), id)
  {
    var found := Find(s.downloads, query);
    if found.Found? {
      FoundIsRegistered(s, query);
      ActUnmarked(s, found.id, control, id);
    }
  }

  lemma ActUnmarked(s: State, j: Id, control: Control, id: Id)
    requires j in s.objects && id in s.objects && UnmarkedAt(s, id)
    ensures id in Act(s, j, control).objects && UnmarkedAt(Act(s, j, control), id)
  {
    ActStatus(s, j, control, id);
    match control
    case ToChangeOption(c) => ChangeOptionUnmarked(s, j, c, id);
    case ToChangeUri(changed) => ChangeUriUnmarked(s, j, changed, id);
    case _ =>
  }

  lemma ChangeOptionUnmarked(s: State, j: Id, c: OptionChange, id: Id)
    requires j in s.objects && id in s.objects && UnmarkedAt(s, id) && id in ChangeOption(s, j, c).objects
    ensures UnmarkedAt(ChangeOption(s, j, c), id)
  {
  }

  lemma ChangeUriUnmarked(s: State, j: Id, changed: bool, id: Id)
    requires j in s.objects && id in s.objects && UnmarkedAt(s, id) && id in ChangeUri(s, j, changed).objects
    ensures UnmarkedAt(ChangeUri(s, j, changed), id)
  {
  }

  lemma FinishUnmarked(s: State, r: Run, outcome: RunOutcome, id: Id)
    requires Inv(s) && r in s.runs && id in s.objects && UnmarkedAt(s, id)
    ensures r.id in s.objects && id in Finish(s, r, outcome).objects && UnmarkedAt(Finish(s, r, outcome), id)
  {
    NeverStale(s, r);
    FinishStatus(s, r, outcome, id);
    if id != r.id {
      FinishOthers(s, r, outcome, id);
    }
  }

  lemma FinishOthers(s: State, r: Run, outcome: RunOutcome, id: Id)
    requires r.id in s.objects && s.objects[r.id].ctx == Some(r.ctx) && id in s.objects && id != r.id
    ensures id in Finish(s, r, outcome).objects && Finish(s, r, outcome).objects[id] == s.objects[id]
  {
    FinishIs(s, r, outcome);
    assert Finish(s, r, outcome).objects == AfterRun(s, r, outcome).objects;
  }

  lemma StepUnmarked(s: State, step: Step)
    requires Inv(s) && Enabled(s, step) && Unmarked(s)
    ensures Unmarked(Apply(s, step))
  {
    if step.StepSchedule? {
      ScheduleUnmarked(s, step.cut);
    } else {
      forall id | id in Apply(s, step).objects
        ensures UnmarkedAt(Apply(s, step), id)
      {
        OneUnmarked(s, step, id);
      }
    }
  }

  lemma OneUnmarked(s: State, step: Step, id: Id)
    requires Inv(s) && Enabled(s, step) && Unmarked(s) && !step.StepSchedule? && id in Apply(s, step).objects
    ensures UnmarkedAt(Apply(s, step), id)
  {
    if id !in s.objects {
      AddedStatus(s, step, id);
    } else {
      assert UnmarkedAt(s, id);
      match step
      case StepControl(query, control) => ControlUnmarked(s, query, control, id);
      case StepFinish(r, outcome) => FinishUnmarked(s, r, outcome, id);
      case _ => OtherUnmarked(s, step, id);
    }
  }

  lemma OtherUnmarked(s: State, step: Step, id: Id)
    requires id in s.objects && UnmarkedAt(s, id) && Enabled(s, step) && id in Apply(s, step).objects
    requires !step.StepControl? && !step.StepFinish? && !step.StepSchedule?
    ensures UnmarkedAt(Apply(s, step), id)
  {
  }

  lemma {:induction false} ActiveUnmarked(states: seq<State>, steps: seq<Step>, i: nat)
    requires Execution(states, steps) && i < |states|
    ensures Unmarked(states[i])
  {
    if i == 0 {
      var limits, entries :| states[0] == Loaded(limits, entries);
      LoadedUnmarked(limits, entries);
    } else {
      ActiveUnmarked(states, steps, i - 1);
      UnmarkedNext(states, steps, i);
    }
  }

  lemma UnmarkedNext(states: seq<State>, steps: seq<Step>, i: nat)
    requires Execution(states, steps) && 0 < i < |states| && Unmarked(states[i - 1])
    ensures Unmarked(states[i])
  {
    var s, step, t := StepTo(states, steps, i);
    StepUnmarked(s, step);
  }

  lemma LoadedUnmarked(limits: Limits, entries: seq<Entry>)
    ensures Unmarked(Loaded(limits, entries))
  {
    forall id | id in Loaded(limits, entries).objects
      ensures UnmarkedAt(Loaded(limits, entries), id)
    {
      LoadedStatus(limits, entries, id);
    }
  }

  // ----- what the end of the old run leaves -----

  /** A live run of a download, in a state of an execution. */
  ghost predicate LiveIn(s: State, r: Run)
  {
    r in s.runs && r.id in s.objects && Registered(s, r.id) && s.objects[r.id].ctx == Some(r.ctx)
  }

  /** The change sets the directory or the name to something else than is shown. */
  ghost predicate Moves(d: Download, c: OptionChange)
  {
    (c.dir.Some? && c.dir != Some(d.target.shown.dir)) || (c.out.Some? && c.out != Some(d.target.shown.out))
  }

  /**
   After an option change that restarts a running download, the end of the old run,
   however it ends, leaves the gid with the keys of the next selection of a torrent
   whose files are known, with the keys it had if it stays where it is, and with none
   if it moves.
   */
  lemma OptionChangeHandsOver(s: State, r: Run, c: OptionChange, outcome: RunOutcome)
    requires Inv(s) && Unmarked(s) && LiveIn(s, r) && s.objects[r.id].status == Active
    requires Restarts(c) && OptionChangeAccepted(s, r.id, c)
    ensures r.id in ChangeOption(s, r.id, c).objects
    ensures var d, t := s.objects[r.id], ChangeOption(s, r.id, c);
            Owned(Finish(t, r, outcome).owner, d.gid) ==
              if d.kind == Torrent && c.hasInfo then Elements(c.nextKeys.value)
              else if d.kind == Torrent || !Moves(d, c) then Owned(s.owner, d.gid)
              else {}
  {
    var t := ChangeOption(s, r.id, c);
    ChangeOptionKeeps(s, r.id, c);
    ChangedMarks(s, r, c);
    FinishReservations(t, r, outcome);
  }

  lemma ChangedMarks(s: State, r: Run, c: OptionChange)
    requires Inv(s) && Unmarked(s) && LiveIn(s, r) && s.objects[r.id].status == Active
    requires Restarts(c) && OptionChangeAccepted(s, r.id, c)
    ensures var d, t := s.objects[r.id], ChangeOption(s, r.id, c);
            && r in t.runs && r.id in t.objects && t.objects[r.id].status == Waiting && t.objects[r.id].gid == d.gid
            && (t.objects[r.id].retainAfterRun == Some(r.ctx) <==> d.kind == Torrent || !Moves(d, c))
            && (d.kind == Torrent && c.hasInfo ==>
                  t.objects[r.id].transitionAfterRun == Some(r.ctx) && t.objects[r.id].transitionKeys == c.nextKeys.value)
            && (!(d.kind == Torrent && c.hasInfo) ==> t.objects[r.id].transitionAfterRun != Some(r.ctx) && t.owner == s.owner)
  {
    assert UnmarkedAt(s, r.id) && HandOverOk(s, s.objects[r.id]);
  }

  /** A second change of a torrent, while the run of the first is still ending, replaces the next selection. */
  lemma SecondChangeHandsOver(s: State, r: Run, c: OptionChange, outcome: RunOutcome)
    requires Inv(s) && LiveIn(s, r) && s.objects[r.id].kind == Torrent && c.hasInfo
    requires s.objects[r.id].status == Waiting && s.objects[r.id].retainAfterRun == Some(r.ctx)
    requires Restarts(c) && OptionChangeAccepted(s, r.id, c)
    ensures r.id in ChangeOption(s, r.id, c).objects
    ensures Owned(Finish(ChangeOption(s, r.id, c), r, outcome).owner, s.objects[r.id].gid) == Elements(c.nextKeys.value)
  {
    var t := ChangeOption(s, r.id, c);
    ChangeOptionKeeps(s, r.id, c);
    FinishReservations(t, r, outcome);
  }

  /** After a change of URIs that alters something, the end of the old run leaves the gid all its keys. */
  lemma UriChangeHandsOver(s: State, r: Run, outcome: RunOutcome)
    requires Inv(s) && Unmarked(s) && LiveIn(s, r) && s.objects[r.id].status == Active
    ensures r.id in ChangeUri(s, r.id, true).objects
    ensures Owned(Finish(ChangeUri(s, r.id, true), r, outcome).owner, s.objects[r.id].gid) == Owned(s.owner, s.objects[r.id].gid)
  {
    var t := ChangeUri(s, r.id, true);
    ChangeUriKeeps(s, r.id, true);
    assert UnmarkedAt(s, r.id) && HandOverOk(s, s.objects[r.id]);
    FinishReservations(t, r, outcome);
  }

  /** An accepted change sets the options it names, leaves the others, and shows the result; a refused one does nothing. */
  lemma ChangeSetsPlace(s: State, id: Id, c: OptionChange)
    requires id in s.objects
    ensures var t := ChangeOption(s, id, c);
            && id in t.objects && (!OptionChangeAccepted(s, id, c) ==> t == s)
            && (OptionChangeAccepted(s, id, c) ==>
                  var was, now := s.objects[id].target, t.objects[id].target;
                  && (c.dir.Some? ==> now.options.dir == c.dir.value) && (c.dir.None? ==> now.options.dir == was.options.dir)
                  && (c.out.Some? ==> now.options.out == c.out.value) && (c.out.None? ==> now.options.out == was.options.out)
                  && now.shown == now.options)
  {
    if OptionChangeAccepted(s, id, c) {
      ChangedTarget(s, id, c);
    }
  }

  lemma ChangedTarget(s: State, id: Id, c: OptionChange)
    requires id in s.objects && OptionChangeAccepted(s, id, c)
    ensures id in ChangeOption(s, id, c).objects && ChangeOption(s, id, c).objects[id].target == NextTarget(s.objects[id], c)
  {
  }
}
