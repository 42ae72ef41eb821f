/**
 Output paths over whole executions. A published path outlives its run, so that
 the next run goes on with the same file; it is dropped when the program notices
 that the directory or the name was changed.
 */
module LifecyclePaths {
  import opened Collections
  import opened Reservations
  import opened Paths
  import opened Lifecycle
  import opened LifecycleInvariant
  import opened LifecycleSteps
  import opened LifecycleFinish
  import opened LifecycleRuns

  /** Unless a run is marked to drop the path at its end, all that is or may be published is for the options in force. */
  ghost predicate Fresh(d: Download)
  {
    d.kind == Uri && d.pathResetAfterRun.None? ==>
      && (d.target.path.Some? ==> d.target.path.value.from == d.target.options)
      && (d.ctx.Some? ==>
            d.target.since == {d.target.options}
            && (d.target.held.Some? ==> d.target.held.value.from == d.target.options))
  }

  /** A path that was chosen for other options than those in force, and that nothing is going to drop. */
  ghost predicate HoldsStalePath(d: Download)
  {
    d.pathResetAfterRun.None? && d.target.path.Some? && d.target.path.value.from != d.target.options
  }

  /** The change moves a URI download, but only to values that are shown already, so that it goes unnoticed. */
  ghost predicate Unnoticed(d: Download, c: OptionChange)
  {
    d.kind == Uri && d.pathResetAfterRun.None? && NextPlace(d.target, c) != d.target.options && !PathChanged(d, c)
  }

  ghost predicate Misses(s: State, step: Step, id: Id)
  {
    && step.StepControl? && step.control.ToChangeOption?
    && Find(s.downloads, step.query) == Found(id)
    && id in s.objects && Unnoticed(s.objects[id], step.control.change)
  }

  // ----- single steps -----

  /** What the two predicates look at. */
  lemma SamePathSame(d: Download, e: Download)
    requires SamePath(d, e)
    ensures Fresh(e) <==> Fresh(d)
    ensures HoldsStalePath(e) <==> HoldsStalePath(d)
  {
  }

  lemma FreshIsNotStale(d: Download)
    requires Fresh(d) && PathOk(d)
    ensures !HoldsStalePath(d)
  {
  }

  /** An option change, from a download whose path is for its options: stale afterwards exactly when it goes unnoticed. */
  lemma ChangeFresh(s: State, id: Id, c: OptionChange)
    requires id in s.objects && PathOk(s.objects[id]) && Fresh(s.objects[id])
    ensures var e := ChangeOption(s, id, c).objects[id];
            && (Fresh(e) <==> !Unnoticed(s.objects[id], c))
            && (HoldsStalePath(e) <==> Unnoticed(s.objects[id], c))
  {
    var d := s.objects[id];
    var e := ChangeOption(s, id, c).objects[id];
    if OptionChangeAccepted(s, id, c) {
      assert SamePath(Changed(s, id, c), e);
      SamePathSame(Changed(s, id, c), e);
      ChangedFresh(d, c, Changed(s, id, c));
    } else {
      assert e == d && d.kind == Torrent;
    }
  }

  lemma ChangedFresh(d: Download, c: OptionChange, e: Download)
    requires PathOk(d) && Fresh(d)
    requires e.kind == d.kind && e.ctx == d.ctx && e.target == NextTarget(d, c)
    requires e.pathResetAfterRun == if PathChanged(d, c) && d.ctx.Some? then d.ctx else d.pathResetAfterRun
    ensures (Fresh(e) <==> !Unnoticed(d, c)) && (HoldsStalePath(e) <==> Unnoticed(d, c))
  {
    var next := NextPlace(d.target, c);
    if d.kind == Uri && next == d.target.options {
      assert d.target.since + {next} == d.target.since || d.ctx.None? || d.pathResetAfterRun.Some?;
    }
  }

  lemma LaunchFresh(s: State, gid: Gid)
    requires gid in s.downloads && s.downloads[gid] in s.objects && Fresh(s.objects[s.downloads[gid]])
    requires s.objects[s.downloads[gid]].pathResetAfterRun == None
    ensures Fresh(Launch(s, gid).objects[s.downloads[gid]])
  {
  }

  lemma PublishFresh(s: State, r: Run, c: Chosen, id: Id)
    requires RunOk(s, r) && id in s.objects && Fresh(s.objects[id])
    ensures Fresh(RunPublishes(s, r, c).objects[id])
  {
  }

  lemma EndedFresh(s: State, r: Run, outcome: RunOutcome, id: Id)
    requires RunOk(s, r) && PathOk(s.objects[r.id]) && id in s.objects && Fresh(s.objects[id])
    ensures id in Finish(s, r, outcome).objects && Fresh(Finish(s, r, outcome).objects[id])
  {
    FinishIs(s, r, outcome);
    assert Finish(s, r, outcome).objects == AfterRun(s, r, outcome).objects;
  }

  // ----- the scheduler -----

  lemma TurnFresh(s: State, id: Id)
    requires Inv(s) && s.waiting != [] && id in s.objects && Fresh(s.objects[id])
    ensures id in ScheduleTurn(s).objects && Fresh(ScheduleTurn(s).objects[id])
  {
    NoDefensiveDrop(s);
    var gid := s.waiting[0];
    if gid !in s.active {
      IdleWhenNotActive(s, s.downloads[gid]);
      if id == s.downloads[gid] {
        LaunchFresh(s.(waiting := s.waiting[1..]), gid);
      }
    }
  }

  lemma LoopFresh(s: State, c: nat, id: Id)
    requires Inv(s) && s.taken && id in s.objects && Fresh(s.objects[id])
    ensures id in ScheduleLoop(s, c).objects && Fresh(ScheduleLoop(s, c).objects[id])
  {
    var trace := LoopTrace(s, c);
    TraceFresh(trace, |trace| - 1, id);
  }

  lemma {:induction false} TraceFresh(trace: seq<State>, k: nat, id: Id)
    requires Turns(trace) && k < |trace| && id in trace[0].objects && Fresh(trace[0].objects[id])
    ensures id in trace[k].objects && Fresh(trace[k].objects[id])
  {
    if k > 0 {
      TraceFresh(trace, k - 1, id);
      assert TurnAt(trace, k - 1);
      TurnFresh(trace[k - 1], id);
    }
  }

  // ----- all steps -----

  /** Controls other than an option change, and steps outside the runs, leave what the predicates look at alone. */
  ghost predicate Leaves(s: State, t: State, id: Id)
  {
    id in s.objects && id in t.objects && SamePath(s.objects[id], t.objects[id])
  }

  lemma OtherControlsLeave(s: State, j: Id, control: Control, id: Id)
    requires j in s.objects && id in s.objects && !control.ToChangeOption?
    ensures Leaves(s, Act(s, j, control), id)
  {
    match control
    case ToPause => PauseLeaves(s, j, id);
    case ToUnpause => UnpauseLeaves(s, j, id);
    case ToRemove => RemoveLeaves(s, j, id);
    case ToMove(pos, how) => MoveLeaves(s, j, pos, how, id);
    case ToChangeUri(changed) => ChangeUriLeaves(s, j, changed, id);
    case ToRemoveResult => RemoveResultLeaves(s, j, id);
  }

  lemma PauseLeaves(s: State, j: Id, id: Id)
    requires j in s.objects && id in s.objects
    ensures Leaves(s, Pause(s, j), id)
  {
  }

  lemma UnpauseLeaves(s: State, j: Id, id: Id)
    requires j in s.objects && id in s.objects
    ensures Leaves(s, Unpause(s, j), id)
  {
  }

  lemma MoveLeaves(s: State, j: Id, pos: int, how: Anchor, id: Id)
    requires j in s.objects && id in s.objects
    ensures Leaves(s, ChangePosition(s, j, pos, how), id)
  {
  }

  lemma ChangeUriLeaves(s: State, j: Id, changed: bool, id: Id)
    requires j in s.objects && id in s.objects
    ensures Leaves(s, ChangeUri(s, j, changed), id)
  {
  }

  lemma RemoveResultLeaves(s: State, j: Id, id: Id)
    requires j in s.objects && id in s.objects
    ensures Leaves(s, RemoveResult(s, j), id)
  {
  }

  lemma RemoveLeaves(s: State, j: Id, id: Id)
    requires j in s.objects && id in s.objects
    ensures Leaves(s, Remove(s, j), id)
  {
  }

  lemma ControlFresh(s: State, query: Gid, control: Control, id: Id)
    requires Inv(s) && id in s.objects && Fresh(s.objects[id])
    ensures var t, misses := Apply(s, StepControl(query, control)), Misses(s, StepControl(query, control), id);
            && id in t.objects
            && (Fresh(t.objects[id]) <==> !misses) && (HoldsStalePath(t.objects[id]) <==> misses)
  {
    assert PathOk(s.objects[id]);
    FreshIsNotStale(s.objects[id]);
    var found := Find(s.downloads, query);
    if found.Found? && found.id in s.objects {
      ActFresh(s, found.id, control, id);
    }
  }

  lemma ActFresh(s: State, j: Id, control: Control, id: Id)
    requires j in s.objects && id in s.objects && PathOk(s.objects[id]) && Fresh(s.objects[id])
    ensures var t, misses := Act(s, j, control), control.ToChangeOption? && j == id && Unnoticed(s.objects[id], control.change);
            && id in t.objects
            && (Fresh(t.objects[id]) <==> !misses) && (HoldsStalePath(t.objects[id]) <==> misses)
  {
    FreshIsNotStale(s.objects[id]);
    if !control.ToChangeOption? {
      OtherControlsLeave(s, j, control, id);
      SamePathSame(s.objects[id], Act(s, j, control).objects[id]);
    } else if j == id {
      ChangeFresh(s, id, control.change);
    } else {
      OthersUnchanged(s, j, control.change, id);
    }
  }

  lemma OthersUnchanged(s: State, j: Id, c: OptionChange, id: Id)
    requires j in s.objects && id in s.objects && j != id
    ensures id in ChangeOption(s, j, c).objects && ChangeOption(s, j, c).objects[id] == s.objects[id]
  {
  }

  lemma RunStepFresh(s: State, step: Step, id: Id)
    requires Inv(s) && Enabled(s, step) && id in s.objects && Fresh(s.objects[id])
    requires step.StepFinish? || step.StepReserve? || step.StepPublish?
    ensures id in Apply(s, step).objects && Fresh(Apply(s, step).objects[id])
  {
    NeverStale(s, step.run);
    assert RunOk(s, step.run) && PathOk(s.objects[step.run.id]);
    if step.StepFinish? {
      EndedFresh(s, step.run, step.outcome, id);
    } else if step.StepPublish? {
      PublishFresh(s, step.run, step.chosen, id);
    }
  }

  lemma QuietStepFresh(s: State, step: Step, id: Id)
    requires Inv(s) && Enabled(s, step) && id in s.objects && Fresh(s.objects[id])
    requires !step.StepControl? && !step.StepFinish? && !step.StepReserve? && !step.StepPublish?
    ensures id in Apply(s, step).objects && Fresh(Apply(s, step).objects[id])
  {
    if step.StepSchedule? {
      LoopFresh(s, if s.shutdown then 0
                   else if step.cut.Some? && step.cut.value < |s.waiting| then step.cut.value else |s.waiting|, id);
    }
  }

  /**
   From any reachable state in which a download's path is for its options, a step
   leaves a stale path if and only if it is an option change that goes unnoticed:
   every directory and name it sets is the one shown, and one of them is not the
   one in force.
   */
  lemma StepFresh(s: State, step: Step, id: Id)
    requires Inv(s) && Enabled(s, step) && id in s.objects && Fresh(s.objects[id])
    ensures id in Apply(s, step).objects
    ensures Fresh(Apply(s, step).objects[id]) <==> !Misses(s, step, id)
    ensures HoldsStalePath(Apply(s, step).objects[id]) <==> Misses(s, step, id)
  {
    if step.StepControl? {
      ControlFresh(s, step.query, step.control, id);
    } else {
      if step.StepFinish? || step.StepReserve? || step.StepPublish? {
        RunStepFresh(s, step, id);
      } else {
        QuietStepFresh(s, step, id);
      }
      StepKeeps(s, step);
      assert PathOk(Apply(s, step).objects[id]);
      FreshIsNotStale(Apply(s, step).objects[id]);
    }
  }

  // ----- whole executions -----

  /** A new object has no path and no run. */
  lemma OnlyAddedAreNew(s: State, step: Step, id: Id)
    requires Inv(s) && Enabled(s, step) && id in Apply(s, step).objects && id !in s.objects
    ensures Fresh(Apply(s, step).objects[id]) && Apply(s, step).objects[id].target.path == None
    ensures Apply(s, step).objects[id].target.held == None
  {
    if step.StepAdd? {
      assert Apply(s, step).objects[id] == NewDownload(step.gid, step.kind, step.place, step.paused);
    } else {
      AddsNone(s, step);
      assert false;
    }
  }

  lemma AddsNone(s: State, step: Step)
    requires Inv(s) && Enabled(s, step) && !step.StepAdd?
    ensures Apply(s, step).objects.Keys == s.objects.Keys
  {
    if step.StepSchedule? {
      ScheduleAddsNone(s, step.cut);
    } else if step.StepControl? {
      ControlAddsNone(s, step.query, step.control);
    } else if step.StepFinish? || step.StepReserve? || step.StepPublish? {
      NeverStale(s, step.run);
      RunAddsNone(s, step);
    } else {
      OtherAddsNone(s, step);
    }
  }

  lemma ScheduleAddsNone(s: State, cut: Option<nat>)
    requires Inv(s) && s.taken
    ensures Schedule(s, cut).objects.Keys == s.objects.Keys
  {
    var turns := if s.shutdown then 0 else if cut.Some? && cut.value < |s.waiting| then cut.value else |s.waiting|;
    LoopAddsNone(s, turns);
    assert Schedule(s, cut).objects == ScheduleLoop(s, turns).objects;
  }

  lemma OtherAddsNone(s: State, step: Step)
    requires Enabled(s, step) && !step.StepAdd? && !step.StepSchedule? && !step.StepControl?
    requires !step.StepFinish? && !step.StepReserve? && !step.StepPublish?
    ensures Apply(s, step).objects == s.objects
  {
    match step
    case StepChangeGlobal(limits) => LimitsAddNone(s, limits);
    case StepPurge => assert Purge(s).objects == s.objects;
    case _ =>
  }

  lemma LimitsAddNone(s: State, limits: Limits)
    ensures ChangeGlobal(s, limits).objects == s.objects
  {
  }

  lemma RunAddsNone(s: State, step: Step)
    requires step.StepFinish? || step.StepReserve? || step.StepPublish?
    requires step.run.id in s.objects && s.objects[step.run.id].ctx == Some(step.run.ctx)
    ensures Apply(s, step).objects.Keys == s.objects.Keys
  {
    if step.StepFinish? {
      FinishAddsNone(s, step.run, step.outcome);
    }
  }

  lemma FinishAddsNone(s: State, r: Run, outcome: RunOutcome)
    requires r.id in s.objects && s.objects[r.id].ctx == Some(r.ctx)
    ensures Finish(s, r, outcome).objects.Keys == s.objects.Keys
  {
    FinishIs(s, r, outcome);
  }

  lemma ControlAddsNone(s: State, query: Gid, control: Control)
    ensures Apply(s, StepControl(query, control)).objects.Keys == s.objects.Keys
  {
    var found := Find(s.downloads, query);
    if found.Found? && found.id in s.objects {
      ActAddsNone(s, found.id, control);
    }
  }

  lemma ActAddsNone(s: State, j: Id, control: Control)
    requires j in s.objects
    ensures Act(s, j, control).objects.Keys == s.objects.Keys
  {
    match control
    case ToPause => assert Act(s, j, control) == Pause(s, j);
    case ToUnpause => assert Act(s, j, control) == Unpause(s, j);
    case ToRemove => RemoveAddsNone(s, j);
    case ToMove(pos, how) => assert Act(s, j, control) == ChangePosition(s, j, pos, how);
    case ToChangeUri(changed) => assert Act(s, j, control) == ChangeUri(s, j, changed);
    case ToChangeOption(change) => ChangeAddsNone(s, j, change);
    case ToRemoveResult => assert Act(s, j, control) == RemoveResult(s, j);
  }

  lemma RemoveAddsNone(s: State, j: Id)
    requires j in s.objects
    ensures Remove(s, j).objects.Keys == s.objects.Keys
  {
  }

  lemma ChangeAddsNone(s: State, j: Id, c: OptionChange)
    requires j in s.objects
    ensures ChangeOption(s, j, c).objects.Keys == s.objects.Keys
  {
  }

  lemma LoopAddsNone(s: State, c: nat)
    requires Inv(s) && s.taken
    ensures ScheduleLoop(s, c).objects.Keys == s.objects.Keys
  {
    var trace := LoopTrace(s, c);
    TraceAddsNone(trace, |trace| - 1);
  }

  lemma {:induction false} TraceAddsNone(trace: seq<State>, k: nat)
    requires Turns(trace) && k < |trace|
    ensures trace[k].objects.Keys == trace[0].objects.Keys
  {
    if k > 0 {
      TraceAddsNone(trace, k - 1);
      assert TurnAt(trace, k - 1);
      TurnAddsNone(trace[k - 1]);
    }
  }

  lemma TurnAddsNone(s: State)
    requires s.waiting != []
    ensures ScheduleTurn(s).objects.Keys == s.objects.Keys
  {
  }

  lemma {:induction false} LoadedFresh(limits: Limits, entries: seq<Entry>, id: Id)
    requires id in Loaded(limits, entries).objects
    ensures Fresh(Loaded(limits, entries).objects[id])
    ensures Loaded(limits, entries).objects[id].target.path == None && Loaded(limits, entries).objects[id].target.held == None
  {
    if entries != [] {
      var before := Loaded(limits, entries[..|entries| - 1]);
      if id in before.objects {
        LoadedFresh(limits, entries[..|entries| - 1], id);
      }
    }
  }

  lemma {:induction false} RunFresh(states: seq<State>, steps: seq<Step>, i: nat, id: Id)
    requires Execution(states, steps) && i < |states| && id in states[i].objects
    requires forall n :: 0 <= n < i ==> !Misses(states[n], steps[n], id)
    ensures Fresh(states[i].objects[id])
  {
    if i == 0 {
      var limits, entries :| states[0] == Loaded(limits, entries);
      LoadedFresh(limits, entries, id);
    } else {
      if id in states[i - 1].objects {
        RunFresh(states, steps, i - 1, id);
      }
      FreshAt(states, steps, i, id);
    }
  }

  lemma FreshAt(states: seq<State>, steps: seq<Step>, i: nat, id: Id)
    requires Execution(states, steps) && 0 < i < |states| && id in states[i].objects
    requires !Misses(states[i - 1], steps[i - 1], id)
    requires id in states[i - 1].objects ==> Fresh(states[i - 1].objects[id])
    ensures Fresh(states[i].objects[id])
  {
    var s, step, t := StepTo(states, steps, i);
    FreshStep(s, step, t, id);
  }

  /** The step that leads to a state, and where it starts. */
  lemma StepTo(states: seq<State>, steps: seq<Step>, i: nat) returns (s: State, step: Step, t: State)
    requires Execution(states, steps) && 0 < i < |states|
    ensures s == states[i - 1] && step == steps[i - 1] && t == states[i]
    ensures Inv(s) && Enabled(s, step) && t == Apply(s, step)
  {
    s, step, t := states[i - 1], steps[i - 1], states[i];
    ExecutionKeeps(states, steps, i - 1);
    assert StepAt(states, steps, i - 1);
  }

  lemma FreshStep(s: State, step: Step, t: State, id: Id)
    requires Inv(s) && Enabled(s, step) && t == Apply(s, step) && id in t.objects && !Misses(s, step, id)
    requires id in s.objects ==> Fresh(s.objects[id])
    ensures Fresh(t.objects[id])
  {
    if id in s.objects {
      StepFresh(s, step, id);
    } else {
      OnlyAddedAreNew(s, step, id);
    }
  }

  /**
   In executions without an unnoticed change of this download, whenever it is
   queued and not running, a path it holds was chosen for the directory and name
   options in force.
   */
  lemma NoStalePath(states: seq<State>, steps: seq<Step>, i: nat, g: Gid)
    requires Execution(states, steps) && i < |states| && g in states[i].waiting && g !in states[i].active
    ensures g in states[i].downloads && states[i].downloads[g] in states[i].objects
    ensures (forall n :: 0 <= n < i ==> !Misses(states[n], steps[n], states[i].downloads[g])) ==>
      var t := states[i].objects[states[i].downloads[g]].target;
      t.path.Some? ==> t.path.value.from == t.options && Names(t.options, PathOf(t.path.value))
  {
    var s := states[i];
    ExecutionKeeps(states, steps, i);
    assert StatusAt(s, g) == Some(Waiting);
    var id := s.downloads[g];
    IdleWhenNotActive(s, id);
    if forall n :: 0 <= n < i ==> !Misses(states[n], steps[n], id) {
      RunFresh(states, steps, i, id);
      assert PathOk(s.objects[id]);
      if s.objects[id].target.path.Some? {
        NamedByOrigin(s.objects[id].target);
      }
    }
  }

  lemma NamedByOrigin(t: Target)
    requires t.path.Some?
    ensures Names(t.path.value.from, PathOf(t.path.value))
  {
    var c := t.path.value;
    assert PathOf(c) == PathOf(Chosen(c.from, c.name, c.renames));
  }

  /**
   Where an unnoticed change leaves the path. When the name alone is set, to the
   one shown, the path stays although the options then lead elsewhere, unless the
   directory option in force is the directory shown.
   */
  lemma ShownNameAlone(d: Download, c: OptionChange)
    requires d.kind == Uri && d.target.path.Some? && c.dir == None
    requires var path := PathOf(d.target.path.value);
             Ordinary(path) && d.target.shown == Place(DirOf(path), BaseOf(path)) && c.out == Some(BaseOf(path))
    requires d.target.options.dir != "" && d.target.options.dir != "."
    ensures NextTarget(d, c).path == d.target.path
    ensures Names(NextTarget(d, c).options, PathOf(d.target.path.value)) <==> d.target.options.dir == d.target.shown.dir
  {
    ShownNameLeadsBack(d.target.options.dir, PathOf(d.target.path.value));
  }
}
