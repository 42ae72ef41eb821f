/**
 Executions in which a queued download holds an output path that its options no
 longer lead to: whenever the name shown is not the name option, and someone sets
 the option to what is shown.
 */
module LifecycleStaleExample {
  import opened Collections
  import opened Reservations
  import opened Paths
  import opened Lifecycle
  import opened LifecycleRuns
  import opened LifecyclePaths

  // ----- the states -----

  ghost function SomeLimits(): Limits
  {
    Limits(5, 1000, true)
  }

  ghost function TheDownload(status: Status, ctx: Option<Ctx>, cancel: Option<Ctx>, target: Target): Download
  {
    Download("a", Uri, status, ctx, cancel, None, None, [], None, target)
  }

  ghost function StateWith(d: Download, waiting: seq<Gid>, active: set<Gid>, runs: set<Run>, nextCtx: Ctx,
                           wake: bool, taken: bool, tails: multiset<Tail>): State
  {
    State(map[1 := d], map["a" := 1], waiting, active, [], {}, runs, map[], SomeLimits(), nextCtx, false, wake, taken, tails, {})
  }

  ghost function Started(c: Chosen): Target
  {
    NewTarget(c.from).(since := {c.from})
  }

  ghost function Published(c: Chosen): Target
  {
    Publish(Started(c), c)
  }

  /** The old directory with the name shown. */
  ghost function NewPlace(c: Chosen): Place
  {
    Place(c.from.dir, BaseOf(PathOf(c)))
  }

  /** The name option is the name shown; the path is still the old one. */
  ghost function Overlooked(c: Chosen): Target
  {
    Target(NewPlace(c), NewPlace(c), Some(c), None, {c.from} + {NewPlace(c)})
  }

  ghost function AfterLoad(c: Chosen): State
  {
    StateWith(TheDownload(Waiting, None, None, NewTarget(c.from)), ["a"], {}, {}, 0, false, false, multiset{SignalOnly})
  }

  ghost function AfterSignal(c: Chosen): State
  {
    StateWith(TheDownload(Waiting, None, None, NewTarget(c.from)), ["a"], {}, {}, 0, true, false, multiset{})
  }

  ghost function AfterTake(c: Chosen): State
  {
    StateWith(TheDownload(Waiting, None, None, NewTarget(c.from)), ["a"], {}, {}, 0, false, true, multiset{})
  }

  ghost function RunningWith(t: Target): State
  {
    StateWith(TheDownload(Active, Some(0), Some(0), t), [], {"a"}, {Run(1, 0)}, 1, false, false, multiset{})
  }

  ghost function PausedWith(t: Target): State
  {
    StateWith(TheDownload(Paused, Some(0), None, t), [], {"a"}, {Run(1, 0)}, 1, false, false, multiset{CancelThenSignal(0)})
  }

  ghost function EndedWith(t: Target): State
  {
    StateWith(TheDownload(Paused, None, None, t), [], {}, {}, 1, false, false, multiset{CancelThenSignal(0), SignalOnly})
  }

  ghost function ResumedWith(t: Target): State
  {
    StateWith(TheDownload(Waiting, None, None, t), ["a"], {}, {}, 1, false, false,
              multiset{CancelThenSignal(0), SignalOnly, SignalOnly})
  }

  ghost function TheChange(c: Chosen): OptionChange
  {
    OptionChange(None, Some(BaseOf(PathOf(c))), false, false, None)
  }

  // ----- the steps -----

  ghost predicate Moves(s: State, step: Step, t: State)
  {
    Enabled(s, step) && t == Apply(s, step)
  }

  lemma Loads(c: Chosen)
    ensures AfterLoad(c) == Loaded(SomeLimits(), [Entry("a", Uri, c.from, false)])
  {
    var entries := [Entry("a", Uri, c.from, false)];
    assert entries[..0] == [];
    assert Loaded(SomeLimits(), []) == Initial(SomeLimits());
  }

  lemma Wakes(c: Chosen)
    ensures Moves(AfterLoad(c), StepSignal, AfterSignal(c)) && Moves(AfterSignal(c), StepTake, AfterTake(c))
  {
  }

  lemma Launches(c: Chosen)
    ensures Moves(AfterTake(c), StepSchedule(None), RunningWith(Started(c)))
  {
    var s, u := AfterTake(c), RunningWith(Started(c));
    assert ScheduleTurn(s) == Launch(s.(waiting := []), "a");
    assert ScheduleLoop(s, 1) == ScheduleLoop(ScheduleTurn(s), 0);
    assert s.objects[1 := u.objects[1]] == u.objects;
  }

  lemma Publishes(t: Target, c: Chosen, u: Target)
    requires c.from in t.since && u == Publish(t, c)
    ensures Moves(RunningWith(t), StepPublish(Run(1, 0), c), RunningWith(u))
  {
    PublishIs(RunningWith(t), Run(1, 0), c, u);
    Retargeted(t, u);
  }

  lemma PublishIs(s: State, r: Run, c: Chosen, u: Target)
    requires r in s.runs && r.id in s.objects && Publishable(s.objects[r.id], c) && u == Publish(s.objects[r.id].target, c)
    ensures Moves(s, StepPublish(r, c), s.(objects := s.objects[r.id := s.objects[r.id].(target := u)]))
  {
  }

  lemma Retargeted(t: Target, u: Target)
    ensures var s := RunningWith(t);
            s.(objects := s.objects[1 := s.objects[1].(target := u)]) == RunningWith(u)
  {
    var s, v := RunningWith(t), RunningWith(u);
    assert s.objects[1 := v.objects[1]] == v.objects;
  }

  lemma Pauses(t: Target)
    ensures Moves(RunningWith(t), StepControl("a", ToPause), PausedWith(t))
  {
    var s, u := RunningWith(t), PausedWith(t);
    assert Find(s.downloads, "a") == Found(1);
    assert Drop([], {"a"}) == [];
    assert s.objects[1 := u.objects[1]] == u.objects;
  }

  lemma RunEnds(t: Target)
    ensures Moves(PausedWith(t), StepFinish(Run(1, 0), Canceled), EndedWith(t))
  {
    var s, u := PausedWith(t), EndedWith(t);
    var d := s.objects[1];
    assert Collapse(s, d, 0) == Some(s.owner) && Release(s.owner, "a") == map[];
    assert Ended(d, 0, Canceled, false) == u.objects[1];
    assert s.objects[1 := u.objects[1]] == u.objects;
    assert s.runs - {Run(1, 0)} == {} && s.active - {"a"} == {};
    assert s.tails + multiset{SignalOnly} == u.tails;
  }

  lemma Overlooks(c: Chosen)
    ensures !PathChanged(EndedWith(Published(c)).objects[1], TheChange(c))
    ensures NextTarget(EndedWith(Published(c)).objects[1], TheChange(c)) == Overlooked(c)
  {
    assert Published(c).since == {c.from};
  }

  lemma Changes(t: Target, change: OptionChange, u: Target)
    requires !PathChanged(EndedWith(t).objects[1], change) && NextTarget(EndedWith(t).objects[1], change) == u
    ensures Moves(EndedWith(t), StepControl("a", ToChangeOption(change)), EndedWith(u))
  {
    var s, v := EndedWith(t), EndedWith(u);
    assert Find(s.downloads, "a") == Found(1);
    assert Changed(s, 1, change) == v.objects[1];
    assert s.objects[1 := v.objects[1]] == v.objects;
  }

  lemma Resumes(t: Target)
    ensures Moves(EndedWith(t), StepControl("a", ToUnpause), ResumedWith(t))
  {
    var s, u := EndedWith(t), ResumedWith(t);
    assert Find(s.downloads, "a") == Found(1);
    assert s.objects[1 := u.objects[1]] == u.objects;
    assert s.tails + multiset{SignalOnly} == u.tails;
  }

  // ----- the executions -----

  lemma Extend(states: seq<State>, steps: seq<Step>, step: Step, t: State)
    requires Execution(states, steps) && Moves(states[|steps|], step, t)
    ensures Execution(states + [t], steps + [step])
  {
    assert (states + [t])[0] == states[0];
    forall i | 0 <= i < |steps + [step]|
      ensures StepAt(states + [t], steps + [step], i)
    {
      if i < |steps| {
        assert StepAt(states, steps, i);
      }
    }
  }

  /** Load the download, start it and let it publish its path. */
  lemma Starts(c: Chosen) returns (states: seq<State>, steps: seq<Step>)
    ensures Execution(states, steps) && states[|steps|] == RunningWith(Published(c))
  {
    states, steps := [AfterLoad(c)], [];
    Loads(c);
    Wakes(c);
    Launches(c);
    Publishes(Started(c), c, Published(c));
    Extend(states, steps, StepSignal, AfterSignal(c));
    states, steps := states + [AfterSignal(c)], steps + [StepSignal];
    Extend(states, steps, StepTake, AfterTake(c));
    states, steps := states + [AfterTake(c)], steps + [StepTake];
    Extend(states, steps, StepSchedule(None), RunningWith(Started(c)));
    states, steps := states + [RunningWith(Started(c))], steps + [StepSchedule(None)];
    Extend(states, steps, StepPublish(Run(1, 0), c), RunningWith(Published(c)));
    states, steps := states + [RunningWith(Published(c))], steps + [StepPublish(Run(1, 0), c)];
  }

  /** Pause it, let the run end, make a change that is not noticed, and resume. */
  lemma PausesAndResumes(states0: seq<State>, steps0: seq<Step>, t: Target, change: OptionChange, u: Target)
    returns (states: seq<State>, steps: seq<Step>)
    requires Execution(states0, steps0) && states0[|steps0|] == RunningWith(t)
    requires !PathChanged(EndedWith(t).objects[1], change) && NextTarget(EndedWith(t).objects[1], change) == u
    ensures Execution(states, steps) && states[|steps|] == ResumedWith(u)
    ensures steps == steps0 + [StepControl("a", ToPause)] + [StepFinish(Run(1, 0), Canceled)]
                     + [StepControl("a", ToChangeOption(change))] + [StepControl("a", ToUnpause)]
  {
    Pauses(t);
    RunEnds(t);
    Changes(t, change, u);
    Resumes(u);
    Extend(states0, steps0, StepControl("a", ToPause), PausedWith(t));
    states, steps := states0 + [PausedWith(t)], steps0 + [StepControl("a", ToPause)];
    Extend(states, steps, StepFinish(Run(1, 0), Canceled), EndedWith(t));
    states, steps := states + [EndedWith(t)], steps + [StepFinish(Run(1, 0), Canceled)];
    Extend(states, steps, StepControl("a", ToChangeOption(change)), EndedWith(u));
    states, steps := states + [EndedWith(u)], steps + [StepControl("a", ToChangeOption(change))];
    Extend(states, steps, StepControl("a", ToUnpause), ResumedWith(u));
    states, steps := states + [ResumedWith(u)], steps + [StepControl("a", ToUnpause)];
  }

  /** The download with this number is queued, does not run, and holds this path under these options. */
  ghost predicate QueuedWith(s: State, id: Id, c: Chosen, options: Place)
  {
    && id in s.objects && s.objects[id].gid in s.waiting && s.objects[id].gid !in s.active
    && s.objects[id].target.path == Some(c) && s.objects[id].target.options == options
  }

  /**
   For every path whose last element is not the name option it was chosen for: a
   legal execution ends with the download queued and not running, the name option
   set to that element, and the path still the old one.
   */
  lemma UnnoticedChange(c: Chosen) returns (states: seq<State>, steps: seq<Step>)
    requires BaseOf(PathOf(c)) != c.from.out
    ensures Execution(states, steps)
    ensures QueuedWith(states[|steps|], 1, c, Place(c.from.dir, BaseOf(PathOf(c)))) && HoldsStalePath(states[|steps|].objects[1])
  {
    states, steps := Starts(c);
    Overlooks(c);
    states, steps := PausesAndResumes(states, steps, Published(c), TheChange(c), Overlooked(c));
    assert ResumedWith(Overlooked(c)).objects[1].target == Overlooked(c);
  }

  lemma AbsolutePath(dir: string, y: string, z: string, c: Chosen)
    requires IsSimple(y) && IsSimple(z) && c == Chosen(Place(dir, ['/'] + (y + ['/'] + z)), "", [])
    ensures PathOf(c) == c.from.out && DirOf(PathOf(c)) == ['/'] + y && BaseOf(PathOf(c)) == z != c.from.out
    ensures Ordinary(PathOf(c))
  {
    AbsoluteName(dir, y, z, "");
    NotRenamed(c.from, "");
    SamePlainPath(y, z);
  }

  lemma SamePlainPath(y: string, z: string)
    ensures ['/'] + (y + ['/'] + z) == ['/'] + y + "/" + z && ['/'] + (y + ['/'] + z) != z
  {
    assert |['/'] + (y + ['/'] + z)| == |y| + |z| + 2;
  }

  /**
   With an absolute name option, such as the directory /a and the name /b/f: the
   path is /b/f and the name f is shown; once the name is set to f the options
   lead to /a/f and its renamings only, while the queued download still holds /b/f
   for its next run.
   */
  lemma StalePath(dir: string, y: string, z: string, c: Chosen) returns (states: seq<State>, steps: seq<Step>)
    requires IsSimple(y) && IsSimple(z) && dir != "" && dir != "." && dir != ['/'] + y
    requires c == Chosen(Place(dir, ['/'] + (y + ['/'] + z)), "", [])
    ensures Execution(states, steps) && QueuedWith(states[|steps|], 1, c, Place(dir, z))
    ensures PathOf(c) == ['/'] + (y + ['/'] + z) && !Names(Place(dir, z), PathOf(c))
  {
    AbsolutePath(dir, y, z, c);
    states, steps := UnnoticedChange(c);
    ShownNameLeadsBack(dir, PathOf(c));
  }

  lemma StalePathAtInput(c: Chosen) returns (states: seq<State>, steps: seq<Step>)
    requires c == Chosen(Place("/a", ['/'] + ("b" + ['/'] + "f")), "", [])
    ensures Execution(states, steps) && QueuedWith(states[|steps|], 1, c, Place("/a", "f"))
    ensures !Names(Place("/a", "f"), PathOf(c))
  {
    assert (['/'] + "b")[1] == 'b' && "/a"[1] == 'a';
    states, steps := StalePath("/a", "b", "f", c);
  }
}
