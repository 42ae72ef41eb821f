/** A concrete execution in which a reservation outlives everybody who could release it. */
module LifecycleLeakExample {
  import opened Collections
  import opened Reservations
  import opened Paths
  import opened Lifecycle
  import opened LifecycleInvariant
  import opened LifecycleRuns
  import opened LifecycleLeak

  ghost function SomeLimits(): Limits
  {
    Limits(5, 1000, true)
  }

  ghost function SomePlace(): Place
  {
    Place("d", "f")
  }

  /** The target once a run was launched. */
  ghost function Started(): Target
  {
    NewTarget(SomePlace()).(since := {SomePlace()})
  }

  ghost function TheDownload(status: Status, ctx: Option<Ctx>, cancel: Option<Ctx>, retain: Option<Ctx>, target: Target): Download
  {
    Download("a", Uri, status, ctx, cancel, retain, None, [], None, target)
  }

  ghost function StateWith(d: Download, waiting: seq<Gid>, active: set<Gid>, stopped: seq<Gid>, runs: set<Run>,
                           owner: map<Key, Gid>, nextCtx: Ctx, wake: bool, taken: bool, tails: multiset<Tail>): State
  {
    State(map[1 := d], map["a" := 1], waiting, active, stopped, Elements(stopped),
          runs, owner, SomeLimits(), nextCtx,
          false, wake, taken, tails, {})
  }

  ghost function AfterLoad(): State
  {
    StateWith(TheDownload(Waiting, None, None, None, NewTarget(SomePlace())), ["a"], {}, [], {}, map[], 0, false, false, multiset{SignalOnly})
  }

  ghost function AfterSignal(): State
  {
    StateWith(TheDownload(Waiting, None, None, None, NewTarget(SomePlace())), ["a"], {}, [], {}, map[], 0, true, false, multiset{})
  }

  ghost function AfterTake(): State
  {
    StateWith(TheDownload(Waiting, None, None, None, NewTarget(SomePlace())), ["a"], {}, [], {}, map[], 0, false, true, multiset{})
  }

  ghost function AfterLaunch(): State
  {
    StateWith(TheDownload(Active, Some(0), Some(0), None, Started()), [], {"a"}, [], {Run(1, 0)}, map[], 1, false, false, multiset{})
  }

  ghost function AfterReserve(): State
  {
    StateWith(TheDownload(Active, Some(0), Some(0), None, Started()), [], {"a"}, [], {Run(1, 0)}, Reserved(), 1, false, false, multiset{})
  }

  ghost function AfterRestart(): State
  {
    StateWith(TheDownload(Waiting, Some(0), None, Some(0), Started()), ["a"], {"a"}, [], {Run(1, 0)}, Reserved(), 1, false, false, multiset{CancelThenSignal(0)})
  }

  ghost function AfterOldRun(): State
  {
    StateWith(TheDownload(Waiting, None, None, None, Started()), ["a"], {}, [], {}, Reserved(), 1, false, false, multiset{CancelThenSignal(0), SignalOnly})
  }

  ghost function AfterRemove(): State
  {
    StateWith(TheDownload(Removed, None, None, None, Started()), [], {}, ["a"], {}, Reserved(), 1, false, false, multiset{CancelThenSignal(0), SignalOnly, SignalOnly})
  }

  ghost function Reserved(): map<Key, Gid>
  {
    map["k" := "a"]
  }

  /** Load one download, start it, let it reserve `k`, restart it, let the old run end, remove the download. */
  ghost function Steps(): seq<Step>
  {
    [StepSignal, StepTake, StepSchedule(None), StepReserve(Run(1, 0), ["k"]),
     StepControl("a", ToChangeUri(true)), StepFinish(Run(1, 0), Canceled), StepControl("a", ToRemove)]
  }

  ghost function States(): seq<State>
  {
    [AfterLoad(), AfterSignal(), AfterTake(), AfterLaunch(), AfterReserve(), AfterRestart(), AfterOldRun(), AfterRemove()]
  }

  ghost predicate Moves(s: State, step: Step, t: State)
  {
    Enabled(s, step) && t == Apply(s, step)
  }

  lemma Begins()
    ensures AfterLoad() == Loaded(SomeLimits(), [Entry("a", Uri, SomePlace(), false)])
  {
    var entries := [Entry("a", Uri, SomePlace(), false)];
    assert entries[..0] == [];
    assert Loaded(SomeLimits(), []) == Initial(SomeLimits());
  }

  lemma Wakes()
    ensures Moves(AfterLoad(), StepSignal, AfterSignal()) && Moves(AfterSignal(), StepTake, AfterTake())
  {
  }

  lemma Launches()
    ensures Moves(AfterTake(), StepSchedule(None), AfterLaunch())
  {
    var s := AfterTake();
    assert ScheduleTurn(s) == Launch(s.(waiting := []), "a");
    assert ScheduleLoop(s, 1) == ScheduleLoop(ScheduleTurn(s), 0);
    assert s.objects[1 := AfterLaunch().objects[1]] == AfterLaunch().objects;
  }

  lemma Reserves()
    ensures Moves(AfterLaunch(), StepReserve(Run(1, 0), ["k"]), AfterReserve())
  {
    assert Update(AfterLaunch().owner, ["k"], "a", false).value == Reserved();
  }

  lemma Restarts()
    ensures Moves(AfterReserve(), StepControl("a", ToChangeUri(true)), AfterRestart())
  {
    assert Find(AfterReserve().downloads, "a") == Found(1);
    assert ChangeUri(AfterReserve(), 1, true).objects == AfterRestart().objects;
    assert AfterReserve().waiting + ["a"] == AfterRestart().waiting;
  }

  lemma EndsRetained()
    ensures Moves(AfterRestart(), StepFinish(Run(1, 0), Canceled), AfterOldRun())
  {
    var s := AfterRestart();
    var d := s.objects[1];
    assert Collapse(s, d, 0) == Some(s.owner) && Retains(d, 0);
    assert Ended(d, 0, Canceled, false) == TheDownload(Waiting, None, None, None, Started());
    assert s.objects[1 := TheDownload(Waiting, None, None, None, Started())] == AfterOldRun().objects;
    assert s.runs - {Run(1, 0)} == {} && s.active - {"a"} == {};
    assert s.tails + multiset{SignalOnly} == AfterOldRun().tails;
  }

  lemma Removes()
    ensures Moves(AfterOldRun(), StepControl("a", ToRemove), AfterRemove())
  {
    var s := AfterOldRun();
    assert Find(s.downloads, "a") == Found(1);
    PrunesNothing(AfterRemove());
    RemoveIs();
  }

  lemma RemoveIs()
    ensures Remove(AfterOldRun(), 1) == Prune(AfterRemove())
  {
    assert Drop(["a"], {"a"}) == [];
    assert AfterOldRun().objects[1 := TheDownload(Removed, None, None, None, Started())] == AfterRemove().objects;
    assert [] + ["a"] == AfterRemove().stopped && AfterOldRun().stoppedSet + {"a"} == AfterRemove().stoppedSet;
    assert AfterOldRun().tails + multiset{SignalOnly} == AfterRemove().tails;
  }

  lemma PrunesNothing(u: State)
    requires u.stopped == ["a"] && u.limits == SomeLimits()
    ensures Prune(u) == u
  {
    var kept := Kept(u.stopped, ProtectedSet(u), Excess(u));
    assert |Drop(u.stopped, ProtectedSet(u))| <= 1;
    assert kept == ["a"] + Kept([], ProtectedSet(u), Excess(u));
    assert (set g | g in u.stopped) - (set g | g in kept) == {};
    assert u.downloads - {} == u.downloads;
  }

  /**
   The last state of a legal execution: no run is live and the download is gone
   from the queue, yet its key is still reserved, so no other download can have it.
   */
  lemma LeakedReservation()
    ensures Execution(States(), Steps())
    ensures var s := States()[7];
            && s.runs == {} && s.waiting == [] && s.owner == map["k" := "a"]
            && !AccountedFor(s, "a") && !Reservable(s.owner, ["k"], "b")
  {
    IsExecution();
    StillReserved();
    assert States()[7] == AfterRemove();
  }

  lemma StillReserved()
    ensures AfterRemove().runs == {} && AfterRemove().waiting == [] && AfterRemove().owner == map["k" := "a"]
    ensures !AccountedFor(AfterRemove(), "a") && !Reservable(AfterRemove().owner, ["k"], "b")
  {
    assert "k" in Owned(AfterRemove().owner, "a") && "k" in ["k"];
    assert StatusAt(AfterRemove(), "a") == Some(Removed);
  }

  lemma Indexed(i: nat)
    requires i < 7 && Moves(States()[i], Steps()[i], States()[i + 1])
    ensures StepAt(States(), Steps(), i)
  {
  }

  lemma IsExecution()
    ensures Execution(States(), Steps())
  {
    Begins();
    forall i | 0 <= i < |Steps()|
      ensures StepAt(States(), Steps(), i)
    {
      if i < 4 {
        FirstSteps(i);
      } else {
        LastSteps(i);
      }
    }
  }

  lemma FirstSteps(i: nat)
    requires i < 4
    ensures StepAt(States(), Steps(), i)
  {
    if i < 2 {
      Wakes();
    } else if i == 2 {
      Launches();
    } else {
      Reserves();
    }
    Indexed(i);
  }

  lemma LastSteps(i: nat)
    requires 4 <= i < 7
    ensures StepAt(States(), Steps(), i)
  {
    if i == 4 {
      Restarts();
    } else if i == 5 {
      EndsRetained();
    } else {
      Removes();
    }
    Indexed(i);
  }
}
