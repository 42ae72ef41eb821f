/** The lifecycle over whole runs: every interleaving of the steps, from any loaded session. */
module LifecycleRuns {
  import opened Collections
  import opened Reservations
  import opened Paths
  import opened Lifecycle
  import opened LifecycleInvariant
  import opened LifecycleSteps
  import opened LifecycleFinish

  /** An entry of the session file the engine starts from. */
  datatype Entry = Entry(gid: Gid, kind: Kind, place: Place, paused: bool)

  /** The engine after loading `entries`, with the first wake-up still to be sent. */
  ghost function Loaded(limits: Limits, entries: seq<Entry>): State
  {
    if entries == [] then Initial(limits)
    else
      var s, e := Loaded(limits, entries[..|entries| - 1]), entries[|entries| - 1];
      Add(s, |entries|, e.gid, e.kind, e.place, e.paused, None).(tails := s.tails)
  }

  ghost predicate Execution(states: seq<State>, steps: seq<Step>)
  {
    && |states| == |steps| + 1
    && (exists limits, entries :: states[0] == Loaded(limits, entries))
    && forall i :: 0 <= i < |steps| ==> StepAt(states, steps, i)
  }

  ghost predicate StepAt(states: seq<State>, steps: seq<Step>, i: nat)
    requires i < |steps| && |states| == |steps| + 1
  {
    Enabled(states[i], steps[i]) && states[i + 1] == Apply(states[i], steps[i])
  }

  lemma {:induction false} LoadedOk(limits: Limits, entries: seq<Entry>)
    ensures Inv(Loaded(limits, entries)) && SignalOnly in Loaded(limits, entries).tails
  {
    if entries != [] {
      var s, e := Loaded(limits, entries[..|entries| - 1]), entries[|entries| - 1];
      LoadedOk(limits, entries[..|entries| - 1]);
      AddKeeps(s, |entries|, e.gid, e.kind, e.place, e.paused, None);
      var t := Add(s, |entries|, e.gid, e.kind, e.place, e.paused, None);
      StoreKeeps(t, t.(tails := s.tails));
    }
  }

  lemma StepKeeps(s: State, step: Step)
    requires Inv(s) && Enabled(s, step)
    ensures Inv(Apply(s, step))
  {
    match step
    case StepAdd(id, gid, kind, place, paused, position) => AddKeeps(s, id, gid, kind, place, paused, position);
    case StepControl(query, control) => ControlKeeps(s, query, control);
    case StepChangeGlobal(limits) => ChangeGlobalKeeps(s, limits);
    case StepPurge => PurgeKeeps(s);
    case StepTake => StoreKeeps(s, Apply(s, step));
    case StepSchedule(cut) => ScheduleKeeps(s, cut);
    case StepFinish(run, outcome) => NeverStale(s, run); FinishKeeps(s, run, outcome);
    case StepReserve(run, keys) => NeverStale(s, run); ReserveKeeps(s, run, keys);
    case StepPublish(run, chosen) => NeverStale(s, run); PublishKeeps(s, run, chosen);
    case StepCancel(ctx) =>
      assert SignalOnly in Apply(s, step).tails;
      StoreKeeps(s, Apply(s, step));
    case StepSignal => StoreKeeps(s, Apply(s, step));
    case StepShutdown => StoreKeeps(s, Apply(s, step));
  }

  lemma ControlKeeps(s: State, query: Gid, control: Control)
    requires Inv(s)
    ensures Inv(Apply(s, StepControl(query, control)))
  {
    var found := Find(s.downloads, query);
    if found.Found? {
      FoundIsRegistered(s, query);
      ActKeeps(s, found.id, control);
    }
  }

  lemma ActKeeps(s: State, id: Id, control: Control)
    requires Inv(s) && id in s.objects && Registered(s, id)
    ensures Inv(Act(s, id, control))
  {
    match control
    case ToPause => PauseKeeps(s, id);
    case ToUnpause => UnpauseKeeps(s, id);
    case ToRemove => RemoveKeeps(s, id);
    case ToMove(pos, how) => MoveKeeps(s, id, pos, how);
    case ToChangeUri(changed) => ChangeUriKeeps(s, id, changed);
    case ToChangeOption(change) => ChangeOptionKeeps(s, id, change);
    case ToRemoveResult => RemoveResultKeeps(s, id);
  }

  lemma FoundIsRegistered(s: State, query: Gid)
    requires IndexOk(s) && Find(s.downloads, query).Found?
    ensures var id := Find(s.downloads, query).id; id in s.objects && Registered(s, id)
  {
    var id := Find(s.downloads, query).id;
    var g :| g in s.downloads && s.downloads[g] == id && query <= g;
  }

  lemma {:induction false} ExecutionKeeps(states: seq<State>, steps: seq<Step>, i: nat)
    requires Execution(states, steps) && i < |states|
    ensures Inv(states[i])
  {
    if i == 0 {
      var limits, entries :| states[0] == Loaded(limits, entries);
      LoadedOk(limits, entries);
    } else {
      ExecutionKeeps(states, steps, i - 1);
      assert StepAt(states, steps, i - 1);
      StepKeeps(states[i - 1], steps[i - 1]);
    }
  }
}
