/** What a user of the engine may rely on, in every execution. */
module LifecycleTheorems {
  import opened Collections
  import opened Reservations
  import opened Lifecycle
  import opened LifecycleInvariant
  import opened LifecycleSteps
  import opened LifecycleFinish
  import opened LifecycleRuns

  /**
   In every interleaving, also when a result is pruned and its gid added again
   while the old run exits: `active` is exactly the set of gids of the live runs,
   no two live runs share a gid, and each one's context is its own download's.
   */
  lemma LiveRuns(states: seq<State>, steps: seq<Step>, i: nat)
    requires Execution(states, steps) && i < |states|
    ensures var s := states[i];
            && (forall r :: r in s.runs ==> r.id in s.objects && s.objects[r.id].ctx == Some(r.ctx))
            && s.active == (set r | r in s.runs && r.id in s.objects :: s.objects[r.id].gid)
            && forall q, r :: q in s.runs && r in s.runs && s.objects[q.id].gid == s.objects[r.id].gid ==> q == r
  {
    ExecutionKeeps(states, steps, i);
    var s := states[i];
    assert EveryRunOk(s) && RunsApart(s);
    forall g | g in s.active
      ensures g in set r | r in s.runs && r.id in s.objects :: s.objects[r.id].gid
    {
      assert HasRun(s, g);
    }
  }

  /**
   The reachable-state partition: the queue holds each waiting download once (all
   of them before shutdown), an active download has a live run and is not queued,
   and the stopped list, its set and the terminal downloads coincide.
   */
  lemma Partition(states: seq<State>, steps: seq<Step>, i: nat, g: Gid)
    requires Execution(states, steps) && i < |states|
    ensures var s := states[i];
            && NoDuplicates(s.waiting) && NoDuplicates(s.stopped)
            && (g in s.waiting ==> StatusAt(s, g) == Some(Waiting))
            && (!s.shutdown && StatusAt(s, g) == Some(Waiting) ==> g in s.waiting)
            && (StatusAt(s, g) == Some(Active) ==> g in s.active && g !in s.waiting)
            && (g in s.stopped <==> Stopped(StatusAt(s, g)))
            && (g in s.stopped <==> g in s.stoppedSet)
  {
    ExecutionKeeps(states, steps, i);
    var s := states[i];
    if StatusAt(s, g) == Some(Active) {
      var id := s.downloads[g];
      assert StatusOk(s, id);
      assert RunOk(s, Run(id, s.objects[id].ctx.value));
    }
  }

  /** A live run whose download is no longer active has been told to stop, or its canceller has yet to do so. */
  lemma SupersededRunsStop(states: seq<State>, steps: seq<Step>, i: nat, r: Run)
    requires Execution(states, steps) && i < |states| && r in states[i].runs
    ensures var s := states[i];
            r.id in s.objects &&
            (s.objects[r.id].status != Active ==> r.ctx in s.canceled || CancelThenSignal(r.ctx) in s.tails)
  {
    ExecutionKeeps(states, steps, i);
    assert RunOk(states[i], r);
  }

  // ----- wake-ups -----

  /**
   No lost wake-up: before shutdown, if a slot is free and some queued gid is not
   running, the token is there, the scheduler has just taken it, or somebody who
   left a critical section has yet to send it.
   */
  lemma NoLostWakeUp(states: seq<State>, steps: seq<Step>, i: nat, g: Gid)
    requires Execution(states, steps) && i < |states| && !states[i].shutdown
    requires |states[i].active| < states[i].limits.maxActive && g in states[i].waiting && g !in states[i].active
    ensures states[i].wake || states[i].taken || |states[i].tails| > 0
  {
    ExecutionKeeps(states, steps, i);
  }

  ghost function ApplyAll(s: State, steps: seq<Step>): State
    decreases |steps|
  {
    if steps == [] then s else ApplyAll(Apply(s, steps[0]), steps[1..])
  }

  ghost predicate AllEnabled(s: State, steps: seq<Step>)
    decreases |steps|
  {
    steps == [] || (Enabled(s, steps[0]) && AllEnabled(Apply(s, steps[0]), steps[1..]))
  }

  lemma Prepend(s: State, step: Step, u: State, rest: seq<Step>)
    requires Enabled(s, step) && u == Apply(s, step) && AllEnabled(u, rest)
    ensures AllEnabled(s, [step] + rest) && ApplyAll(s, [step] + rest) == ApplyAll(u, rest)
  {
    assert ([step] + rest)[1..] == rest;
  }

  /** The engine's own steps: sending what is pending, taking the token, one whole pass. */
  ghost predicate OwnStep(step: Step)
  {
    step.StepCancel? || step == StepSignal || step == StepTake || step == StepSchedule(None)
  }

  /** `path` can be taken from `s` and ends with exactly the first startable gids running. */
  ghost predicate Starts(s: State, path: seq<Step>)
  {
    && AllEnabled(s, path) && StartsExactly(s, ApplyAll(s, path))
    && forall i :: 0 <= i < |path| ==> OwnStep(path[i])
  }

  /**
   The wake-up is worth something: at most four steps of the engine itself (a
   pending cancellation, a pending signal, taking the token, one pass) lead from
   any such state to one where exactly the first startable gids run.
   */
  lemma WakeUpStarts(s: State) returns (path: seq<Step>)
    requires Inv(s) && !s.shutdown && Startable(s)
    ensures |path| <= 4 && Starts(s, path) && StartCount(s) > 0
  {
    StartableCounts(s);
    if s.taken {
      path := PassFrom(s);
    } else if s.wake {
      path := TakeFrom(s);
    } else if SignalOnly in s.tails {
      path := SignalFrom(s);
    } else {
      path := CancelFrom(s);
    }
  }

  lemma StartableCounts(s: State)
    requires Startable(s)
    ensures StartCount(s) > 0
  {
    var g :| g in s.waiting && g !in s.active;
    assert g in Idle(s);
  }

  lemma PassFrom(s: State) returns (path: seq<Step>)
    requires Inv(s) && !s.shutdown && s.taken
    ensures |path| == 1 && Starts(s, path)
  {
    var u := Schedule(s, None);
    PassExact(s);
    path := [StepSchedule(None)];
    Prepend(s, StepSchedule(None), u, []);
    assert [StepSchedule(None)] + [] == path;
  }

  lemma PassExact(s: State)
    requires Inv(s) && !s.shutdown && s.taken
    ensures StartsExactly(s, Schedule(s, None))
  {
    assert Ready(s, |s.waiting|);
    LoopExact(s, |s.waiting|);
    var t := ScheduleLoop(s, |s.waiting|);
    assert BoardOf(Schedule(s, None)) == BoardOf(t);
  }

  /** A step that moves only the flags of the wake-up protocol, followed by a starting path. */
  lemma FlagThen(s: State, step: Step, u: State, rest: seq<Step>)
    requires Enabled(s, step) && OwnStep(step) && u == Apply(s, step) && Starts(u, rest)
    requires u == s.(wake := u.wake, taken := u.taken, tails := u.tails, canceled := u.canceled)
    ensures Starts(s, [step] + rest)
  {
    Prepend(s, step, u, rest);
    assert BoardOf(u) == BoardOf(s);
    SameBoardStarts(s, u, ApplyAll(u, rest));
    OwnPath(step, rest);
  }

  lemma OwnPath(step: Step, rest: seq<Step>)
    requires OwnStep(step) && forall i :: 0 <= i < |rest| ==> OwnStep(rest[i])
    ensures forall i :: 0 <= i < |[step] + rest| ==> OwnStep(([step] + rest)[i])
  {
  }

  lemma TakeFrom(s: State) returns (path: seq<Step>)
    requires Inv(s) && !s.shutdown && s.wake && !s.taken
    ensures |path| == 2 && Starts(s, path)
  {
    var u := s.(wake := false, taken := true);
    StepKeeps(s, StepTake);
    var rest := PassFrom(u);
    path := [StepTake] + rest;
    FlagThen(s, StepTake, u, rest);
  }

  lemma SignalFrom(s: State) returns (path: seq<Step>)
    requires Inv(s) && !s.shutdown && !s.taken && SignalOnly in s.tails
    ensures |path| == 3 && Starts(s, path)
  {
    var u := s.(wake := true, tails := s.tails - multiset{SignalOnly});
    StepKeeps(s, StepSignal);
    var rest := TakeFrom(u);
    path := [StepSignal] + rest;
    FlagThen(s, StepSignal, u, rest);
  }

  lemma CancelFrom(s: State) returns (path: seq<Step>)
    requires Inv(s) && !s.shutdown && !s.taken && SignalOnly !in s.tails && |s.tails| > 0
    ensures |path| == 4 && Starts(s, path)
  {
    var tail :| tail in s.tails;
    var u := s.(canceled := s.canceled + {tail.ctx},
                tails := s.tails - multiset{CancelThenSignal(tail.ctx)} + multiset{SignalOnly});
    StepKeeps(s, StepCancel(tail.ctx));
    assert SignalOnly in u.tails;
    var rest := SignalFrom(u);
    path := [StepCancel(tail.ctx)] + rest;
    FlagThen(s, StepCancel(tail.ctx), u, rest);
  }

  // ----- reservations -----

  /** The run of `g` ends in this step. */
  ghost predicate EndsRunOf(s: State, step: Step, g: Gid)
  {
    step.StepFinish? && step.run.id in s.objects && s.objects[step.run.id].gid == g
  }

  /** Only the end of its own run takes a key away from a gid. */
  lemma StepKeepsKeys(s: State, step: Step, g: Gid)
    requires Inv(s) && Enabled(s, step) && !EndsRunOf(s, step, g)
    ensures Owned(s.owner, g) <= Owned(Apply(s, step).owner, g)
  {
    match step
    case StepFinish(run, outcome) => FinishKeepsKeys(s, run, outcome, g);
    case StepReserve(run, keys) =>
      NeverStale(s, run);
      ReserveMovesNothing(s, run, keys);
    case StepControl(query, control) => ControlKeepsKeys(s, query, control);
    case StepSchedule(cut) => ScheduleKeepsOwner(s, cut);
    case _ =>
  }

  lemma FinishKeepsKeys(s: State, r: Run, outcome: RunOutcome, g: Gid)
    requires Inv(s) && r in s.runs && r.id in s.objects && s.objects[r.id].gid != g
    ensures Owned(Finish(s, r, outcome).owner, g) == Owned(s.owner, g)
  {
    NeverStale(s, r);
    FinishOwner(s, r, outcome);
    OthersKeepKeys(s, r, g);
  }

  lemma FinishOwner(s: State, r: Run, outcome: RunOutcome)
    requires r.id in s.objects && s.objects[r.id].ctx == Some(r.ctx)
    ensures Finish(s, r, outcome).owner == OwnerAfterRun(s, r)
  {
    FinishIs(s, r, outcome);
  }

  lemma ControlKeepsKeys(s: State, query: Gid, control: Control)
    requires Inv(s)
    ensures OwnersKept(s, Apply(s, StepControl(query, control)))
  {
    var found := Find(s.downloads, query);
    if found.Found? {
      FoundIsRegistered(s, query);
      assert HandOverOk(s, s.objects[found.id]) && PathOk(s.objects[found.id]);
      ActKeepsKeys(s, found.id, control);
    }
  }

  lemma ActKeepsKeys(s: State, id: Id, control: Control)
    requires id in s.objects && HandOverOk(s, s.objects[id]) && PathOk(s.objects[id])
    ensures OwnersKept(s, Act(s, id, control))
  {
    if control.ToChangeOption? {
      if OptionChangeAccepted(s, id, control.change) {
        ChangedOk(s, id, control.change, s.(owner := OwnerAfterChange(s, id, control.change)));
        assert ChangeOption(s, id, control.change).owner == OwnerAfterChange(s, id, control.change);
      }
    } else {
      OtherControls(s, id, control);
    }
  }

  lemma OtherControls(s: State, id: Id, control: Control)
    requires id in s.objects && !control.ToChangeOption?
    ensures Act(s, id, control).owner == s.owner
  {
    match control
    case ToPause => assert Act(s, id, control) == Pause(s, id);
    case ToUnpause => assert Act(s, id, control) == Unpause(s, id);
    case ToRemove => RemoveKeepsOwner(s, id);
    case ToMove(pos, how) => assert Act(s, id, control) == ChangePosition(s, id, pos, how);
    case ToChangeUri(changed) => assert Act(s, id, control) == ChangeUri(s, id, changed);
    case ToRemoveResult => assert Act(s, id, control) == RemoveResult(s, id);
  }

  lemma RemoveKeepsOwner(s: State, id: Id)
    requires id in s.objects
    ensures Remove(s, id).owner == s.owner
  {
  }

  lemma ScheduleKeepsOwner(s: State, cut: Option<nat>)
    ensures Schedule(s, cut).owner == s.owner
  {
    LoopFrame(s, if s.shutdown then 0
                 else if cut.Some? && cut.value < |s.waiting| then cut.value else |s.waiting|);
  }

  /**
   A key a gid owns stays its own until a run of that gid ends: across pause,
   resume, restart, removal, pruning, reuse of the gid and whatever other
   downloads try to reserve meanwhile.
   */
  lemma {:induction false} KeysStay(states: seq<State>, steps: seq<Step>, i: nat, j: nat, g: Gid)
    requires Execution(states, steps) && i <= j < |states|
    requires forall n :: i <= n < j ==> !EndsRunOf(states[n], steps[n], g)
    ensures Owned(states[i].owner, g) <= Owned(states[j].owner, g)
    decreases j
  {
    if i < j {
      KeysStay(states, steps, i, j - 1, g);
      KeysStayOnce(states, steps, j - 1, g);
    }
  }

  lemma KeysStayOnce(states: seq<State>, steps: seq<Step>, n: nat, g: Gid)
    requires Execution(states, steps) && n < |steps| && !EndsRunOf(states[n], steps[n], g)
    ensures Owned(states[n].owner, g) <= Owned(states[n + 1].owner, g)
  {
    ExecutionKeeps(states, steps, n);
    assert StepAt(states, steps, n);
    StepKeepsKeys(states[n], steps[n], g);
  }

  /** Two live runs never hold the same output key. */
  lemma LiveRunsHoldDifferentKeys(states: seq<State>, steps: seq<Step>, i: nat, q: Run, r: Run)
    requires Execution(states, steps) && i < |states| && q in states[i].runs && r in states[i].runs && q != r
    ensures var s := states[i];
            && q.id in s.objects && r.id in s.objects
            && Owned(s.owner, s.objects[q.id].gid) !! Owned(s.owner, s.objects[r.id].gid)
  {
    ExecutionKeeps(states, steps, i);
    DifferentGid(states[i], q, r);
  }

  /** A run gets the keys it asks for, all of them if they are distinct and free of other gids, and otherwise nothing changes. */
  lemma RunReservation(s: State, r: Run, keys: seq<Key>)
    requires r.id in s.objects
    ensures var gid, t := s.objects[r.id].gid, RunReserves(s, r, keys);
            var granted := NoDuplicates(keys) && forall k :: k in keys && k in s.owner ==> s.owner[k] == gid;
            && (granted ==> Owned(t.owner, gid) == Owned(s.owner, gid) + Elements(keys))
            && (granted ==> forall g :: g != gid ==> Owned(t.owner, g) == Owned(s.owner, g))
            && (!granted ==> t == s)
  {
  }

  /**
   What the end of a run leaves reserved for its gid: the replacement set of a
   pending torrent transition, the unchanged set of any other retained restart,
   and nothing otherwise. The collapse to the replacement set is never refused.
   */
  lemma RunEndReservations(states: seq<State>, steps: seq<Step>, i: nat, r: Run, outcome: RunOutcome)
    requires Execution(states, steps) && i < |steps| && steps[i] == StepFinish(r, outcome)
    ensures r.id in states[i].objects
    ensures var s := states[i];
            var d := s.objects[r.id];
            && Collapse(s, d, r.ctx).Some?
            && Owned(states[i + 1].owner, d.gid) ==
               if d.status != Waiting || d.retainAfterRun != Some(r.ctx) then {}
               else if d.transitionAfterRun == Some(r.ctx) then Elements(d.transitionKeys)
               else Owned(s.owner, d.gid)
  {
    ExecutionKeeps(states, steps, i);
    assert StepAt(states, steps, i);
    NeverStale(states[i], r);
    FinishReservations(states[i], r, outcome);
  }

  lemma FinishReservations(s: State, r: Run, outcome: RunOutcome)
    requires Inv(s) && r in s.runs && r.id in s.objects
    ensures var d := s.objects[r.id];
            && Collapse(s, d, r.ctx).Some?
            && Owned(Finish(s, r, outcome).owner, d.gid) ==
               if d.status != Waiting || d.retainAfterRun != Some(r.ctx) then {}
               else if d.transitionAfterRun == Some(r.ctx) then Elements(d.transitionKeys)
               else Owned(s.owner, d.gid)
  {
    NeverStale(s, r);
    CollapseSucceeds(s, r);
    FinishOwner(s, r, outcome);
  }

  /**
   Pruning keeps every protected result, drops the oldest unprotected ones and no
   more than needed, and keeps the order of what stays.
   */
  lemma PruneExact(s: State)
    ensures var protected := ProtectedSet(s);
            var kept := Prune(s).stopped;
            var unprotected := Drop(s.stopped, protected);
            var limit := if s.limits.maxResult < 0 then 0 else s.limits.maxResult;
            && Drop(kept, Elements(unprotected)) == Drop(s.stopped, Elements(unprotected))
            && |Drop(kept, protected)| == (if |unprotected| < limit then |unprotected| else limit)
            && Drop(kept, protected) == unprotected[|unprotected| - |Drop(kept, protected)|..]
  {
    var protected := ProtectedSet(s);
    KeptExact(s.stopped, protected, Elements(Drop(s.stopped, protected)), Excess(s));
  }

  lemma {:induction false} KeptExact(stopped: seq<Gid>, protected: set<Gid>, unprotected: set<Gid>, excess: int)
    requires excess <= |Drop(stopped, protected)| && forall g :: g in stopped ==> (g in unprotected <==> g !in protected)
    ensures Drop(Kept(stopped, protected, excess), unprotected) == Drop(stopped, unprotected)
    ensures Drop(Kept(stopped, protected, excess), protected)
         == Drop(stopped, protected)[if excess < 0 then 0 else excess..]
  {
    if stopped != [] {
      assert stopped[0] in stopped;
      KeptExact(stopped[1..], protected, unprotected, if excess > 0 && stopped[0] !in protected then excess - 1 else excess);
    }
  }
}
