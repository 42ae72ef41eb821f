/**
 Who answers for a reserved key. A key is accounted for while a run of its gid is
 live or the gid's download can still be started. Removing a download between the
 end of a restarted run and the launch of its replacement breaks this, because
 removal releases nothing; nothing else does.
 */
module LifecycleLeak {
  import opened Collections
  import opened Reservations
  import opened Paths
  import opened Lifecycle
  import opened LifecycleInvariant
  import opened LifecycleSteps
  import opened LifecycleFinish
  import opened LifecycleRuns

  ghost predicate Accountable(s: State, g: Gid)
  {
    g in s.active || StatusAt(s, g) == Some(Waiting) || StatusAt(s, g) == Some(Paused)
  }

  ghost predicate AccountedFor(s: State, g: Gid)
  {
    Owned(s.owner, g) == {} || Accountable(s, g)
  }

  /** The one step that leaks: removing a download that has no live run but still owns keys. */
  ghost predicate Leaks(s: State, step: Step, g: Gid)
  {
    && step.StepControl? && step.control.ToRemove?
    && Find(s.downloads, step.query).Found?
    && Find(s.downloads, step.query).id in s.objects
    && (var d := s.objects[Find(s.downloads, step.query).id];
        d.gid == g && !Terminal(d.status) && g !in s.active && Owned(s.owner, g) != {})
  }

  /** In every reachable state a step leaves the keys of `g` accounted for iff it is not that removal. */
  lemma StepAccounts(s: State, step: Step, g: Gid)
    requires Inv(s) && Enabled(s, step) && AccountedFor(s, g)
    ensures AccountedFor(Apply(s, step), g) <==> !Leaks(s, step, g)
  {
    match step
    case StepAdd(id, gid, kind, place, paused, position) => AddAccounts(s, id, gid, kind, place, paused, position, g);
    case StepControl(query, control) =>
      var found := Find(s.downloads, query);
      if found.Found? {
        FoundIsRegistered(s, query);
        ActAccounts(s, found.id, control, g);
      }
    case StepChangeGlobal(limits) =>
      var t := s.(limits := limits, tails := s.tails + multiset{SignalOnly});
      ChangeGlobalStoppedOk(s, t);
      PruneAccounts(t, g);
    case StepPurge => PurgeAccounts(s, g);
    case StepSchedule(cut) => ScheduleAccounts(s, cut, g);
    case StepFinish(run, outcome) => NeverStale(s, run); FinishAccounts(s, run, outcome, g);
    case StepReserve(run, keys) => NeverStale(s, run); ReserveAccounts(s, run, keys, g);
    case StepPublish(run, chosen) => NeverStale(s, run); PublishAccounts(s, run, chosen, g);
    case _ =>
  }

  lemma AddAccounts(s: State, id: Id, gid: Gid, kind: Kind, place: Place, paused: bool, position: Option<int>, g: Gid)
    requires IndexOk(s) && AccountedFor(s, g)
    ensures AccountedFor(Add(s, id, gid, kind, place, paused, position), g)
  {
  }

  lemma ChangeGlobalStoppedOk(s: State, t: State)
    requires IndexOk(s) && StoppedOk(s) && t == s.(limits := t.limits, tails := t.tails)
    ensures IndexOk(t) && StoppedOk(t) && forall g :: StatusAt(t, g) == StatusAt(s, g)
  {
    assert forall g :: StatusAt(t, g) == StatusAt(s, g);
  }

  /** Forgetting stopped results takes nobody's answer away. */
  lemma ForgetAccounts(s: State, gone: set<Gid>, kept: seq<Gid>, g: Gid)
    requires forall h :: h in gone ==> Stopped(StatusAt(s, h))
    ensures AccountedFor(Forget(s, gone, kept), g) <==> AccountedFor(s, g)
  {
    assert g in gone ==> Stopped(StatusAt(s, g));
    assert g !in gone ==> StatusAt(Forget(s, gone, kept), g) == StatusAt(s, g);
  }

  lemma PruneAccounts(s: State, g: Gid)
    requires StoppedOk(s)
    ensures AccountedFor(Prune(s), g) <==> AccountedFor(s, g)
  {
    var kept := Kept(s.stopped, ProtectedSet(s), Excess(s));
    ForgetAccounts(s, (set h | h in s.stopped) - (set h | h in kept), kept, g);
  }

  lemma PurgeAccounts(s: State, g: Gid)
    requires StoppedOk(s)
    ensures AccountedFor(Purge(s), g) <==> AccountedFor(s, g)
  {
    ForgetAccounts(s, set h | h in s.stopped, [], g);
  }

  lemma AppendStoppedAccounts(s: State, gid: Gid, g: Gid)
    requires StoppedBut(s, gid) && IndexOk(s)
    ensures AccountedFor(AppendStopped(s, gid), g) <==> AccountedFor(s, g)
  {
    var t := s.(stopped := s.stopped + [gid], stoppedSet := s.stoppedSet + {gid});
    assert forall h :: StatusAt(t, h) == StatusAt(s, h);
    DuplicateFreeAppend(s.stopped, gid);
    PruneAccounts(t, g);
  }

  lemma ActAccounts(s: State, id: Id, control: Control, g: Gid)
    requires Inv(s) && id in s.objects && Registered(s, id) && AccountedFor(s, g)
    ensures AccountedFor(Act(s, id, control), g) <==>
            !(control.ToRemove? && s.objects[id].gid == g && !Terminal(s.objects[id].status)
              && g !in s.active && Owned(s.owner, g) != {})
  {
    match control
    case ToPause =>
      if !Terminal(s.objects[id].status) {
        IndexRewrite(s, Pause(s, id), id, s.objects[id].(cancel := None, status := Paused));
      }
    case ToUnpause =>
      if s.objects[id].status == Paused {
        IndexRewrite(s, Unpause(s, id), id, s.objects[id].(status := Waiting));
      }
    case ToRemove => RemoveAccounts(s, id, g);
    case ToMove(pos, how) => MoveAccounts(s, id, pos, how, g);
    case ToChangeUri(changed) => ChangeUriAccounts(s, id, changed, g);
    case ToChangeOption(change) => ChangeOptionAccounts(s, id, change, g);
    case ToRemoveResult =>
      if Terminal(s.objects[id].status) {
        var gid := s.objects[id].gid;
        assert StatusAt(s, gid) == Some(s.objects[id].status);
        ForgetAccounts(s, {gid}, Drop(s.stopped, {gid}), g);
      }
  }

  lemma MoveAccounts(s: State, id: Id, pos: int, how: Anchor, g: Gid)
    requires id in s.objects
    ensures AccountedFor(ChangePosition(s, id, pos, how), g) <==> AccountedFor(s, g)
  {
    assert StatusAt(ChangePosition(s, id, pos, how), g) == StatusAt(s, g);
  }

  lemma RemoveAccounts(s: State, id: Id, g: Gid)
    requires Inv(s) && id in s.objects && Registered(s, id) && AccountedFor(s, g)
    ensures AccountedFor(Remove(s, id), g) <==>
            !(s.objects[id].gid == g && !Terminal(s.objects[id].status) && g !in s.active && Owned(s.owner, g) != {})
  {
    var d := s.objects[id];
    var s1 := s.(waiting := Drop(s.waiting, {d.gid}));
    if Terminal(d.status) {
      assert StatusAt(s1, g) == StatusAt(s, g);
    } else {
      var e := d.(cancel := None, status := Removed);
      var t := s1.(objects := s.objects[id := e], tails := s.tails + multiset{TailOf(d.cancel)});
      assert StatusOk(s, id);
      RemoveRewrites(s, t, id, e);
      RemoveLists(s, t, id, e);
      IndexRewrite(s, t, id, e);
      RemovedAccounts(s, t, id, e, g);
      AppendStoppedAccounts(t, d.gid, g);
    }
  }

  /** Becoming removed leaves keys without an owner exactly when no run is left to release them. */
  lemma RemovedAccounts(s: State, t: State, id: Id, e: Download, g: Gid)
    requires IndexOk(s) && id in s.objects && Registered(s, id) && AccountedFor(s, g)
    requires e == s.objects[id].(cancel := None, status := Removed) && t.objects == s.objects[id := e]
    requires t.downloads == s.downloads && t.active == s.active && t.owner == s.owner
    ensures AccountedFor(t, g) <==> !(s.objects[id].gid == g && g !in s.active && Owned(s.owner, g) != {})
  {
    assert StatusAt(t, g) == if e.gid == g then Some(Removed) else StatusAt(s, g);
  }

  lemma ChangeUriAccounts(s: State, id: Id, changed: bool, g: Gid)
    requires IndexOk(s) && id in s.objects && Registered(s, id) && AccountedFor(s, g)
    ensures AccountedFor(ChangeUri(s, id, changed), g)
  {
    var d := s.objects[id];
    if changed && d.status == Active {
      var t := ChangeUri(s, id, changed);
      IndexRewrite(s, t, id, d.(retainAfterRun := d.ctx, status := Waiting, cancel := None));
    }
  }

  lemma ChangeOptionAccounts(s: State, id: Id, c: OptionChange, g: Gid)
    requires Inv(s) && id in s.objects && Registered(s, id) && AccountedFor(s, g)
    ensures AccountedFor(ChangeOption(s, id, c), g)
  {
    if OptionChangeAccepted(s, id, c) {
      var d, t := s.objects[id], ChangeOption(s, id, c);
      assert StatusOk(s, id);
      if Restarts(c) && d.status == Active {
        assert StatusAt(s, d.gid) == Some(Active);
        RestartingChangeIs(s, id, c);
        IndexRewrite(s, t, id, Changed(s, id, c).(status := Waiting, cancel := None));
      } else {
        IndexRewrite(s, t, id, Changed(s, id, c));
      }
      if Transitioning(d, c) {
        assert RunOk(s, Run(id, d.ctx.value));
      }
    }
  }

  lemma ReserveAccounts(s: State, r: Run, keys: seq<Key>, g: Gid)
    requires RunOk(s, r) && AccountedFor(s, g)
    ensures AccountedFor(RunReserves(s, r, keys), g)
  {
    assert StatusAt(RunReserves(s, r, keys), g) == StatusAt(s, g);
  }

  lemma PublishAccounts(s: State, r: Run, c: Chosen, g: Gid)
    requires r.id in s.objects && AccountedFor(s, g)
    ensures AccountedFor(RunPublishes(s, r, c), g)
  {
    assert StatusAt(RunPublishes(s, r, c), g) == StatusAt(s, g);
  }

  lemma FinishAccounts(s: State, r: Run, outcome: RunOutcome, g: Gid)
    requires Inv(s) && r in s.runs && r.id in s.objects && AccountedFor(s, g)
    ensures AccountedFor(Finish(s, r, outcome), g)
  {
    NeverStale(s, r);
    var d, t := s.objects[r.id], AfterRun(s, r, outcome);
    assert StatusOk(s, r.id);
    FinishIs(s, r, outcome);
    AfterRunAccounts(s, r, outcome, g);
    AfterRunLists(s, r, outcome);
    if d.status == Active && Terminal(EndStatus(d, outcome, s.shutdown)) {
      AppendStoppedAccounts(t, d.gid, g);
    }
  }

  lemma AfterRunAccounts(s: State, r: Run, outcome: RunOutcome, g: Gid)
    requires IndexOk(s) && r.id in s.objects && StatusOk(s, r.id) && AccountedFor(s, g)
    ensures AccountedFor(AfterRun(s, r, outcome), g)
  {
    var d, t := s.objects[r.id], AfterRun(s, r, outcome);
    if g == d.gid {
      if Retains(d, r.ctx) {
        assert Registered(s, r.id);
        IndexRewrite(s, t, r.id, t.objects[r.id]);
      }
    } else {
      OthersKeepKeys(s, r, g);
      assert StatusAt(t, g) == StatusAt(s, g);
    }
  }

  lemma ScheduleAccounts(s: State, cut: Option<nat>, g: Gid)
    requires Inv(s) && s.taken && AccountedFor(s, g)
    ensures AccountedFor(Schedule(s, cut), g)
  {
    var turns := if s.shutdown then 0
                 else if cut.Some? && cut.value < |s.waiting| then cut.value else |s.waiting|;
    LoopAccounts(s, turns, g);
    var t := ScheduleLoop(s, turns);
    assert StatusAt(Schedule(s, cut), g) == StatusAt(t, g);
  }

  lemma {:induction false} LoopAccounts(s: State, c: nat, g: Gid)
    requires Inv(s) && s.taken && AccountedFor(s, g)
    ensures AccountedFor(ScheduleLoop(s, c), g)
    decreases c
  {
    if c != 0 && s.waiting != [] && |s.active| < s.limits.maxActive {
      TurnKeeps(s);
      TurnAccounts(s, g);
      LoopAccounts(ScheduleTurn(s), c - 1, g);
      LoopUnrolls(s, c);
    }
  }

  lemma TurnAccounts(s: State, g: Gid)
    requires Inv(s) && s.waiting != [] && AccountedFor(s, g)
    ensures AccountedFor(ScheduleTurn(s), g)
  {
    NoDefensiveDrop(s);
    TurnFrame(s);
    TurnStatus(s, g);
  }

  lemma TurnStatus(s: State, g: Gid)
    requires s.waiting != [] && IndexOk(s) && s.waiting[0] in s.downloads && s.downloads[s.waiting[0]] in s.objects
    ensures var t := ScheduleTurn(s);
            g in t.active || (g !in s.active && StatusAt(t, g) == StatusAt(s, g))
  {
  }

  /** Over whole executions: without such a removal every key is accounted for in every state. */
  lemma {:induction false} AllAccounted(states: seq<State>, steps: seq<Step>, i: nat, g: Gid)
    requires Execution(states, steps) && i < |states|
    requires forall n :: 0 <= n < i ==> !Leaks(states[n], steps[n], g)
    ensures AccountedFor(states[i], g)
  {
    if i == 0 {
      var limits, entries :| states[0] == Loaded(limits, entries);
      LoadedOwnsNothing(limits, entries);
    } else {
      AllAccounted(states, steps, i - 1, g);
      ExecutionKeeps(states, steps, i - 1);
      assert StepAt(states, steps, i - 1);
      StepAccounts(states[i - 1], steps[i - 1], g);
    }
  }

  lemma {:induction false} LoadedOwnsNothing(limits: Limits, entries: seq<Entry>)
    ensures Loaded(limits, entries).owner == map[]
  {
    if entries != [] {
      LoadedOwnsNothing(limits, entries[..|entries| - 1]);
    }
  }
}
