/** Which results are remembered: how many, which ones are spared, and how one is forgotten. */
module LifecycleResults {
  import opened Collections
  import opened Reservations
  import Paths
  import opened Lifecycle
  import opened LifecycleInvariant
  import opened LifecycleSteps
  import opened LifecycleFinish
  import opened LifecycleRuns
  import opened LifecyclePaths
  import opened LifecycleStatuses
  import opened LifecycleTheorems

  /** Failed downloads are spared while unfinished results are to be kept. */
  ghost function Spared(s: State): set<Gid>
  {
    set g | g in s.stopped && s.limits.keepUnfinished && StatusAt(s, g) == Some(Errored)
  }

  lemma SparedIsProtected(s: State)
    ensures Spared(s) == ProtectedSet(s)
  {
  }

  /** The results that are not spared are at most as many as allowed. */
  ghost predicate WithinLimit(s: State)
  {
    var most := if s.limits.maxResult < 0 then 0 else s.limits.maxResult;
    |Drop(s.stopped, Spared(s))| <= most
  }

  // ----- pruning -----

  lemma PruneWithin(s: State)
    ensures WithinLimit(Prune(s)) && Prune(s).limits == s.limits
    ensures forall g :: g in Spared(s) ==> g in Prune(s).stopped
  {
    var t := Prune(s);
    PruneExact(s);
    SparedIsProtected(s);
    PruneSpares(s, t);
    SameDrop(t.stopped, ProtectedSet(s), Spared(t));
  }

  lemma PruneSpares(s: State, t: State)
    requires t == Prune(s)
    ensures forall g :: g in Spared(s) ==> g in t.stopped
    ensures forall g :: g in t.stopped ==> (g in Spared(t) <==> g in ProtectedSet(s))
  {
    var kept := Kept(s.stopped, ProtectedSet(s), Excess(s));
    SparedIsProtected(s);
    forall g | g in Spared(s)
      ensures g in kept
    {
      KeptSpares(s.stopped, ProtectedSet(s), Excess(s), g);
    }
    forall g | g in kept
      ensures StatusAt(t, g) == StatusAt(s, g)
    {
    }
  }

  lemma {:induction false} KeptSpares(stopped: seq<Gid>, protected: set<Gid>, excess: int, g: Gid)
    requires g in stopped && g in protected
    ensures g in Kept(stopped, protected, excess)
  {
    if stopped[0] != g {
      KeptSpares(stopped[1..], protected, if excess > 0 && stopped[0] !in protected then excess - 1 else excess, g);
    }
  }

  lemma {:induction false} SameDrop(s: seq<Gid>, a: set<Gid>, b: set<Gid>)
    requires forall g :: g in s ==> (g in a <==> g in b)
    ensures Drop(s, a) == Drop(s, b)
  {
    if s != [] {
      assert s[0] in s && forall g :: g in s[1..] ==> g in s;
      SameDrop(s[1..], a, b);
    }
  }

  lemma {:induction false} DropTwice(s: seq<Gid>, a: set<Gid>, b: set<Gid>)
    ensures |Drop(Drop(s, a), b)| <= |Drop(s, b)|
  {
    if s != [] {
      DropTwice(s[1..], a, b);
      if s[0] !in a {
        assert Drop(s, a)[1..] == Drop(s[1..], a);
      }
    }
  }

  // ----- all steps -----

  /** The list of results, the limits and the entries of all results stay as they are. */
  ghost predicate SameResults(s: State, t: State)
  {
    && t.stopped == s.stopped && t.limits == s.limits
    && forall g :: g in s.stopped ==> StatusAt(t, g) == StatusAt(s, g)
  }

  lemma SameResultsWithin(s: State, t: State)
    requires SameResults(s, t) && WithinLimit(s)
    ensures WithinLimit(t)
  {
    assert Spared(t) == Spared(s);
  }

  lemma ForgetWithin(s: State, id: Id)
    requires WithinLimit(s) && id in s.objects
    ensures WithinLimit(RemoveResult(s, id))
  {
    var gid, t := s.objects[id].gid, RemoveResult(s, id);
    if Terminal(s.objects[id].status) {
      assert t.stopped == Drop(s.stopped, {gid});
      DropTwice(s.stopped, {gid}, Spared(s));
      forall g | g in t.stopped
        ensures g in Spared(t) <==> g in Spared(s)
      {
        assert g in s.stopped && StatusAt(t, g) == StatusAt(s, g);
      }
      SameDrop(t.stopped, Spared(t), Spared(s));
    }
  }

  /** The index, the list of results, the limits and the shutdown stay as they are. */
  ghost predicate SameLists(s: State, t: State)
  {
    t.downloads == s.downloads && t.stopped == s.stopped && t.limits == s.limits && t.shutdown == s.shutdown
  }

  lemma SameListsDoes(s: State, step: Step, t: State)
    requires SameLists(s, t) && !step.StepChangeGlobal? && !ShutsDown(step)
    ensures Does(s, step, t, Unchanged)
  {
  }

  /** Requests that neither list nor forget a result. */
  ghost predicate KeepsLists(s: State, id: Id, control: Control)
    requires id in s.objects
  {
    !control.ToRemoveResult? && (control.ToRemove? ==> Terminal(s.objects[id].status))
  }

  lemma ActLists(s: State, id: Id, control: Control)
    requires id in s.objects && KeepsLists(s, id, control)
    ensures SameLists(s, Act(s, id, control))
  {
    match control
    case ToChangeOption(c) => ChangeOptionLists(s, id, c);
    case ToChangeUri(changed) => ChangeUriLists(s, id, changed);
    case ToRemove => RemoveLists(s, id);
    case _ =>
  }

  lemma ChangeOptionLists(s: State, id: Id, c: OptionChange)
    requires id in s.objects
    ensures SameLists(s, ChangeOption(s, id, c))
  {
  }

  lemma ChangeUriLists(s: State, id: Id, changed: bool)
    requires id in s.objects
    ensures SameLists(s, ChangeUri(s, id, changed))
  {
  }

  lemma RemoveLists(s: State, id: Id)
    requires id in s.objects && Terminal(s.objects[id].status)
    ensures SameLists(s, Remove(s, id))
  {
  }

  lemma RemovePrunes(s: State, id: Id) returns (u: State)
    requires Inv(s) && id in s.objects && Registered(s, id) && !Terminal(s.objects[id].status)
    ensures Remove(s, id) == Prune(u) && u.downloads == s.downloads && u.limits == s.limits && u.shutdown == s.shutdown
    ensures AllResults(u)
  {
    var d := s.objects[id];
    var v := s.(waiting := Drop(s.waiting, {d.gid}), objects := s.objects[id := d.(cancel := None, status := Removed)],
                tails := s.tails + multiset{TailOf(d.cancel)});
    u := if d.gid in v.stoppedSet then v else v.(stopped := v.stopped + [d.gid], stoppedSet := v.stoppedSet + {d.gid});
    assert Remove(s, id) == AppendStopped(v, d.gid);
    ListedAreResults(s, v, id, u);
  }

  /** A download that has just become a result joins those that were results before. */
  lemma ListedAreResults(s: State, v: State, id: Id, u: State)
    requires IndexOk(s) && AllResults(s) && id in s.objects && Registered(s, id) && !Terminal(s.objects[id].status)
    requires id in v.objects && v.downloads == s.downloads && v.objects == s.objects[id := v.objects[id]] && Terminal(v.objects[id].status)
    requires v.stopped == s.stopped && (u.stopped == v.stopped || u.stopped == v.stopped + [s.objects[id].gid])
    requires u.downloads == v.downloads && u.objects == v.objects
    ensures AllResults(u)
  {
    forall g | g in s.stopped
      ensures StatusAt(u, g) == StatusAt(s, g)
    {
      assert Stopped(StatusAt(s, g));
    }
  }

  /** Terminal statuses do not change, so the same lists mean the same results. */
  lemma SameListsSameResults(s: State, step: Step, t: State)
    requires Inv(s) && Enabled(s, step) && t == Apply(s, step) && OnlyAdds(s, t)
    ensures SameResults(s, t)
  {
    forall g | g in s.stopped
      ensures StatusAt(t, g) == StatusAt(s, g)
    {
      SameResult(s, step, t, g);
    }
  }

  lemma SameResult(s: State, step: Step, t: State, g: Gid)
    requires Inv(s) && Enabled(s, step) && t == Apply(s, step) && OnlyAdds(s, t) && g in s.stopped
    ensures StatusAt(t, g) == StatusAt(s, g)
  {
    assert Stopped(StatusAt(s, g));
    StepStatus(s, step, s.downloads[g]);
  }

  /** The new or unchanged lists of a step that neither forgets a result nor prunes. */
  ghost predicate OnlyAdds(s: State, t: State)
  {
    && t.stopped == s.stopped && t.limits == s.limits
    && forall g :: g in s.downloads ==> g in t.downloads && t.downloads[g] == s.downloads[g]
  }

  ghost predicate ShutsDown(step: Step)
  {
    step.StepShutdown? || (step.StepSchedule? && step.cut.Some?)
  }

  /** Whatever is listed as a result is one. */
  ghost predicate AllResults(s: State)
  {
    forall g :: g in s.stopped ==> Stopped(StatusAt(s, g))
  }

  /** What a step does to the lists: it prunes, forgets one result or all, or at most adds a download. */
  datatype Effect = Pruned(before: State) | ForgotOne(id: Id) | ForgotAll | Unchanged

  ghost predicate Does(s: State, step: Step, t: State, effect: Effect)
  {
    match effect
    case Pruned(u) =>
      && t == Prune(u) && u.downloads == s.downloads && AllResults(u)
      && u.limits == (if step.StepChangeGlobal? then step.limits else s.limits) && u.shutdown == s.shutdown
      && (step.StepFinish? || step.StepChangeGlobal? || (step.StepControl? && step.control.ToRemove?))
    case ForgotOne(id) => id in s.objects && Asks(s, step, id) && step.control.ToRemoveResult? && t == RemoveResult(s, id)
    case ForgotAll => step.StepPurge? && t == Purge(s)
    case Unchanged => OnlyAdds(s, t) && !step.StepChangeGlobal? && (t.shutdown <==> s.shutdown || ShutsDown(step))
  }

  lemma StepDoes(s: State, step: Step) returns (effect: Effect)
    requires Inv(s) && Enabled(s, step)
    ensures Does(s, step, Apply(s, step), effect)
  {
    match step
    case StepControl(query, control) => effect := ControlDoes(s, query, control);
    case StepFinish(r, outcome) => effect := FinishDoes(s, r, outcome);
    case StepChangeGlobal(limits) => effect := LimitsDo(s, limits);
    case StepPurge => effect := ForgotAll;
    case StepSchedule(cut) => effect := ScheduleDoes(s, cut);
    case _ => effect := Unchanged; OtherDoes(s, step);
  }

  lemma LimitsDo(s: State, limits: Limits) returns (effect: Effect)
    requires StoppedOk(s)
    ensures Does(s, StepChangeGlobal(limits), ChangeGlobal(s, limits), effect)
  {
    var u := s.(limits := limits, tails := s.tails + multiset{SignalOnly});
    assert AllResults(s);
    assert forall g :: StatusAt(u, g) == StatusAt(s, g);
    effect := Pruned(u);
  }

  lemma OtherDoes(s: State, step: Step)
    requires Inv(s) && Enabled(s, step) && !step.StepControl? && !step.StepFinish? && !step.StepSchedule?
    requires !step.StepChangeGlobal? && !step.StepPurge?
    ensures Does(s, step, Apply(s, step), Unchanged)
  {
    if step.StepAdd? {
      AddDoes(s, step.newId, step.gid, step.kind, step.place, step.paused, step.position);
    } else if step.StepReserve? || step.StepPublish? {
      RunDoes(s, step);
    }
  }

  lemma AddDoes(s: State, id: Id, gid: Gid, kind: Kind, place: Paths.Place, paused: bool, position: Option<int>)
    ensures var t := Add(s, id, gid, kind, place, paused, position); OnlyAdds(s, t) && t.shutdown == s.shutdown
  {
  }

  lemma RunDoes(s: State, step: Step)
    requires step.StepReserve? || step.StepPublish?
    ensures Does(s, step, Apply(s, step), Unchanged)
  {
  }

  lemma ControlDoes(s: State, query: Gid, control: Control) returns (effect: Effect)
    requires Inv(s)
    ensures Does(s, StepControl(query, control), Apply(s, StepControl(query, control)), effect)
  {
    effect := Unchanged;
    var found := Find(s.downloads, query);
    if found.Found? {
      FoundIsRegistered(s, query);
      effect := ActDoes(s, query, found.id, control);
    } else {
      SameListsDoes(s, StepControl(query, control), s);
    }
  }

  lemma ActDoes(s: State, query: Gid, id: Id, control: Control) returns (effect: Effect)
    requires Inv(s) && Find(s.downloads, query) == Found(id) && id in s.objects && Registered(s, id)
    ensures Does(s, StepControl(query, control), Act(s, id, control), effect)
  {
    if KeepsLists(s, id, control) {
      ActLists(s, id, control);
      SameListsDoes(s, StepControl(query, control), Act(s, id, control));
      effect := Unchanged;
    } else if control.ToRemove? {
      var u := RemovePrunes(s, id);
      effect := Pruned(u);
    } else {
      effect := ForgotOne(id);
    }
  }

  lemma FinishDoes(s: State, r: Run, outcome: RunOutcome) returns (effect: Effect)
    requires Inv(s) && r in s.runs
    ensures r.id in s.objects && Does(s, StepFinish(r, outcome), Finish(s, r, outcome), effect)
  {
    NeverStale(s, r);
    FinishIs(s, r, outcome);
    if s.objects[r.id].status == Active && Terminal(EndStatus(s.objects[r.id], outcome, s.shutdown)) {
      var u := EndPrunes(s, r, outcome);
      effect := Pruned(u);
    } else {
      effect := Unchanged;
      SameListsDoes(s, StepFinish(r, outcome), AfterRun(s, r, outcome));
    }
  }

  lemma EndPrunes(s: State, r: Run, outcome: RunOutcome) returns (u: State)
    requires Inv(s) && r.id in s.objects && s.objects[r.id].status == Active
    requires Terminal(EndStatus(s.objects[r.id], outcome, s.shutdown))
    ensures AppendStopped(AfterRun(s, r, outcome), s.objects[r.id].gid) == Prune(u)
    ensures u.downloads == s.downloads && u.limits == s.limits && u.shutdown == s.shutdown && AllResults(u)
  {
    var v, gid := AfterRun(s, r, outcome), s.objects[r.id].gid;
    u := if gid in v.stoppedSet then v else v.(stopped := v.stopped + [gid], stoppedSet := v.stoppedSet + {gid});
    assert StatusOk(s, r.id);
    ListedAreResults(s, v, r.id, u);
  }

  lemma ScheduleDoes(s: State, cut: Option<nat>) returns (effect: Effect)
    requires Inv(s) && s.taken
    ensures Does(s, StepSchedule(cut), Schedule(s, cut), effect)
  {
    effect := Unchanged;
    var turns := if s.shutdown then 0 else if cut.Some? && cut.value < |s.waiting| then cut.value else |s.waiting|;
    LoopFrame(s, turns);
  }

  /** Every step keeps the number of results that are not spared within the limit in force. */
  lemma StepWithin(s: State, step: Step)
    requires Inv(s) && Enabled(s, step) && WithinLimit(s)
    ensures WithinLimit(Apply(s, step))
  {
    var effect := StepDoes(s, step);
    match effect
    case Pruned(u) => PruneWithin(u);
    case ForgotOne(id) => ForgetWithin(s, id);
    case ForgotAll =>
    case Unchanged =>
      SameListsSameResults(s, step, Apply(s, step));
      SameResultsWithin(s, Apply(s, step));
  }

  // ----- whole executions -----

  /** In every state the results that are not spared are at most as many as the limits in force allow. */
  lemma {:induction false} ResultsWithinLimit(states: seq<State>, steps: seq<Step>, i: nat)
    requires Execution(states, steps) && i < |states|
    ensures WithinLimit(states[i])
  {
    if i == 0 {
      var limits, entries :| states[0] == Loaded(limits, entries);
      LoadedNone(limits, entries);
    } else {
      ResultsWithinLimit(states, steps, i - 1);
      WithinAt(states, steps, i);
    }
  }

  lemma WithinAt(states: seq<State>, steps: seq<Step>, i: nat)
    requires Execution(states, steps) && 0 < i < |states| && WithinLimit(states[i - 1])
    ensures WithinLimit(states[i])
  {
    var s, step, t := StepTo(states, steps, i);
    StepWithin(s, step);
  }

  lemma {:induction false} LoadedNone(limits: Limits, entries: seq<Entry>)
    ensures Loaded(limits, entries).stopped == []
  {
    if entries != [] {
      LoadedNone(limits, entries[..|entries| - 1]);
    }
  }

  /** Why a download may leave the index: its result was purged, removed by name, or pruned without being spared. */
  ghost predicate MayForget(s: State, step: Step, t: State, id: Id)
  {
    || step.StepPurge?
    || (Asks(s, step, id) && step.control.ToRemoveResult?)
    || ((step.StepFinish? || step.StepChangeGlobal? || (step.StepControl? && step.control.ToRemove?))
        && id in t.objects && !(t.limits.keepUnfinished && t.objects[id].status == Errored))
  }

  /** Only results are forgotten, and only for such a reason. */
  lemma StepForgets(s: State, step: Step, g: Gid)
    requires Inv(s) && Enabled(s, step) && g in s.downloads && g !in Apply(s, step).downloads
    ensures var t, id := Apply(s, step), s.downloads[g];
            id in t.objects && Terminal(t.objects[id].status) && MayForget(s, step, t, id)
  {
    var t, id := Apply(s, step), s.downloads[g];
    var effect := StepDoes(s, step);
    Forgotten(s, step, t, effect, g);
  }

  lemma Forgotten(s: State, step: Step, t: State, effect: Effect, g: Gid)
    requires IndexOk(s) && AllResults(s) && Does(s, step, t, effect) && g in s.downloads && g !in t.downloads
    ensures var id := s.downloads[g];
            id in t.objects && Terminal(t.objects[id].status) && MayForget(s, step, t, id)
  {
    match effect
    case Pruned(u) => PruneForgets(u, t, g);
    case ForgotOne(j) => assert g == s.objects[j].gid;
    case ForgotAll =>
    case Unchanged => assert false;
  }

  lemma PruneForgets(u: State, t: State, g: Gid)
    requires t == Prune(u) && AllResults(u) && g in u.downloads && g !in t.downloads
    ensures var id := u.downloads[g];
            && id in t.objects && Terminal(t.objects[id].status)
            && !(t.limits.keepUnfinished && t.objects[id].status == Errored)
  {
    PruneSpares(u, t);
  }

  /** A purge forgets all results and nothing else. */
  lemma PurgeExact(s: State, g: Gid)
    requires IndexOk(s) && StoppedOk(s)
    ensures Purge(s).stopped == [] && (g in Purge(s).downloads <==> g in s.downloads && !Stopped(StatusAt(s, g)))
  {
  }

  /** Removing a result forgets that one, if it is one, and nothing else. */
  lemma RemoveResultExact(s: State, id: Id, g: Gid)
    requires IndexOk(s) && StoppedOk(s) && id in s.objects && Registered(s, id)
    ensures var t := RemoveResult(s, id);
            && (g in t.downloads <==> g in s.downloads && !(g == s.objects[id].gid && Stopped(StatusAt(s, g))))
            && (g in t.stopped <==> g in s.stopped && g != s.objects[id].gid)
  {
  }

  /** The limits change only as asked, and the shutdown is for good. */
  lemma StepSettings(s: State, step: Step)
    requires Inv(s) && Enabled(s, step)
    ensures Apply(s, step).limits == if step.StepChangeGlobal? then step.limits else s.limits
    ensures Apply(s, step).shutdown <==> s.shutdown || step.StepShutdown? || (step.StepSchedule? && step.cut.Some?)
  {
    var effect := StepDoes(s, step);
    Settings(s, step, Apply(s, step), effect);
  }

  lemma Settings(s: State, step: Step, t: State, effect: Effect)
    requires Does(s, step, t, effect)
    ensures t.limits == if step.StepChangeGlobal? then step.limits else s.limits
    ensures t.shutdown <==> s.shutdown || ShutsDown(step)
  {
  }

  /** A failed download is remembered while unfinished results are to be kept, unless someone purges or removes it. */
  lemma {:induction false} SparedResultsStay(states: seq<State>, steps: seq<Step>, i: nat, j: nat, g: Gid)
    requires Execution(states, steps) && i <= j < |states| && StatusAt(states[i], g) == Some(Errored)
    requires forall k :: i < k <= j ==> states[k].limits.keepUnfinished
    requires forall k :: i <= k < j ==> !steps[k].StepPurge? && !AsksToForget(states[k], steps[k], states[i].downloads[g])
    ensures StatusAt(states[j], g) == Some(Errored) && states[j].downloads[g] == states[i].downloads[g]
    decreases j
  {
    if i < j {
      SparedResultsStay(states, steps, i, j - 1, g);
      var s, step, t := StepTo(states, steps, j);
      StaysListed(s, step, t, g);
    }
  }

  ghost predicate AsksToForget(s: State, step: Step, id: Id)
  {
    Asks(s, step, id) && step.control.ToRemoveResult?
  }

  lemma StaysListed(s: State, step: Step, t: State, g: Gid)
    requires Inv(s) && Enabled(s, step) && t == Apply(s, step) && StatusAt(s, g) == Some(Errored)
    requires t.limits.keepUnfinished && !step.StepPurge? && !AsksToForget(s, step, s.downloads[g])
    ensures StatusAt(t, g) == Some(Errored) && t.downloads[g] == s.downloads[g]
  {
    var id := s.downloads[g];
    ErrorStays(s, step, t, id);
    if g !in t.downloads {
      StepForgets(s, step, g);
      assert false;
    }
    SameEntry(s, step, t, g);
  }

  lemma ErrorStays(s: State, step: Step, t: State, id: Id)
    requires Inv(s) && Enabled(s, step) && t == Apply(s, step) && id in s.objects && s.objects[id].status == Errored
    ensures id in t.objects && t.objects[id].status == Errored
  {
    StepStatus(s, step, id);
  }

  /** What the index holds under a gid does not change while it is there. */
  lemma SameEntry(s: State, step: Step, t: State, g: Gid)
    requires Inv(s) && Enabled(s, step) && t == Apply(s, step) && g in s.downloads && g in t.downloads
    ensures t.downloads[g] == s.downloads[g]
  {
    var effect := StepDoes(s, step);
    SameEntryAfter(s, step, t, effect, g);
  }

  lemma SameEntryAfter(s: State, step: Step, t: State, effect: Effect, g: Gid)
    requires Does(s, step, t, effect) && g in s.downloads && g in t.downloads
    ensures t.downloads[g] == s.downloads[g]
  {
  }
}
