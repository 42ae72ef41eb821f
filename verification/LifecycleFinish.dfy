/** The end of a run and the steps outside the engine's mutex. */
module LifecycleFinish {
  import opened Collections
  import opened Reservations
  import opened Paths
  import opened Lifecycle
  import opened LifecycleInvariant

  /** A run that ends is still its download's current run: the stale return is dead code. */
  lemma NeverStale(s: State, r: Run)
    requires Inv(s) && r in s.runs
    ensures r.id in s.objects && s.objects[r.id].ctx == Some(r.ctx) && s.objects[r.id].gid in s.active
  {
    assert RunOk(s, r);
  }

  /**
   The collapse of a torrent restart never fails and leaves exactly the
   replacement set; without a pending transition it changes nothing.
   */
  lemma CollapseSucceeds(s: State, r: Run)
    requires Inv(s) && r in s.runs && r.id in s.objects
    ensures var d := s.objects[r.id];
            var c := Collapse(s, d, r.ctx);
            && c.Some?
            && Owned(c.value, d.gid) == (if d.transitionAfterRun == Some(r.ctx) then Elements(d.transitionKeys)
                                         else Owned(s.owner, d.gid))
            && forall g :: g != d.gid ==> Owned(c.value, g) == Owned(s.owner, g)
  {
    var d := s.objects[r.id];
    assert HandOverOk(s, d);
    if d.transitionAfterRun == Some(r.ctx) {
      UnionKeepsTable(s.owner, d.transitionKeys, d.gid);
      UnionThenCollapse(s.owner, s.owner, d.transitionKeys, d.gid);
    }
  }

  /** The state after a run has ended, before its download enters the stopped list. */
  ghost function AfterRun(s: State, r: Run, outcome: RunOutcome): State
    requires r.id in s.objects
  {
    var d := s.objects[r.id];
    s.(active := s.active - {d.gid}, objects := s.objects[r.id := Ended(d, r.ctx, outcome, s.shutdown)],
       runs := s.runs - {r}, owner := OwnerAfterRun(s, r),
       tails := s.tails + multiset{TailOf(if d.status == Active then d.cancel else None)})
  }

  ghost function OwnerAfterRun(s: State, r: Run): map<Key, Gid>
    requires r.id in s.objects
  {
    var d := s.objects[r.id];
    var c := Collapse(s, d, r.ctx);
    if c.Some? && Retains(d, r.ctx) then c.value else Release(if c.Some? then c.value else s.owner, d.gid)
  }

  lemma FinishIs(s: State, r: Run, outcome: RunOutcome)
    requires r.id in s.objects && s.objects[r.id].ctx == Some(r.ctx)
    ensures Finish(s, r, outcome) ==
            if s.objects[r.id].status == Active && Terminal(EndStatus(s.objects[r.id], outcome, s.shutdown))
            then AppendStopped(AfterRun(s, r, outcome), s.objects[r.id].gid) else AfterRun(s, r, outcome)
  {
  }

  lemma FinishKeeps(s: State, r: Run, outcome: RunOutcome)
    requires Inv(s) && r in s.runs && r.id in s.objects
    ensures Inv(Finish(s, r, outcome))
  {
    NeverStale(s, r);
    var d, t := s.objects[r.id], AfterRun(s, r, outcome);
    FinishIs(s, r, outcome);
    AfterRunRuns(s, r, outcome);
    AfterRunObjects(s, r, outcome);
    AfterRunLists(s, r, outcome);
    assert |t.tails| > 0;
    WakeFrame(s, t);
    if d.status == Active && Terminal(EndStatus(d, outcome, s.shutdown)) {
      AppendStoppedKeeps(t, d.gid);
    }
  }

  lemma AfterRunRuns(s: State, r: Run, outcome: RunOutcome)
    requires RunsOk(s) && CancelsOk(s) && StatusesOk(s) && r in s.runs && r.id in s.objects
    ensures RunsOk(AfterRun(s, r, outcome)) && CancelsOk(AfterRun(s, r, outcome))
  {
    var t := AfterRun(s, r, outcome);
    assert RunOk(s, r);
    forall q | q in t.runs
      ensures RunOk(t, q) && q.id != r.id && t.objects[q.id] == s.objects[q.id]
    {
      OtherSurvives(s, r, q, outcome);
    }
    AfterRunCovered(s, r, outcome);
  }

  lemma OtherSurvives(s: State, r: Run, q: Run, outcome: RunOutcome)
    requires RunsOk(s) && r in s.runs && r.id in s.objects && q in s.runs && q != r
    ensures var t := AfterRun(s, r, outcome);
            RunOk(t, q) && q.id != r.id && t.objects[q.id] == s.objects[q.id]
  {
    assert RunOk(s, r) && RunOk(s, q);
    assert RunsApart(s);
  }

  lemma AfterRunCovered(s: State, r: Run, outcome: RunOutcome)
    requires RunsOk(s) && r in s.runs && r.id in s.objects
    ensures EveryActiveRuns(AfterRun(s, r, outcome)) && EveryContextRuns(AfterRun(s, r, outcome))
  {
    var t := AfterRun(s, r, outcome);
    forall g | g in t.active
      ensures HasRun(t, g)
    {
      assert HasRun(s, g);
      var q :| q in s.runs && q.id in s.objects && s.objects[q.id].gid == g;
      OtherSurvives(s, r, q, outcome);
      assert q in t.runs;
    }
  }

  lemma AfterRunObjects(s: State, r: Run, outcome: RunOutcome)
    requires Inv(s) && r in s.runs && r.id in s.objects
    ensures var t := AfterRun(s, r, outcome);
            IndexOk(t) && StatusesOk(t) && HandOversOk(t) && PathsOk(t)
  {
    var t := AfterRun(s, r, outcome);
    var e := t.objects[r.id];
    EndedOk(s, r, outcome);
    PathsRewrite(s, t, r.id, e);
    StatusesRewrite(s, t, r.id, e);
    AfterRunHandOvers(s, r, outcome);
  }

  lemma AfterRunHandOvers(s: State, r: Run, outcome: RunOutcome)
    requires Inv(s) && r in s.runs && r.id in s.objects
    requires HandOverOk(AfterRun(s, r, outcome), AfterRun(s, r, outcome).objects[r.id])
    ensures HandOversOk(AfterRun(s, r, outcome))
  {
    var t := AfterRun(s, r, outcome);
    forall id | id in t.objects
      ensures HandOverOk(t, t.objects[id])
    {
      if id != r.id {
        OthersKeepHandOver(s, r, id, outcome);
      }
    }
  }

  lemma EndedOk(s: State, r: Run, outcome: RunOutcome)
    requires r.id in s.objects && RunOk(s, r) && StatusOk(s, r.id)
    requires HandOverOk(s, s.objects[r.id]) && PathOk(s.objects[r.id])
    ensures var t := AfterRun(s, r, outcome);
            StatusOk(t, r.id) && HandOverOk(t, t.objects[r.id]) && PathOk(t.objects[r.id])
  {
  }

  /** Ending a run moves no key of another gid, so other hand-overs stay whole. */
  lemma OthersKeepHandOver(s: State, r: Run, id: Id, outcome: RunOutcome)
    requires Inv(s) && r in s.runs && r.id in s.objects && id in s.objects && id != r.id
    ensures HandOverOk(AfterRun(s, r, outcome), s.objects[id])
  {
    var d, t := s.objects[id], AfterRun(s, r, outcome);
    assert HandOverOk(s, d);
    if d.transitionAfterRun.Some? {
      assert Run(id, d.ctx.value) in s.runs;
      DifferentGid(s, r, Run(id, d.ctx.value));
      OthersKeepKeys(s, r, d.gid);
      forall k | k in d.transitionKeys
        ensures k in t.owner && t.owner[k] == d.gid
      {
        assert k in Owned(s.owner, d.gid);
        assert k in Owned(t.owner, d.gid);
      }
    }
  }

  lemma DifferentGid(s: State, q: Run, r: Run)
    requires RunsOk(s) && q in s.runs && r in s.runs && q != r
    ensures q.id in s.objects && r.id in s.objects && s.objects[q.id].gid != s.objects[r.id].gid
  {
    assert RunOk(s, q) && RunOk(s, r);
    assert RunsApart(s);
  }

  lemma OthersKeepKeys(s: State, r: Run, g: Gid)
    requires r.id in s.objects && g != s.objects[r.id].gid
    ensures Owned(OwnerAfterRun(s, r), g) == Owned(s.owner, g)
  {
  }

  lemma AfterRunLists(s: State, r: Run, outcome: RunOutcome)
    requires IndexOk(s) && QueueOk(s) && StoppedOk(s) && r.id in s.objects && StatusOk(s, r.id)
    ensures var d, t := s.objects[r.id], AfterRun(s, r, outcome);
            && IndexOk(t) && QueueOk(t)
            && if d.status == Active && Terminal(EndStatus(d, outcome, s.shutdown)) then StoppedBut(t, d.gid) else StoppedOk(t)
  {
    var d, t := s.objects[r.id], AfterRun(s, r, outcome);
    var e := t.objects[r.id];
    if d.status == Active {
      IndexRewrite(s, t, r.id, e);
      assert StatusAt(s, d.gid) == Some(Active);
    } else {
      assert e.status == d.status;
      assert forall g :: StatusAt(t, g) == StatusAt(s, g);
    }
  }

  // ----- the unlocked steps -----

  lemma ReserveKeeps(s: State, r: Run, keys: seq<Key>)
    requires Inv(s) && r in s.runs && r.id in s.objects
    ensures Inv(RunReserves(s, r, keys)) && OwnersKept(s, RunReserves(s, r, keys))
  {
    ReserveStore(s, r, keys);
    WakeFrame(s, RunReserves(s, r, keys));
    StoreKeeps(s, RunReserves(s, r, keys));
  }

  lemma ReserveStore(s: State, r: Run, keys: seq<Key>)
    requires r.id in s.objects && NoDuplicates(s.waiting)
    ensures var t := RunReserves(s, r, keys);
            SameStore(s, t) && t == s.(owner := t.owner)
  {
    ReserveMovesNothing(s, r, keys);
  }

  lemma ReserveMovesNothing(s: State, r: Run, keys: seq<Key>)
    requires r.id in s.objects
    ensures OwnersKept(s, RunReserves(s, r, keys))
  {
  }

  lemma PublishKeeps(s: State, r: Run, c: Chosen)
    requires Inv(s) && r in s.runs && r.id in s.objects
    ensures Inv(RunPublishes(s, r, c))
  {
    var d := s.objects[r.id];
    if Publishable(d, c) {
      assert RunOk(s, r) && PathOk(d) && StatusOk(s, r.id);
      PublishQuiet(s, r, c);
      SameStatusKeeps(s, RunPublishes(s, r, c), r.id, d.(target := Publish(d.target, c)));
    }
  }

  lemma PublishQuiet(s: State, r: Run, c: Chosen)
    requires RunOk(s, r) && PathOk(s.objects[r.id]) && StatusOk(s, r.id) && Publishable(s.objects[r.id], c)
    ensures var t := RunPublishes(s, r, c);
            Quiet(s, t, r.id, s.objects[r.id].(target := Publish(s.objects[r.id].target, c))) && SameLists(s, t)
  {
  }

  lemma ChangeGlobalKeeps(s: State, limits: Limits)
    requires Inv(s)
    ensures Inv(ChangeGlobal(s, limits))
  {
    var t := s.(limits := limits, tails := s.tails + multiset{SignalOnly});
    assert SignalOnly in t.tails;
    StoreKeeps(s, t);
    PruneKeeps(t);
  }
}
