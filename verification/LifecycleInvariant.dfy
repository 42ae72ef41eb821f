/** What every step of the download lifecycle keeps. */
module LifecycleInvariant {
  import opened Collections
  import opened Reservations
  import opened Lifecycle

  ghost predicate Registered(s: State, id: Id)
    requires id in s.objects
  {
    s.objects[id].gid in s.downloads && s.downloads[s.objects[id].gid] == id
  }

  /** The index names objects by their own gid. */
  ghost predicate IndexOk(s: State)
  {
    forall g :: g in s.downloads ==> s.downloads[g] in s.objects && s.objects[s.downloads[g]].gid == g
  }

  ghost predicate RunOk(s: State, r: Run)
  {
    && r.id in s.objects
    && s.objects[r.id].ctx == Some(r.ctx)
    && s.objects[r.id].gid in s.active
    && r.ctx < s.nextCtx
  }

  ghost predicate HasRun(s: State, g: Gid)
  {
    exists r :: r in s.runs && r.id in s.objects && s.objects[r.id].gid == g
  }

  /** No two live runs share a gid or a context. */
  ghost predicate RunsApart(s: State)
  {
    forall q, r | q in s.runs && r in s.runs && q.id in s.objects && r.id in s.objects ::
      s.objects[q.id].gid == s.objects[r.id].gid || q.ctx == r.ctx ==> q == r
  }

  ghost predicate EveryRunOk(s: State)
  {
    forall r :: r in s.runs ==> RunOk(s, r)
  }

  ghost predicate EveryContextRuns(s: State)
  {
    forall id :: id in s.objects && s.objects[id].ctx.Some? ==> Run(id, s.objects[id].ctx.value) in s.runs
  }

  ghost predicate EveryActiveRuns(s: State)
  {
    forall g :: g in s.active ==> HasRun(s, g)
  }

  /**
   `active` is exactly the gids of the live runs, no two live runs share a gid
   or a context, and a live run's context is its own download's current one.
   */
  ghost predicate RunsOk(s: State)
  {
    EveryRunOk(s) && EveryContextRuns(s) && EveryActiveRuns(s) && RunsApart(s)
  }

  ghost predicate StatusOk(s: State, id: Id)
    requires id in s.objects
  {
    var d := s.objects[id];
    && (d.status == Active ==> d.ctx.Some? && d.cancel == d.ctx && Registered(s, id))
    && (d.cancel.Some? ==> d.status == Active)
    && (!Registered(s, id) ==> Terminal(d.status))
  }

  ghost predicate StatusesOk(s: State)
  {
    forall id :: id in s.objects ==> StatusOk(s, id)
  }

  /** The status of the download the index has under `g`. */
  ghost function StatusAt(s: State, g: Gid): Option<Status>
  {
    if g in s.downloads && s.downloads[g] in s.objects then Some(StatusOf(s, g)) else None
  }

  ghost predicate Stopped(status: Option<Status>)
  {
    status.Some? && Terminal(status.value)
  }

  /** The queue holds, once each, downloads that wait; before shutdown it holds all of them. */
  ghost predicate QueueOk(s: State)
  {
    && NoDuplicates(s.waiting)
    && (forall g :: g in s.waiting ==> StatusAt(s, g) == Some(Waiting))
    && (!s.shutdown ==> forall g :: StatusAt(s, g) == Some(Waiting) ==> g in s.waiting)
  }

  /** The stopped list, the stopped set and the terminal downloads are the same. */
  ghost predicate StoppedOk(s: State)
  {
    && NoDuplicates(s.stopped)
    && (forall g :: g in s.stopped <==> g in s.stoppedSet)
    && (forall g :: g in s.stoppedSet <==> Stopped(StatusAt(s, g)))
  }

  ghost predicate MarkOk(mark: Option<Ctx>, d: Download)
  {
    mark.Some? ==> mark == d.ctx
  }

  /** Marks name the current run; a pending transition owns all its keys and keeps them. */
  ghost predicate HandOverOk(s: State, d: Download)
  {
    && MarkOk(d.retainAfterRun, d)
    && MarkOk(d.transitionAfterRun, d)
    && (d.transitionAfterRun.Some? ==>
          && d.retainAfterRun == d.transitionAfterRun
          && NoDuplicates(d.transitionKeys)
          && (forall k :: k in d.transitionKeys ==> k in s.owner && s.owner[k] == d.gid))
  }

  ghost predicate HandOversOk(s: State)
  {
    forall id :: id in s.objects ==> HandOverOk(s, s.objects[id])
  }

  /** Without a published path the options are what is shown; torrents publish none. */
  ghost predicate PathOk(d: Download)
  {
    && MarkOk(d.pathResetAfterRun, d)
    && (d.target.path.None? ==> d.target.shown == d.target.options)
    && (d.kind == Torrent ==> d.target.path.None? && d.target.held.None?)
  }

  ghost predicate PathsOk(s: State)
  {
    forall id :: id in s.objects ==> PathOk(s.objects[id])
  }

  /** A run whose download is no longer active has been told to stop, or is about to be. */
  ghost predicate CancelsOk(s: State)
  {
    forall r :: r in s.runs && r.id in s.objects && s.objects[r.id].status != Active ==>
      r.ctx in s.canceled || CancelThenSignal(r.ctx) in s.tails
  }

  ghost predicate Startable(s: State)
  {
    |s.active| < s.limits.maxActive && exists g :: g in s.waiting && g !in s.active
  }

  /** No lost wake-up. */
  ghost predicate WakeOk(s: State)
  {
    !s.shutdown && Startable(s) ==> s.wake || s.taken || |s.tails| > 0
  }

  /** Everything but the stopped results. */
  ghost predicate Core(s: State)
  {
    && IndexOk(s) && RunsOk(s) && StatusesOk(s) && QueueOk(s)
    && HandOversOk(s) && PathsOk(s) && CancelsOk(s) && WakeOk(s)
  }

  ghost predicate Inv(s: State)
  {
    Core(s) && StoppedOk(s)
  }

  // ----- frames: what a step that leaves some parts alone keeps -----

  /** Nothing about runs changes except the fields of their downloads. */
  ghost predicate SameRuns(s: State, t: State)
  {
    t.runs == s.runs && t.active == s.active && t.nextCtx == s.nextCtx
  }

  /** No key changes hands. */
  ghost predicate OwnersKept(s: State, t: State)
  {
    forall k :: k in s.owner ==> k in t.owner && t.owner[k] == s.owner[k]
  }

  ghost predicate SameHandOver(d: Download, e: Download)
  {
    && e.gid == d.gid && e.ctx == d.ctx
    && e.retainAfterRun == d.retainAfterRun
    && e.transitionAfterRun == d.transitionAfterRun && e.transitionKeys == d.transitionKeys
  }

  ghost predicate SamePath(d: Download, e: Download)
  {
    e.kind == d.kind && e.ctx == d.ctx && e.pathResetAfterRun == d.pathResetAfterRun && e.target == d.target
  }

  /** One object of the store is rewritten, keeping its gid. */
  ghost predicate Rewrite(s: State, t: State, id: Id, e: Download)
  {
    id in s.objects && t.objects == s.objects[id := e] && e.gid == s.objects[id].gid
  }

  /** Objects keep their gid and run; new objects have no run. */
  ghost predicate SameIdentity(s: State, t: State)
  {
    && (forall id :: id in s.objects ==>
          id in t.objects && t.objects[id].gid == s.objects[id].gid && t.objects[id].ctx == s.objects[id].ctx)
    && (forall id :: id in t.objects && id !in s.objects ==> t.objects[id].ctx == None)
  }

  lemma RunsFrame(s: State, t: State)
    requires RunsOk(s) && SameIdentity(s, t) && SameRuns(s, t)
    ensures RunsOk(t)
  {
    forall g | g in t.active
      ensures HasRun(t, g)
    {
      assert HasRun(s, g);
    }
  }

  lemma HandOversRewrite(s: State, t: State, id: Id, e: Download)
    requires HandOversOk(s) && Rewrite(s, t, id, e) && OwnersKept(s, t)
    requires SameHandOver(s.objects[id], e) || HandOverOk(t, e)
    ensures HandOversOk(t)
  {
    forall j | j in t.objects
      ensures HandOverOk(t, t.objects[j])
    {
      assert HandOverOk(s, s.objects[j]);
    }
  }

  lemma PathsRewrite(s: State, t: State, id: Id, e: Download)
    requires PathsOk(s) && Rewrite(s, t, id, e)
    requires SamePath(s.objects[id], e) || PathOk(e)
    ensures PathsOk(t)
  {
    forall j | j in t.objects
      ensures PathOk(t.objects[j])
    {
      assert PathOk(s.objects[j]);
    }
  }

  lemma StatusesRewrite(s: State, t: State, id: Id, e: Download)
    requires StatusesOk(s) && Rewrite(s, t, id, e) && t.downloads == s.downloads
    requires StatusOk(t, id)
    ensures StatusesOk(t)
  {
    forall j | j in t.objects
      ensures StatusOk(t, j)
    {
      if j != id {
        assert StatusOk(s, j);
      }
    }
  }

  /** A run that loses its active status has its cancellation among the tails. */
  lemma CancelsRewrite(s: State, t: State, id: Id, e: Download)
    requires RunsOk(s) && CancelsOk(s) && Rewrite(s, t, id, e) && e.ctx == s.objects[id].ctx && SameRuns(s, t)
    requires t.canceled == s.canceled && s.tails <= t.tails
    requires s.objects[id].status == Active && e.status != Active ==>
               e.ctx.Some? && CancelThenSignal(e.ctx.value) in t.tails
    ensures CancelsOk(t)
  {
    forall r | r in t.runs && r.id in t.objects && t.objects[r.id].status != Active
      ensures r.ctx in t.canceled || CancelThenSignal(r.ctx) in t.tails
    {
      assert RunOk(s, r);
    }
  }

  /** Changing the status of an indexed object changes the status of its gid alone. */
  lemma IndexRewrite(s: State, t: State, id: Id, e: Download)
    requires IndexOk(s) && Rewrite(s, t, id, e) && Registered(s, id) && t.downloads == s.downloads
    ensures IndexOk(t)
    ensures forall g :: StatusAt(t, g) == if g == e.gid then Some(e.status) else StatusAt(s, g)
  {
  }

  /** A step keeps the wake-up if it leaves a tail or makes nothing startable. */
  lemma WakeFrame(s: State, t: State)
    requires WakeOk(s)
    requires |t.tails| == 0 ==>
               && (s.shutdown ==> t.shutdown) && (Startable(t) ==> Startable(s))
               && (s.wake ==> t.wake) && (s.taken ==> t.taken) && t.tails == s.tails
    ensures WakeOk(t)
  {
  }

  /** The step leaves a tail, or does not touch anything the scheduler looks at. */
  ghost predicate WakeKept(s: State, t: State)
  {
    |t.tails| == 0 ==>
      && t.tails == s.tails && t.wake == s.wake && t.taken == s.taken && t.shutdown == s.shutdown
      && t.limits == s.limits && t.waiting == s.waiting && t.active == s.active
  }

  /**
   A step that rewrites one indexed object, leaves runs and index alone, moves no
   key and cancels a run it takes the active status from.
   */
  ghost predicate Quiet(s: State, t: State, id: Id, e: Download)
  {
    && Rewrite(s, t, id, e) && e.ctx == s.objects[id].ctx && SameRuns(s, t) && t.downloads == s.downloads
    && StatusOk(t, id)
    && OwnersKept(s, t) && t.canceled == s.canceled && s.tails <= t.tails && WakeKept(s, t)
    && (SameHandOver(s.objects[id], e) || HandOverOk(t, e))
    && (SamePath(s.objects[id], e) || PathOk(e))
    && (s.objects[id].status == Active && e.status != Active ==>
          e.ctx.Some? && CancelThenSignal(e.ctx.value) in t.tails)
  }

  /** Such a step keeps everything but the two lists, which it has to answer for itself. */
  lemma QuietKeeps(s: State, t: State, id: Id, e: Download)
    requires Core(s) && Quiet(s, t, id, e)
    requires IndexOk(t) && QueueOk(t)
    ensures Core(t)
  {
    QuietRuns(s, t, id, e);
    QuietObjects(s, t, id, e);
    WakeFrame(s, t);
  }

  lemma QuietRuns(s: State, t: State, id: Id, e: Download)
    requires RunsOk(s) && CancelsOk(s) && Quiet(s, t, id, e)
    ensures RunsOk(t) && CancelsOk(t)
  {
    assert SameIdentity(s, t);
    RunsFrame(s, t);
    CancelsRewrite(s, t, id, e);
  }

  lemma QuietObjects(s: State, t: State, id: Id, e: Download)
    requires StatusesOk(s) && HandOversOk(s) && PathsOk(s) && Quiet(s, t, id, e)
    ensures StatusesOk(t) && HandOversOk(t) && PathsOk(t)
  {
    HandOversRewrite(s, t, id, e);
    PathsRewrite(s, t, id, e);
    StatusesRewrite(s, t, id, e);
  }

  /** A quiet step that changes neither a status nor a list. */
  lemma SameStatusKeeps(s: State, t: State, id: Id, e: Download)
    requires Inv(s) && Quiet(s, t, id, e) && e.status == s.objects[id].status && SameLists(s, t)
    ensures Inv(t)
  {
    SameStatusLists(s, t, id, e);
    QuietKeeps(s, t, id, e);
  }

  ghost predicate SameLists(s: State, t: State)
  {
    && t.downloads == s.downloads && t.waiting == s.waiting && t.shutdown == s.shutdown
    && t.stopped == s.stopped && t.stoppedSet == s.stoppedSet
  }

  lemma SameStatusLists(s: State, t: State, id: Id, e: Download)
    requires IndexOk(s) && QueueOk(s) && StoppedOk(s) && SameLists(s, t)
    requires Rewrite(s, t, id, e) && e.status == s.objects[id].status
    ensures IndexOk(t) && QueueOk(t) && StoppedOk(t)
  {
    assert forall g :: StatusAt(t, g) == StatusAt(s, g);
  }

  // ----- steps that leave the objects alone -----

  /** The objects, the index and the runs stay; the queue may be reordered; no key moves and no cancellation is lost. */
  ghost predicate SameStore(s: State, t: State)
  {
    && t.objects == s.objects && t.downloads == s.downloads && SameRuns(s, t)
    && t.stopped == s.stopped && t.stoppedSet == s.stoppedSet
    && OwnersKept(s, t) && (s.shutdown ==> t.shutdown)
    && s.canceled <= t.canceled
    && (forall c :: CancelThenSignal(c) in s.tails ==> CancelThenSignal(c) in t.tails || c in t.canceled)
    && NoDuplicates(t.waiting) && (forall g :: g in t.waiting <==> g in s.waiting)
  }

  lemma StoreKeeps(s: State, t: State)
    requires Inv(s) && SameStore(s, t) && WakeOk(t)
    ensures Inv(t)
  {
    StoreRuns(s, t);
    StoreLists(s, t);
    StoreObjects(s, t);
  }

  lemma StoreRuns(s: State, t: State)
    requires RunsOk(s) && CancelsOk(s) && SameStore(s, t)
    ensures RunsOk(t) && CancelsOk(t)
  {
    assert SameIdentity(s, t);
    RunsFrame(s, t);
  }

  lemma StoreLists(s: State, t: State)
    requires IndexOk(s) && QueueOk(s) && StoppedOk(s) && SameStore(s, t)
    ensures IndexOk(t) && QueueOk(t) && StoppedOk(t)
  {
    assert forall g :: StatusAt(t, g) == StatusAt(s, g);
  }

  lemma StoreObjects(s: State, t: State)
    requires StatusesOk(s) && HandOversOk(s) && PathsOk(s) && SameStore(s, t)
    ensures StatusesOk(t) && HandOversOk(t) && PathsOk(t)
  {
    forall id | id in t.objects
      ensures StatusOk(t, id) && HandOverOk(t, t.objects[id])
    {
      assert StatusOk(s, id) && HandOverOk(s, s.objects[id]);
    }
  }

  // ----- stopped results -----

  /** Terminal downloads may leave the index together with their stopped entries. */
  lemma ForgetKeeps(s: State, gone: set<Gid>, kept: seq<Gid>)
    requires Inv(s) && gone <= s.stoppedSet
    requires NoDuplicates(kept) && forall g :: g in kept <==> g in s.stopped && g !in gone
    ensures Inv(Forget(s, gone, kept))
  {
    var t := Forget(s, gone, kept);
    ForgetLists(s, gone, kept);
    ForgetStatuses(s, gone, kept);
    RunsFrame(s, t);
    WakeFrame(s, t);
  }

  lemma ForgetLists(s: State, gone: set<Gid>, kept: seq<Gid>)
    requires IndexOk(s) && QueueOk(s) && StoppedOk(s) && gone <= s.stoppedSet
    requires NoDuplicates(kept) && forall g :: g in kept <==> g in s.stopped && g !in gone
    ensures IndexOk(Forget(s, gone, kept)) && QueueOk(Forget(s, gone, kept)) && StoppedOk(Forget(s, gone, kept))
  {
    var t := Forget(s, gone, kept);
    assert forall g :: StatusAt(t, g) == if g in gone then None else StatusAt(s, g);
    forall g | g in gone
      ensures g !in s.waiting
    {
      assert Stopped(StatusAt(s, g));
    }
  }

  lemma ForgetStatuses(s: State, gone: set<Gid>, kept: seq<Gid>)
    requires IndexOk(s) && StatusesOk(s) && StoppedOk(s) && gone <= s.stoppedSet
    ensures StatusesOk(Forget(s, gone, kept))
  {
    var t := Forget(s, gone, kept);
    forall id | id in t.objects
      ensures StatusOk(t, id)
    {
      assert StatusOk(s, id);
      if Registered(s, id) && s.objects[id].gid in gone {
        assert Stopped(StatusAt(s, s.objects[id].gid));
      }
    }
  }

  lemma PruneKeeps(s: State)
    requires Inv(s)
    ensures Inv(Prune(s))
  {
    var kept := Kept(s.stopped, ProtectedSet(s), Excess(s));
    ForgetKeeps(s, (set g | g in s.stopped) - (set g | g in kept), kept);
  }

  /** All but the entry of `gid`, which has just become terminal. */
  ghost predicate StoppedBut(s: State, gid: Gid)
  {
    && NoDuplicates(s.stopped) && gid !in s.stoppedSet && Stopped(StatusAt(s, gid))
    && (forall g :: g in s.stopped <==> g in s.stoppedSet)
    && (forall g :: g != gid ==> (g in s.stoppedSet <==> Stopped(StatusAt(s, g))))
  }

  lemma AppendStoppedKeeps(s: State, gid: Gid)
    requires Core(s) && StoppedBut(s, gid)
    ensures Inv(AppendStopped(s, gid))
  {
    var t := s.(stopped := s.stopped + [gid], stoppedSet := s.stoppedSet + {gid});
    AppendOne(s, t, gid);
    PruneKeeps(t);
  }

  lemma AppendOne(s: State, t: State, gid: Gid)
    requires Core(s) && StoppedBut(s, gid)
    requires t == s.(stopped := s.stopped + [gid], stoppedSet := s.stoppedSet + {gid})
    ensures Inv(t)
  {
    RunsFrame(s, t);
    WakeFrame(s, t);
    forall id | id in t.objects
      ensures StatusOk(t, id) && HandOverOk(t, t.objects[id])
    {
      assert StatusOk(s, id) && HandOverOk(s, s.objects[id]);
    }
    AppendLists(s, t, gid);
  }

  lemma AppendLists(s: State, t: State, gid: Gid)
    requires QueueOk(s) && StoppedBut(s, gid)
    requires t == s.(stopped := s.stopped + [gid], stoppedSet := s.stoppedSet + {gid})
    ensures QueueOk(t) && StoppedOk(t)
  {
    assert forall g :: StatusAt(t, g) == StatusAt(s, g);
    DuplicateFreeAppend(s.stopped, gid);
  }

  lemma PurgeKeeps(s: State)
    requires Inv(s)
    ensures Inv(Purge(s))
  {
    ForgetKeeps(s, set g | g in s.stopped, []);
  }

  lemma RemoveResultKeeps(s: State, id: Id)
    requires Inv(s) && id in s.objects && Registered(s, id)
    ensures Inv(RemoveResult(s, id))
  {
    if Terminal(s.objects[id].status) {
      var gid := s.objects[id].gid;
      assert Stopped(StatusAt(s, gid));
      ForgetKeeps(s, {gid}, Drop(s.stopped, {gid}));
    }
  }

  // ----- the controls -----

  lemma PauseKeeps(s: State, id: Id)
    requires Inv(s) && id in s.objects && Registered(s, id)
    ensures Inv(Pause(s, id))
  {
    if !Terminal(s.objects[id].status) {
      var e := PauseRewrites(s, id);
      PauseLists(s, id, e);
      QuietKeeps(s, Pause(s, id), id, e);
    }
  }

  lemma PauseRewrites(s: State, id: Id) returns (e: Download)
    requires id in s.objects && Registered(s, id) && StatusOk(s, id) && !Terminal(s.objects[id].status)
    ensures Quiet(s, Pause(s, id), id, e) && e.status == Paused
  {
    e := s.objects[id].(cancel := None, status := Paused);
    assert TailOf(s.objects[id].cancel) in Pause(s, id).tails;
  }

  lemma PauseLists(s: State, id: Id, e: Download)
    requires IndexOk(s) && QueueOk(s) && StoppedOk(s) && id in s.objects && Registered(s, id)
    requires !Terminal(s.objects[id].status) && Quiet(s, Pause(s, id), id, e) && e.status == Paused
    ensures IndexOk(Pause(s, id)) && QueueOk(Pause(s, id)) && StoppedOk(Pause(s, id))
  {
    IndexRewrite(s, Pause(s, id), id, e);
  }

  lemma UnpauseKeeps(s: State, id: Id)
    requires Inv(s) && id in s.objects && Registered(s, id)
    ensures Inv(Unpause(s, id))
  {
    if s.objects[id].status == Paused {
      var e := UnpauseRewrites(s, id);
      UnpauseLists(s, id, e);
      QuietKeeps(s, Unpause(s, id), id, e);
    }
  }

  lemma UnpauseRewrites(s: State, id: Id) returns (e: Download)
    requires id in s.objects && Registered(s, id) && StatusOk(s, id) && s.objects[id].status == Paused
    ensures Quiet(s, Unpause(s, id), id, e) && e.status == Waiting
  {
    e := s.objects[id].(status := Waiting);
    assert SignalOnly in Unpause(s, id).tails;
  }

  lemma UnpauseLists(s: State, id: Id, e: Download)
    requires IndexOk(s) && QueueOk(s) && StoppedOk(s) && id in s.objects && Registered(s, id)
    requires s.objects[id].status == Paused && Quiet(s, Unpause(s, id), id, e) && e.status == Waiting
    ensures IndexOk(Unpause(s, id)) && QueueOk(Unpause(s, id)) && StoppedOk(Unpause(s, id))
  {
    assert StatusAt(s, e.gid) == Some(Paused);
    DuplicateFreeAppend(s.waiting, e.gid);
    IndexRewrite(s, Unpause(s, id), id, e);
  }

  lemma RemoveKeeps(s: State, id: Id)
    requires Inv(s) && id in s.objects && Registered(s, id)
    ensures Inv(Remove(s, id))
  {
    var d := s.objects[id];
    if Terminal(d.status) {
      assert StatusAt(s, d.gid) == Some(d.status);
      DropNothing(s.waiting, {d.gid});
      assert Remove(s, id) == s;
    } else {
      var e := d.(cancel := None, status := Removed);
      var t := s.(waiting := Drop(s.waiting, {d.gid}), objects := s.objects[id := e],
                  tails := s.tails + multiset{TailOf(d.cancel)});
      RemoveRewrites(s, t, id, e);
      RemoveLists(s, t, id, e);
      QuietKeeps(s, t, id, e);
      AppendStoppedKeeps(t, d.gid);
    }
  }

  lemma RemoveRewrites(s: State, t: State, id: Id, e: Download)
    requires id in s.objects && Registered(s, id) && StatusOk(s, id)
    requires e == s.objects[id].(cancel := None, status := Removed)
    requires t == s.(waiting := Drop(s.waiting, {e.gid}), objects := s.objects[id := e],
                     tails := s.tails + multiset{TailOf(s.objects[id].cancel)})
    ensures Quiet(s, t, id, e)
  {
    assert TailOf(s.objects[id].cancel) in t.tails;
  }

  lemma RemoveLists(s: State, t: State, id: Id, e: Download)
    requires IndexOk(s) && QueueOk(s) && StoppedOk(s) && id in s.objects && Registered(s, id)
    requires !Terminal(s.objects[id].status) && Quiet(s, t, id, e) && e.status == Removed
    requires t.waiting == Drop(s.waiting, {e.gid}) && t.stopped == s.stopped && t.stoppedSet == s.stoppedSet
    requires t.shutdown == s.shutdown
    ensures IndexOk(t) && QueueOk(t) && StoppedBut(t, e.gid)
  {
    assert StatusAt(s, e.gid) == Some(s.objects[id].status);
    IndexRewrite(s, t, id, e);
  }

  lemma MoveKeeps(s: State, id: Id, pos: int, how: Anchor)
    requires Inv(s) && id in s.objects && Registered(s, id)
    ensures Inv(ChangePosition(s, id, pos, how))
  {
    var t := ChangePosition(s, id, pos, how);
    MoveQueue(s, id, pos, how);
    RequeueKeeps(s, t);
  }

  /** The same gids, once each, in another order. */
  lemma MoveQueue(s: State, id: Id, pos: int, how: Anchor)
    requires id in s.objects && NoDuplicates(s.waiting)
    ensures NoDuplicates(ChangePosition(s, id, pos, how).waiting)
    ensures forall g :: g in ChangePosition(s, id, pos, how).waiting <==> g in s.waiting
  {
    var gid := s.objects[id].gid;
    var i := IndexOf(s.waiting, gid);
    if i < |s.waiting| {
      RemoveAt(s.waiting, i);
    }
  }

  lemma RequeueKeeps(s: State, t: State)
    requires Inv(s) && t == s.(waiting := t.waiting)
    requires NoDuplicates(t.waiting) && forall g :: g in t.waiting <==> g in s.waiting
    ensures Inv(t)
  {
    WakeFrame(s, t);
    StoreKeeps(s, t);
  }

  // ----- restarts -----

  /** An active download goes back to the queue while its run, now canceled, still exits. */
  ghost predicate Requeued(s: State, t: State, id: Id, e: Download)
  {
    && id in s.objects && s.objects[id].status == Active && e.status == Waiting && e.cancel == None
    && Quiet(s, t, id, e)
    && t.waiting == s.waiting + [e.gid] && t.shutdown == s.shutdown
    && t.stopped == s.stopped && t.stoppedSet == s.stoppedSet
  }

  lemma RequeuedKeeps(s: State, t: State, id: Id, e: Download)
    requires Inv(s) && Requeued(s, t, id, e) && Registered(s, id)
    ensures Inv(t)
  {
    RequeuedLists(s, t, id, e);
    QuietKeeps(s, t, id, e);
  }

  lemma RequeuedLists(s: State, t: State, id: Id, e: Download)
    requires IndexOk(s) && QueueOk(s) && StoppedOk(s) && Requeued(s, t, id, e) && Registered(s, id)
    ensures IndexOk(t) && QueueOk(t) && StoppedOk(t)
  {
    assert StatusAt(s, e.gid) == Some(Active);
    DuplicateFreeAppend(s.waiting, e.gid);
    IndexRewrite(s, t, id, e);
  }

  lemma ChangeUriKeeps(s: State, id: Id, changed: bool)
    requires Inv(s) && id in s.objects && Registered(s, id)
    ensures Inv(ChangeUri(s, id, changed))
  {
    if changed && s.objects[id].status == Active {
      assert StatusOk(s, id) && HandOverOk(s, s.objects[id]);
      assert StatusAt(s, s.objects[id].gid) == Some(Active);
      var e := ChangeUriRewrites(s, id);
      RequeuedKeeps(s, ChangeUri(s, id, true), id, e);
    }
  }

  lemma ChangeUriRewrites(s: State, id: Id) returns (e: Download)
    requires id in s.objects && s.objects[id].status == Active && s.objects[id].gid !in s.waiting
    requires StatusOk(s, id) && HandOverOk(s, s.objects[id])
    ensures Requeued(s, ChangeUri(s, id, true), id, e)
  {
    var d := s.objects[id];
    var t := ChangeUri(s, id, true);
    e := d.(status := Waiting, cancel := None, retainAfterRun := d.ctx);
    assert t.objects == s.objects[id := e];
    assert TailOf(d.cancel) in t.tails;
  }

  lemma ChangeOptionKeeps(s: State, id: Id, c: OptionChange)
    requires Inv(s) && id in s.objects && Registered(s, id)
    ensures Inv(ChangeOption(s, id, c))
  {
    var d := s.objects[id];
    if OptionChangeAccepted(s, id, c) {
      assert StatusOk(s, id) && HandOverOk(s, d) && PathOk(d);
      assert StatusAt(s, d.gid) == Some(d.status);
      if Restarts(c) && d.status == Active {
        var e := RestartingChange(s, id, c);
        RequeuedKeeps(s, ChangeOption(s, id, c), id, e);
      } else {
        var e := LiveChange(s, id, c);
        SameStatusKeeps(s, ChangeOption(s, id, c), id, e);
      }
    }
  }

  lemma ChangedOk(s: State, id: Id, c: OptionChange, t: State)
    requires id in s.objects && OptionChangeAccepted(s, id, c)
    requires HandOverOk(s, s.objects[id]) && PathOk(s.objects[id])
    requires t.owner == OwnerAfterChange(s, id, c)
    ensures OwnersKept(s, t) && PathOk(Changed(s, id, c)) && HandOverOk(t, Changed(s, id, c))
  {
    if Transitioning(s.objects[id], c) {
      var keys, gid := c.nextKeys.value, s.objects[id].gid;
      assert t.owner == Grant(s.owner, keys, gid);
    }
  }

  ghost function Restarted(s: State, id: Id, c: OptionChange): State
    requires id in s.objects && OptionChangeAccepted(s, id, c)
  {
    s.(owner := OwnerAfterChange(s, id, c),
       objects := s.objects[id := Changed(s, id, c).(status := Waiting, cancel := None)],
       waiting := s.waiting + [s.objects[id].gid],
       tails := s.tails + multiset{TailOf(s.objects[id].cancel)})
  }

  lemma RestartingChangeIs(s: State, id: Id, c: OptionChange)
    requires id in s.objects && s.objects[id].status == Active && s.objects[id].gid !in s.waiting
    requires s.objects[id].cancel.Some? && OptionChangeAccepted(s, id, c) && Restarts(c)
    ensures ChangeOption(s, id, c) == Restarted(s, id, c)
  {
  }

  lemma RestartingChange(s: State, id: Id, c: OptionChange) returns (e: Download)
    requires id in s.objects && s.objects[id].status == Active && s.objects[id].gid !in s.waiting
    requires StatusOk(s, id) && HandOverOk(s, s.objects[id]) && PathOk(s.objects[id])
    requires OptionChangeAccepted(s, id, c) && Restarts(c)
    ensures Requeued(s, ChangeOption(s, id, c), id, e)
  {
    var t := Restarted(s, id, c);
    e := Changed(s, id, c).(status := Waiting, cancel := None);
    ChangedOk(s, id, c, t);
    assert HandOverOk(t, e) && PathOk(e);
    assert TailOf(s.objects[id].cancel) in t.tails;
    assert Requeued(s, t, id, e);
    RestartingChangeIs(s, id, c);
  }

  lemma LiveChange(s: State, id: Id, c: OptionChange) returns (e: Download)
    requires id in s.objects && OptionChangeAccepted(s, id, c) && !(Restarts(c) && s.objects[id].status == Active)
    requires StatusOk(s, id) && HandOverOk(s, s.objects[id]) && PathOk(s.objects[id])
    ensures Quiet(s, ChangeOption(s, id, c), id, e)
    ensures e.status == s.objects[id].status && SameLists(s, ChangeOption(s, id, c))
  {
    var t := ChangeOption(s, id, c);
    e := Changed(s, id, c);
    assert t == s.(owner := OwnerAfterChange(s, id, c), objects := s.objects[id := e]);
    ChangedOk(s, id, c, t);
  }
}
