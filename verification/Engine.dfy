/**
 The engine as the program keeps it: fields updated in place by critical
 sections, each proved to be the corresponding lifecycle step. That the steps
 keep the lifecycle invariant is proved about the steps.
 */
module Engine {
  import opened Collections
  import opened Machine
  import opened Reservations
  import opened Paths
  import opened Lifecycle
  import LifecycleQueue
  import LifecycleSteps

  /** `base + delta` saturated to `[0, maximum]`, without overflowing for any operands. */
  function ClampedQueuePosition(base: int64, delta: int64, maximum: int64): (r: int64)
    requires 0 <= maximum
    ensures r as int == Clamp((if base < 0 then 0 else base as int) + delta as int, maximum as nat)
  {
    var base := if base < 0 then 0 else base;
    if delta >= 0 then
      if base >= maximum || delta > maximum - base then maximum else base + delta
    else if delta < -base then 0
    else if base + delta > maximum then maximum
    else base + delta
  }

  class Engine {
    var objects: map<Id, Download>
    var downloads: map<Gid, Id>
    var waiting: seq<Gid>
    var active: set<Gid>
    var stopped: seq<Gid>
    var stoppedSet: set<Gid>
    var limits: Limits
    var nextCtx: Ctx
    var shutdown: bool
    const paths: PathReservations

    // The goroutines and the wake-up protocol outside the critical sections.
    ghost var runs: set<Run>
    ghost var wake: bool
    ghost var taken: bool
    ghost var tails: multiset<Tail>
    ghost var canceled: set<Ctx>

    ghost function View(): State
      reads this, paths
    {
      State(objects, downloads, waiting, active, stopped, stoppedSet, runs, paths.pathReservations,
            limits, nextCtx, shutdown, wake, taken, tails, canceled)
    }

    constructor (limits: Limits, paths: PathReservations)
      requires paths.pathReservations == map[]
      ensures View() == Initial(limits) && this.paths == paths
    {
      objects, downloads, waiting, active, stopped, stoppedSet := map[], map[], [], {}, [], {};
      this.limits, nextCtx, shutdown, this.paths := limits, 0, false, paths;
      runs, wake, taken, tails, canceled := {}, false, false, multiset{SignalOnly}, {};
    }

    method FindDownload(query: Gid) returns (r: Lookup)
      ensures r == Find(downloads, query)
      ensures query == "" ==> r == NotFound
      ensures query != "" && query in downloads ==> r == Found(downloads[query])
      ensures query != "" && query !in downloads ==>
                && (r == NotFound <==> forall g :: g in downloads ==> !(query <= g))
                && (r == Ambiguous <==> exists a, b :: a in downloads && b in downloads && a != b && query <= a && query <= b)
                && (r.Found? ==> forall g :: g in downloads && query <= g ==> r.id == downloads[g])
    {
      if query == "" {
        return NotFound;
      }
      if query in downloads {
        return Found(downloads[query]);
      }
      ghost var matches := set g | g in downloads && query <= g;
      var found: Option<Gid> := None;
      var todo := downloads.Keys;
      while todo != {}
        invariant todo <= downloads.Keys
        invariant found.None? ==> matches <= todo
        invariant found.Some? ==> found.value in matches && found.value !in todo && matches <= todo + {found.value}
        decreases todo
      {
        var g :| g in todo;
        todo := todo - {g};
        if query <= g {
          if found.Some? {
            assert {g, found.value} <= matches;
            return Ambiguous;
          }
          found := Some(g);
        }
      }
      assert forall g :: g in downloads && query <= g ==> g in matches;
      if found.None? {
        return NotFound;
      }
      assert matches == {found.value};
      return Found(downloads[found.value]);
    }

    // ----- adding and scheduling -----

    method Add(id: Id, gid: Gid, kind: Kind, place: Place, paused: bool, position: Option<int>) returns (added: bool)
      requires id !in objects
      modifies this
      ensures View() == Lifecycle.Add(old(View()), id, gid, kind, place, paused, position)
      ensures added <==> !old(shutdown) && gid !in old(downloads)
    {
      if shutdown || gid in downloads {
        return false;
      }
      var d := Download(gid, kind, Waiting, None, None, None, None, [], None, NewTarget(place));
      if paused {
        d := d.(status := Paused);
      } else {
        InsertWaiting(gid, position);
      }
      objects := objects[id := d];
      downloads := downloads[gid := id];
      tails := tails + multiset{SignalOnly};
      return true;
    }

    method InsertWaiting(gid: Gid, position: Option<int>)
      modifies `waiting
      ensures waiting == Lifecycle.InsertWaiting(old(waiting), gid, position)
      ensures LifecycleQueue.Enters(old(waiting), gid, position, waiting)
    {
      LifecycleQueue.InsertLands(waiting, gid, position);
      if position.None? || position.value >= |waiting| {
        waiting := waiting + [gid];
        return;
      }
      var pos := if position.value < 0 then 0 else position.value;
      waiting := waiting[..pos] + [gid] + waiting[pos..];
    }

    /** One pass of the scheduler; `cut` is the turn at which the engine's context is found canceled. */
    method Schedule(cut: Option<nat>) returns (starts: seq<Run>)
      modifies this
      ensures View() == Lifecycle.Schedule(old(View()), cut)
      ensures runs == old(runs) + Elements(starts)
    {
      starts := RunTurns(cut, TurnsOf(View(), cut));
      taken := false;
      shutdown := shutdown || cut.Some?;
    }

    method RunTurns(cut: Option<nat>, ghost turns: nat) returns (starts: seq<Run>)
      requires turns == TurnsOf(View(), cut)
      modifies this
      ensures View() == ScheduleLoop(old(View()), turns)
      ensures runs == old(runs) + Elements(starts) && shutdown == old(shutdown)
    {
      ghost var before := View();
      var candidates, turn := |waiting|, 0;
      starts := [];
      while !shutdown && cut != Some(turn) && |active| < limits.maxActive && |waiting| > 0 && candidates > 0
        invariant candidates + turn == |before.waiting| && turn <= turns
        invariant ScheduleLoop(View(), turns - turn) == ScheduleLoop(before, turns)
        invariant shutdown == before.shutdown
        invariant runs == before.runs + Elements(starts)
        decreases candidates
      {
        LifecycleSteps.LoopUnrolls(View(), turns - turn);
        LifecycleSteps.TurnFrame(View());
        var started := Turn();
        assert Elements(starts + started) == Elements(starts) + Elements(started);
        starts := starts + started;
        candidates := candidates - 1;
        turn := turn + 1;
      }
      LifecycleSteps.LoopDone(View(), turns - turn);
    }

    /** One turn of the scheduling loop: the head of the queue rotates, is dropped, or is launched. */
    method Turn() returns (started: seq<Run>)
      requires waiting != []
      modifies this
      ensures View() == ScheduleTurn(old(View()))
      ensures runs == old(runs) + Elements(started)
    {
      var gid := waiting[0];
      waiting := waiting[1..];
      started := [];
      if gid in active {
        waiting := waiting + [gid];
        return;
      }
      if gid !in downloads || downloads[gid] !in objects {
        return;
      }
      if objects[downloads[gid]].status != Waiting {
        return;
      }
      var run := Launch(gid);
      started := [run];
    }

    method Launch(gid: Gid) returns (run: Run)
      requires gid in downloads && downloads[gid] in objects
      modifies this
      ensures View() == Lifecycle.Launch(old(View()), gid)
      ensures runs == old(runs) + {run}
    {
      var id, ctx := downloads[gid], nextCtx;
      var d := objects[id];
      nextCtx := nextCtx + 1;
      objects := objects[id := d.(status := Active, ctx := Some(ctx), cancel := Some(ctx),
                                  target := d.target.(held := d.target.path, since := {d.target.options}))];
      active := active + {gid};
      run := Run(id, ctx);
      runs := runs + {run};
    }

    // ----- controls -----

    method Pause(id: Id) returns (accepted: bool)
      requires id in objects
      modifies this
      ensures View() == Lifecycle.Pause(old(View()), id)
      ensures accepted <==> !Terminal(old(objects)[id].status)
    {
      var d := objects[id];
      if Terminal(d.status) {
        return false;
      }
      waiting := Drop(waiting, {d.gid});
      objects := objects[id := d.(cancel := None, status := Paused)];
      tails := tails + multiset{TailOf(d.cancel)};
      return true;
    }

    method Unpause(id: Id)
      requires id in objects
      modifies this
      ensures View() == Lifecycle.Unpause(old(View()), id)
    {
      var d := objects[id];
      if d.status == Paused {
        objects := objects[id := d.(status := Waiting)];
        waiting := waiting + [d.gid];
        tails := tails + multiset{SignalOnly};
      }
    }

    method Remove(id: Id) returns (accepted: bool)
      requires id in objects && NoDuplicates(stopped) && forall g :: g in stopped <==> g in stoppedSet
      modifies this
      ensures View() == Lifecycle.Remove(old(View()), id)
      ensures accepted <==> !Terminal(old(objects)[id].status)
    {
      var d := objects[id];
      waiting := Drop(waiting, {d.gid});
      if Terminal(d.status) {
        return false;
      }
      objects := objects[id := d.(cancel := None, status := Removed)];
      tails := tails + multiset{TailOf(d.cancel)};
      AppendStopped(d.gid);
      return true;
    }

    /** Positions and lengths are 64-bit numbers, as a queue's length always is. */
    method ChangePosition(id: Id, pos: int64, how: Anchor) returns (moved: Option<nat>)
      requires id in objects && |waiting| <= MAX as int
      modifies `waiting
      ensures View() == Lifecycle.ChangePosition(old(View()), id, pos as int, how)
      ensures moved.Some? <==> objects[id].gid in old(waiting)
      ensures moved.Some? ==> MovedTo(old(waiting), objects[id].gid, pos as int, how, moved.value, waiting)
    {
      moved, waiting := Move(waiting, objects[id].gid, pos, how);
    }

    // ----- stopped results -----

    method AppendStopped(gid: Gid)
      requires NoDuplicates(stopped) && forall g :: g in stopped <==> g in stoppedSet
      modifies this
      ensures View() == Lifecycle.AppendStopped(old(View()), gid)
    {
      if gid !in stoppedSet {
        DuplicateFreeAppend(stopped, gid);
        stopped := stopped + [gid];
        stoppedSet := stoppedSet + {gid};
      }
      PruneStopped();
    }

    method PruneStopped()
      requires NoDuplicates(stopped)
      modifies this
      ensures View() == Prune(old(View()))
    {
      var maxResult := if limits.maxResult < 0 then 0 else limits.maxResult;
      var prunable := CountPrunable();
      var excess := prunable - maxResult;
      if excess <= 0 {
        ghost var s := View();
        KeptAll(stopped, ProtectedSet(s), Excess(s));
        PrunedNothing(s);
        return;
      }
      Compact(excess);
    }

    /** Delete one result unless it is protected or nothing more has to go. */
    method Sweep(gid: Gid, excess: int, ghost before: State, ghost gone: set<Gid>) returns (dropped: bool)
      requires gid in before.stopped && gid !in gone
      requires View() == Without(before, gone)
      modifies this
      ensures dropped <==> excess > 0 && gid !in ProtectedSet(before)
      ensures dropped ==> View() == Without(before, gone + {gid})
      ensures !dropped ==> View() == Without(before, gone)
    {
      SameProtection(before, gone, gid);
      dropped := excess > 0 && !IsProtected(gid);
      if dropped {
        ForgetOne(before, gone, gid);
        stoppedSet := stoppedSet - {gid};
        downloads := downloads - {gid};
      }
    }

    /** The compaction: one sweep that keeps the protected and the newest results in order. */
    method Compact(excess0: int)
      requires NoDuplicates(stopped) && excess0 == Excess(View())
      modifies this
      ensures View() == Prune(old(View()))
    {
      ghost var before := View();
      var kept;
      ghost var gone;
      kept, gone := SweepAll(excess0);
      stopped := kept;
      PrunedIs(before, kept, gone);
    }

    method SweepAll(excess0: int) returns (kept: seq<Gid>, ghost gone: set<Gid>)
      requires NoDuplicates(stopped) && excess0 == Excess(View())
      modifies this
      ensures kept == Kept(old(stopped), ProtectedSet(old(View())), excess0)
      ensures gone == (set g | g in old(stopped)) - (set g | g in kept)
      ensures View() == Without(old(View()), gone)
    {
      ghost var before := View();
      ghost var protected := ProtectedSet(before);
      kept, gone := [], {};
      var excess := excess0;
      SweptNone(before, protected, excess0);
      for i := 0 to |stopped|
        invariant View() == Without(before, gone) && stopped == before.stopped
        invariant Swept(before.stopped, protected, excess0, i, kept, gone, excess)
      {
        var gid := stopped[i];
        SweepOne(before.stopped, protected, excess0, i, kept, gone, excess);
        var dropped := Sweep(gid, excess, before, gone);
        if dropped {
          gone := gone + {gid};
          excess := excess - 1;
        } else {
          kept := kept + [gid];
        }
      }
      SweptAll(before.stopped, protected, excess0, kept, gone, excess);
    }

    predicate IsProtected(gid: Gid)
      reads this
      ensures IsProtected(gid) <==> Protected(View(), gid)
    {
      && limits.keepUnfinished
      && gid in downloads && downloads[gid] in objects
      && objects[downloads[gid]].status == Errored
    }

    method CountPrunable() returns (prunable: nat)
      ensures prunable == |Drop(stopped, ProtectedSet(View()))|
    {
      prunable := 0;
      ghost var protected := ProtectedSet(View());
      for i := 0 to |stopped|
        invariant prunable == |Drop(stopped[..i], protected)|
      {
        DropConcat(stopped[..i], [stopped[i]], protected);
        assert stopped[..i + 1] == stopped[..i] + [stopped[i]];
        assert stopped[i] in protected <==> IsProtected(stopped[i]);
        if !IsProtected(stopped[i]) {
          prunable := prunable + 1;
        }
      }
      assert stopped[..|stopped|] == stopped;
    }

    method PurgeDownloadResult()
      modifies this
      ensures View() == Purge(old(View()))
    {
      ghost var before, gone := View(), {};
      var results := stopped;
      assert before.downloads - {} == before.downloads && before.stoppedSet - {} == before.stoppedSet;
      for i := 0 to |results|
        invariant View() == before.(downloads := before.downloads - gone, stoppedSet := before.stoppedSet - gone)
        invariant forall g :: g in gone <==> g in results[..i]
      {
        ForgetOne(before, gone, results[i]);
        downloads := downloads - {results[i]};
        stoppedSet := stoppedSet - {results[i]};
        gone := gone + {results[i]};
      }
      assert gone == set g | g in before.stopped;
      stopped := [];
    }

    method RemoveDownloadResult(id: Id) returns (accepted: bool)
      requires id in objects
      modifies this
      ensures View() == RemoveResult(old(View()), id)
      ensures accepted <==> Terminal(objects[id].status)
    {
      if !Terminal(objects[id].status) {
        return false;
      }
      var gid := objects[id].gid;
      downloads := downloads - {gid};
      stoppedSet := stoppedSet - {gid};
      stopped := Drop(stopped, {gid});
      return true;
    }

    method ChangeGlobalOption(limits: Limits)
      requires NoDuplicates(stopped)
      modifies this
      ensures View() == ChangeGlobal(old(View()), limits)
    {
      this.limits := limits;
      tails := tails + multiset{SignalOnly};
      PruneStopped();
    }

    // ----- restarts -----

    method RestartActive(id: Id)
      requires id in objects
      modifies this
      ensures View() == Restart(old(View()), id)
    {
      var d := objects[id];
      if d.status == Active {
        objects := objects[id := d.(status := Waiting, cancel := None)];
        if d.gid !in waiting {
          waiting := waiting + [d.gid];
        }
        if d.cancel.Some? {
          tails := tails + multiset{TailOf(d.cancel)};
        }
      }
    }

    method ChangeUri(id: Id, changed: bool)
      requires id in objects
      modifies this
      ensures View() == Lifecycle.ChangeUri(old(View()), id, changed)
    {
      if changed {
        var d := objects[id];
        if d.status == Active {
          objects := objects[id := d.(retainAfterRun := d.ctx)];
        }
        RestartActive(id);
      }
    }

    /** What the paths of the next torrent selection amount to for the lifecycle. */
    ghost function ChangeOf(dir: Option<string>, out: Option<string>, others: bool, hasInfo: bool, nextPaths: seq<Path>): OptionChange
    {
      OptionChange(dir, out, others, hasInfo,
                   if forall i :: 0 <= i < |nextPaths| ==> paths.keyOf(nextPaths[i]).Some?
                   then Some(paths.KeysOf(nextPaths)) else None)
    }

    /** `dir` and `out` are set if the change names them; `others` tells whether another option needs a restart. */
    method ChangeOption(id: Id, dir: Option<string>, out: Option<string>, others: bool, hasInfo: bool, nextPaths: seq<Path>)
      returns (accepted: bool)
      requires id in objects && paths.Valid()
      modifies this, paths
      ensures paths.Valid()
      ensures View() == Lifecycle.ChangeOption(old(View()), id, ChangeOf(dir, out, others, hasInfo, nextPaths))
      ensures accepted <==> OptionChangeAccepted(old(View()), id, ChangeOf(dir, out, others, hasInfo, nextPaths))
    {
      ghost var before, c := View(), ChangeOf(dir, out, others, hasInfo, nextPaths);
      var restart := others || dir.Some? || out.Some?;
      var next := PrepareTransition(id, restart, hasInfo, nextPaths, c);
      if next.None? {
        return false;
      }
      ghost var prepared := View();
      ApplyChange(id, next.value, dir, out, restart);
      ChangeIs(before, prepared, id, c, next.value);
      return true;
    }

    /** Reserve for a transition where one is needed; `None` when the change is refused. */
    method PrepareTransition(id: Id, restart: bool, hasInfo: bool, nextPaths: seq<Path>, ghost c: OptionChange)
      returns (next: Option<Download>)
      requires id in objects && paths.Valid()
      requires c == ChangeOf(c.dir, c.out, c.others, hasInfo, nextPaths) && restart == Restarts(c)
      modifies paths
      ensures paths.Valid()
      ensures next.Some? <==> OptionChangeAccepted(old(View()), id, c)
      ensures next.Some? ==> next.value == Prepared(old(View()), id, c)
                             && paths.pathReservations == OwnerAfterChange(old(View()), id, c)
      ensures next.None? ==> paths.pathReservations == old(paths.pathReservations)
    {
      var d := objects[id];
      if hasInfo && d.kind == Torrent && restart && d.ctx.Some?
         && (d.status == Active || (d.status == Waiting && d.retainAfterRun == d.ctx)) {
        var keys := ReserveNext(d.gid, nextPaths);
        if keys.None? {
          return None;
        }
        d := d.(transitionAfterRun := d.ctx, transitionKeys := keys.value);
      }
      return Some(d);
    }

    method ApplyChange(id: Id, d: Download, dir: Option<string>, out: Option<string>, restart: bool)
      requires id in objects
      modifies this
      ensures View() == Applied(old(View()), id, Revise(d, dir, out, restart), restart)
    {
      objects := objects[id := Revise(d, dir, out, restart)];
      if restart {
        RestartActive(id);
      }
    }

    /** Add the next selection to what the gid holds, or refuse and change nothing. */
    method ReserveNext(gid: Gid, nextPaths: seq<Path>) returns (keys: Option<seq<Key>>)
      requires paths.Valid()
      modifies paths
      ensures paths.Valid()
      ensures keys.Some? <==> (forall i :: 0 <= i < |nextPaths| ==> paths.keyOf(nextPaths[i]).Some?)
                              && Reservable(old(paths.pathReservations), paths.KeysOf(nextPaths), gid)
      ensures keys.Some? ==> keys.value == paths.KeysOf(nextPaths)
                             && Update(old(paths.pathReservations), keys.value, gid, false) == Some(paths.pathReservations)
      ensures keys.None? ==> paths.pathReservations == old(paths.pathReservations)
    {
      var resolved := paths.ResolveKeys(nextPaths);
      if resolved.Failed? {
        return None;
      }
      var ok := paths.UpdateKeys(resolved.value, gid, false);
      return if ok then Some(resolved.value) else None;
    }

    // ----- a run publishes its path -----

    /** The path fields of the metadata a run publishes: the path, and its parts as directory and name. */
    method SetPath(r: Run, chosen: Chosen)
      requires r.id in objects && Publishable(objects[r.id], chosen)
      modifies this
      ensures View() == RunPublishes(old(View()), r, chosen)
    {
      var d := objects[r.id];
      var shown := Place(DirOf(PathOf(chosen)), BaseOf(PathOf(chosen)));
      objects := objects[r.id := d.(target := d.target.(path := Some(chosen), shown := shown))];
    }

    // ----- the end of a run -----

    method FinishDownload(r: Run, outcome: RunOutcome)
      requires r.id in objects && paths.Valid()
      requires NoDuplicates(stopped) && forall g :: g in stopped <==> g in stoppedSet
      requires objects[r.id].transitionAfterRun == Some(r.ctx) ==> NoDuplicates(objects[r.id].transitionKeys)
      modifies this, paths
      ensures paths.Valid() && View() == Finish(old(View()), r, outcome)
    {
      if objects[r.id].ctx != Some(r.ctx) {
        runs := runs - {r};
        return;
      }
      FinishCurrent(r, outcome);
    }

    method FinishCurrent(r: Run, outcome: RunOutcome)
      requires r.id in objects && objects[r.id].ctx == Some(r.ctx) && paths.Valid()
      requires NoDuplicates(stopped) && forall g :: g in stopped <==> g in stoppedSet
      requires objects[r.id].transitionAfterRun == Some(r.ctx) ==> NoDuplicates(objects[r.id].transitionKeys)
      modifies this, paths
      ensures paths.Valid() && View() == Finish(old(View()), r, outcome)
    {
      ghost var before := View();
      var d := objects[r.id];
      var retain := CollapsePaths(d, r.ctx);
      ghost var owner1 := paths.pathReservations;
      EndRun(r, outcome);
      if !retain {
        paths.ReleaseOutputPaths(d.gid);
      }
      assert OwnersThrough(before, r, owner1, paths.pathReservations);
      FinishSplits(before, owner1, paths.pathReservations, r, outcome);
    }

    method EndRun(r: Run, outcome: RunOutcome)
      requires r.id in objects && NoDuplicates(stopped) && forall g :: g in stopped <==> g in stoppedSet
      modifies this
      ensures View() == RunEnded(old(View()), r, outcome)
    {
      var d := objects[r.id];
      Settle(r, outcome);
      if d.status == Active && Terminal(objects[r.id].status) {
        AppendStopped(d.gid);
      }
    }

    method Settle(r: Run, outcome: RunOutcome)
      requires r.id in objects
      modifies this
      ensures View() == Settled(old(View()), r, outcome)
    {
      var d := objects[r.id];
      active := active - {d.gid};
      runs := runs - {r};
      objects := objects[r.id := EndOf(d, r.ctx, outcome, shutdown)];
      tails := tails + multiset{TailOf(if d.status == Active then d.cancel else None)};
    }

    /** Collapse a pending transition; tell whether the gid keeps what it then holds. */
    method CollapsePaths(d: Download, ctx: Ctx) returns (retain: bool)
      requires paths.Valid() && (d.transitionAfterRun == Some(ctx) ==> NoDuplicates(d.transitionKeys))
      modifies paths
      ensures paths.Valid()
      ensures var c := Collapse(old(View()), d, ctx);
              && (retain <==> c.Some? && Retains(d, ctx))
              && paths.pathReservations == if c.Some? then c.value else old(paths.pathReservations)
    {
      retain := d.status == Waiting && d.retainAfterRun == Some(ctx);
      if d.transitionAfterRun == Some(ctx) {
        var replaced := paths.UpdateKeys(d.transitionKeys, d.gid, true);
        retain := retain && replaced;
      }
    }
  }

  /** The gid stands where it should, and the others stand in their order. */
  ghost predicate MovedTo(queue: seq<Gid>, gid: Gid, pos: int, how: Anchor, at: nat, next: seq<Gid>)
  {
    && Lands(IndexOf(queue, gid), |queue|, pos, how, at)
    && |next| == |queue| && next[at] == gid && Drop(next, {gid}) == Drop(queue, {gid})
  }

  /** Look the gid up in the queue and move it. */
  method Move(queue: seq<Gid>, gid: Gid, pos: int64, how: Anchor) returns (moved: Option<nat>, next: seq<Gid>)
    requires |queue| <= MAX as int
    ensures next == Moved(queue, gid, pos as int, how)
    ensures moved.Some? <==> gid in queue
    ensures moved.Some? ==> MovedTo(queue, gid, pos as int, how, moved.value, next)
  {
    var i := IndexOf(queue, gid);
    if i == |queue| {
      return None, queue;
    }
    var dst;
    dst, next := MoveTo(queue, i, pos, how);
    LifecycleQueue.MovedIs(queue, gid, pos as int, how, i, dst, next);
    moved := Some(dst);
  }

  /** Take the element at `i` out of the queue and put it where `pos` and `how` say. */
  method MoveTo(queue: seq<Gid>, i: nat, pos: int64, how: Anchor) returns (dst: nat, next: seq<Gid>)
    requires i < |queue| <= MAX as int
    ensures dst == Destination(i, |queue| - 1, pos as int, how) && dst < |queue| == |next|
    ensures next == Insert(queue[..i] + queue[i + 1..], dst, queue[i])
    ensures Lands(i, |queue|, pos as int, how, dst) && next[dst] == queue[i] && Drop(next, {queue[i]}) == Drop(queue, {queue[i]})
  {
    var rest := queue[..i] + queue[i + 1..];
    var length := |rest| as int64;
    var wanted := match how
      case PosSet => pos
      case PosCur => ClampedQueuePosition(i as int64, pos, length)
      case PosEnd => ClampedQueuePosition(length + 1, pos, length);
    if wanted < 0 {
      wanted := 0;
    }
    if wanted > length {
      wanted := length;
    }
    dst := wanted as int;
    next := rest[..dst] + [queue[i]] + rest[dst..];
    DropMoved(queue, i, dst);
  }

  /** The turns a pass may take. */
  ghost function TurnsOf(s: State, cut: Option<nat>): nat
  {
    if s.shutdown then 0 else if cut.Some? && cut.value < |s.waiting| then cut.value else |s.waiting|
  }

  /** The path and retention fields after an accepted option change. */
  function Revise(d: Download, dir: Option<string>, out: Option<string>, restart: bool): Download
  {
    var next := Place(if dir.Some? then dir.value else d.target.options.dir, if out.Some? then out.value else d.target.options.out);
    var moved := d.kind == Uri
                 && ((dir.Some? && d.target.shown.dir != next.dir) || (out.Some? && d.target.shown.out != next.out));
    var d1 := d.(target := d.target.(options := next, shown := next, since := d.target.since + {next}));
    var d2 := if !moved then d1
              else d1.(target := d1.target.(path := None), pathResetAfterRun := if d.ctx.Some? then d.ctx else d.pathResetAfterRun);
    if restart && d.status == Active && (d.kind == Torrent || !moved) then d2.(retainAfterRun := d.ctx) else d2
  }

  /** The download with its transition recorded, when the change needs one. */
  ghost function Prepared(s: State, id: Id, c: OptionChange): Download
    requires id in s.objects && OptionChangeAccepted(s, id, c)
  {
    var d := s.objects[id];
    if Transitioning(d, c) then d.(transitionAfterRun := d.ctx, transitionKeys := c.nextKeys.value) else d
  }

  ghost function Applied(s: State, id: Id, d: Download, restart: bool): State
  {
    var s1 := s.(objects := s.objects[id := d]);
    if restart then Restart(s1, id) else s1
  }

  lemma ReviseIs(s: State, id: Id, c: OptionChange, d: Download)
    requires id in s.objects && OptionChangeAccepted(s, id, c) && d == Prepared(s, id, c)
    ensures Revise(d, c.dir, c.out, Restarts(c)) == Changed(s, id, c)
  {
    assert Revise(d, c.dir, c.out, Restarts(c)).target == NextTarget(s.objects[id], c);
  }

  lemma ChangeIs(s: State, prepared: State, id: Id, c: OptionChange, d: Download)
    requires id in s.objects && OptionChangeAccepted(s, id, c)
    requires prepared == s.(owner := OwnerAfterChange(s, id, c)) && d == Prepared(s, id, c)
    ensures Applied(prepared, id, Revise(d, c.dir, c.out, Restarts(c)), Restarts(c)) == ChangeOption(s, id, c)
  {
    ReviseIs(s, id, c, d);
  }

  /** The finisher clears the marks that name the run it ends and settles an active status. */
  function EndOf(d: Download, ctx: Ctx, outcome: RunOutcome, shutdown: bool): (e: Download)
    ensures e == Ended(d, ctx, outcome, shutdown)
  {
    var d1 := if d.retainAfterRun == Some(ctx) then d.(retainAfterRun := None) else d;
    var d2 := if d.pathResetAfterRun == Some(ctx) then d1.(target := d1.target.(path := None, shown := d1.target.options), pathResetAfterRun := None)
              else d1;
    var d3 := if d.transitionAfterRun == Some(ctx) then d2.(transitionAfterRun := None, transitionKeys := []) else d2;
    var d4 := d3.(ctx := None);
    if d.status != Active then d4
    else d4.(cancel := None, status := if outcome == RanToEnd then Complete
                                       else if shutdown then Waiting
                                       else if outcome == Canceled then Paused else Errored)
  }

  ghost function Settled(s: State, r: Run, outcome: RunOutcome): State
    requires r.id in s.objects
  {
    var d := s.objects[r.id];
    s.(active := s.active - {d.gid}, runs := s.runs - {r},
       objects := s.objects[r.id := Ended(d, r.ctx, outcome, s.shutdown)],
       tails := s.tails + multiset{TailOf(if d.status == Active then d.cancel else None)})
  }

  /** The end of a run apart from the reservations. */
  ghost function RunEnded(s: State, r: Run, outcome: RunOutcome): State
    requires r.id in s.objects
  {
    var d := s.objects[r.id];
    if d.status == Active && Terminal(EndStatus(d, outcome, s.shutdown))
    then Lifecycle.AppendStopped(Settled(s, r, outcome), d.gid) else Settled(s, r, outcome)
  }

  lemma EndIgnoresOwner(s: State, owner: map<Key, Gid>, r: Run, outcome: RunOutcome)
    requires r.id in s.objects
    ensures RunEnded(s.(owner := owner), r, outcome) == RunEnded(s, r, outcome).(owner := owner)
  {
    AppendIgnoresOwner(Settled(s, r, outcome), owner, s.objects[r.id].gid);
  }

  ghost predicate OwnersThrough(s: State, r: Run, owner1: map<Key, Gid>, owner2: map<Key, Gid>)
    requires r.id in s.objects
  {
    var d := s.objects[r.id];
    var c := Collapse(s, d, r.ctx);
    && owner1 == (if c.Some? then c.value else s.owner)
    && owner2 == (if c.Some? && Retains(d, r.ctx) then owner1 else Release(owner1, d.gid))
  }

  lemma FinishEnds(s: State, owner1: map<Key, Gid>, owner2: map<Key, Gid>, r: Run, outcome: RunOutcome)
    requires r.id in s.objects && s.objects[r.id].ctx == Some(r.ctx) && OwnersThrough(s, r, owner1, owner2)
    ensures Finish(s, r, outcome) == RunEnded(s.(owner := owner2), r, outcome)
  {
  }

  /** Settling the status does not look at the reservations, so the two halves of a finish commute. */
  lemma FinishSplits(s: State, owner1: map<Key, Gid>, owner2: map<Key, Gid>, r: Run, outcome: RunOutcome)
    requires r.id in s.objects && s.objects[r.id].ctx == Some(r.ctx) && OwnersThrough(s, r, owner1, owner2)
    ensures RunEnded(s.(owner := owner1), r, outcome).(owner := owner2) == Finish(s, r, outcome)
  {
    EndIgnoresOwner(s, owner1, r, outcome);
    EndIgnoresOwner(s, owner2, r, outcome);
    FinishEnds(s, owner1, owner2, r, outcome);
  }

  lemma AppendIgnoresOwner(s: State, owner: map<Key, Gid>, gid: Gid)
    ensures Lifecycle.AppendStopped(s.(owner := owner), gid) == Lifecycle.AppendStopped(s, gid).(owner := owner)
  {
    var s1 := if gid in s.stoppedSet then s else s.(stopped := s.stopped + [gid], stoppedSet := s.stoppedSet + {gid});
    assert ProtectedSet(s1.(owner := owner)) == ProtectedSet(s1);
  }

  lemma {:induction false} KeptAll(stopped: seq<Gid>, protected: set<Gid>, excess: int)
    requires excess <= 0
    ensures Kept(stopped, protected, excess) == stopped
  {
    if stopped != [] {
      KeptAll(stopped[1..], protected, excess);
    }
  }

  lemma PrunedNothing(s: State)
    requires Kept(s.stopped, ProtectedSet(s), Excess(s)) == s.stopped
    ensures Prune(s) == s
  {
    assert (set g | g in s.stopped) - (set g | g in s.stopped) == {};
    assert s.downloads - {} == s.downloads && s.stoppedSet - {} == s.stoppedSet;
  }

  /** The state with some results forgotten and the stopped list not yet compacted. */
  ghost function Without(s: State, gone: set<Gid>): State
  {
    s.(downloads := s.downloads - gone, stoppedSet := s.stoppedSet - gone)
  }

  lemma PrunedIs(s: State, kept: seq<Gid>, gone: set<Gid>)
    requires kept == Kept(s.stopped, ProtectedSet(s), Excess(s)) && gone == (set g | g in s.stopped) - (set g | g in kept)
    ensures Prune(s) == Without(s, gone).(stopped := kept)
  {
  }

  /** Deleting other results does not change whether this one is protected. */
  lemma SameProtection(s: State, gone: set<Gid>, gid: Gid)
    requires gid !in gone && gid in s.stopped
    ensures Protected(s.(downloads := s.downloads - gone, stoppedSet := s.stoppedSet - gone), gid) <==> gid in ProtectedSet(s)
  {
  }

  /** The sweep after `i` results: what is kept, what is gone, and how many still have to go. */
  ghost predicate Swept(stopped: seq<Gid>, protected: set<Gid>, excess0: int,
                        i: nat, kept: seq<Gid>, gone: set<Gid>, excess: int)
  {
    && i <= |stopped|
    && kept + Kept(stopped[i..], protected, excess) == Kept(stopped, protected, excess0)
    && gone !! Elements(kept) && gone + Elements(kept) == Elements(stopped[..i])
  }

  lemma SweepOne(stopped: seq<Gid>, protected: set<Gid>, excess0: int,
                 i: nat, kept: seq<Gid>, gone: set<Gid>, excess: int)
    requires NoDuplicates(stopped) && i < |stopped| && Swept(stopped, protected, excess0, i, kept, gone, excess)
    ensures stopped[i] !in gone
    ensures if excess > 0 && stopped[i] !in protected
            then Swept(stopped, protected, excess0, i + 1, kept, gone + {stopped[i]}, excess - 1)
            else Swept(stopped, protected, excess0, i + 1, kept + [stopped[i]], gone, excess)
  {
    var gid := stopped[i];
    assert stopped[i..][1..] == stopped[i + 1..];
    assert stopped[..i + 1] == stopped[..i] + [gid] && gid !in stopped[..i];
    assert Elements(stopped[..i + 1]) == Elements(stopped[..i]) + {gid};
    assert Elements(kept + [gid]) == Elements(kept) + {gid};
    if !(excess > 0 && gid !in protected) {
      assert kept + ([gid] + Kept(stopped[i + 1..], protected, excess)) == (kept + [gid]) + Kept(stopped[i + 1..], protected, excess);
    }
  }

  lemma SweptAll(stopped: seq<Gid>, protected: set<Gid>, excess0: int, kept: seq<Gid>, gone: set<Gid>, excess: int)
    requires Swept(stopped, protected, excess0, |stopped|, kept, gone, excess)
    ensures kept == Kept(stopped, protected, excess0)
    ensures gone == (set g | g in stopped) - (set g | g in kept)
  {
    assert stopped[|stopped|..] == [] && stopped[..|stopped|] == stopped;
  }

  lemma SweptNone(s: State, protected: set<Gid>, excess0: int)
    ensures Swept(s.stopped, protected, excess0, 0, [], {}, excess0)
    ensures s.downloads - {} == s.downloads && s.stoppedSet - {} == s.stoppedSet
  {
    assert s.stopped[0..] == s.stopped && s.stopped[..0] == [];
  }

  lemma ForgetOne(s: State, gone: set<Gid>, gid: Gid)
    ensures s.downloads - (gone + {gid}) == (s.downloads - gone) - {gid}
    ensures s.stoppedSet - (gone + {gid}) == (s.stoppedSet - gone) - {gid}
  {
  }
}