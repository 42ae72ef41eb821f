/**
 The download lifecycle of one engine as a transition system.

 Every critical section under the engine's mutex is one step. What a caller does
 after leaving it (cancel the old run, send the wake token) is kept as a `Tail`
 and done by later steps, so it interleaves with everything else. `runs` holds
 the goroutines that were launched and have not finished.
 */
module Lifecycle {
  import opened Collections
  import opened Reservations
  import opened Paths

  type Id = nat
  type Ctx = nat

  datatype Status = Active | Waiting | Paused | Errored | Complete | Removed
  datatype Kind = Uri | Torrent

  predicate Terminal(s: Status) { s == Complete || s == Errored || s == Removed }

  /**
   One download object. The fields that end in `AfterRun` name the run whose end
   they wait for.
   */
  datatype Download = Download(
    gid: Gid, kind: Kind, status: Status,
    ctx: Option<Ctx>, cancel: Option<Ctx>,
    retainAfterRun: Option<Ctx>,
    transitionAfterRun: Option<Ctx>, transitionKeys: seq<Key>,
    pathResetAfterRun: Option<Ctx>, target: Target)

  /**
   Where a download goes. `options` is the pair of options in force and `shown` the
   pair of fields that status queries show: publishing a path overwrites it with
   the parts of the path. `path` is the published path; `held` is what it was when
   the current run was launched and `since` the options in force since then, one of
   which that run has read.
   */
  datatype Target = Target(options: Place, shown: Place, path: Option<Chosen>, held: Option<Chosen>, since: set<Place>)

  datatype Run = Run(id: Id, ctx: Ctx)

  /** What is left to do after a critical section. */
  datatype Tail = CancelThenSignal(ctx: Ctx) | SignalOnly

  datatype Limits = Limits(maxActive: int, maxResult: int, keepUnfinished: bool)

  /**
   `objects` is the store of all download objects, `downloads` the engine's index
   of the current ones: an object can leave the index while its run still exits.
   */
  datatype State = State(
    objects: map<Id, Download>, downloads: map<Gid, Id>,
    waiting: seq<Gid>, active: set<Gid>,
    stopped: seq<Gid>, stoppedSet: set<Gid>,
    runs: set<Run>, owner: map<Key, Gid>, limits: Limits, nextCtx: Ctx,
    shutdown: bool, wake: bool, taken: bool, tails: multiset<Tail>, canceled: set<Ctx>)

  ghost function Initial(limits: Limits): State
  {
    State(map[], map[], [], {}, [], {}, {}, map[], limits, 0, false, false, false, multiset{SignalOnly}, {})
  }

  function StatusOf(s: State, g: Gid): Status
    requires g in s.downloads && s.downloads[g] in s.objects
  {
    s.objects[s.downloads[g]].status
  }

  ghost function TailOf(cancel: Option<Ctx>): Tail
  {
    if cancel.Some? then CancelThenSignal(cancel.value) else SignalOnly
  }

  // ----- looking a download up -----

  datatype Lookup = Found(id: Id) | NotFound | Ambiguous

  /** Exact gid first, otherwise the only download whose gid starts with the query. */
  ghost function Find(downloads: map<Gid, Id>, query: Gid): (r: Lookup)
    ensures r.Found? ==> exists g :: g in downloads && downloads[g] == r.id && query <= g
    ensures query in downloads && query != "" ==> r == Found(downloads[query])
  {
    if query == "" then NotFound
    else if query in downloads then Found(downloads[query])
    else
      var matches := set g | g in downloads && query <= g;
      if matches == {} then NotFound
      else var g :| g in matches;
           if matches == {g} then Found(downloads[g]) else Ambiguous
  }

  // ----- adding -----

  ghost function InsertWaiting(waiting: seq<Gid>, gid: Gid, position: Option<int>): seq<Gid>
  {
    if position.None? || position.value >= |waiting| then waiting + [gid]
    else Insert(waiting, if position.value < 0 then 0 else position.value, gid)
  }

  function NewTarget(place: Place): Target
  {
    Target(place, place, None, None, {})
  }

  ghost function NewDownload(gid: Gid, kind: Kind, place: Place, paused: bool): Download
  {
    Download(gid, kind, if paused then Paused else Waiting, None, None, None, None, [], None, NewTarget(place))
  }

  ghost function Add(s: State, id: Id, gid: Gid, kind: Kind, place: Place, paused: bool, position: Option<int>): State
  {
    if s.shutdown || gid in s.downloads || id in s.objects then s
    else s.(objects := s.objects[id := NewDownload(gid, kind, place, paused)],
            downloads := s.downloads[gid := id],
            waiting := if paused then s.waiting else InsertWaiting(s.waiting, gid, position),
            tails := s.tails + multiset{SignalOnly})
  }

  // ----- the scheduler -----

  /** One turn of the scheduling loop on a non-empty queue. */
  ghost function ScheduleTurn(s: State): State
    requires s.waiting != []
  {
    var gid := s.waiting[0];
    var s1 := s.(waiting := s.waiting[1..]);
    if gid in s.active then s1.(waiting := s1.waiting + [gid])
    else if gid !in s.downloads || s.downloads[gid] !in s.objects || StatusOf(s, gid) != Waiting then s1
    else Launch(s1, gid)
  }

  ghost function Launch(s: State, gid: Gid): State
    requires gid in s.downloads && s.downloads[gid] in s.objects
  {
    var id := s.downloads[gid];
    var d := s.objects[id];
    s.(objects := s.objects[id := d.(status := Active, ctx := Some(s.nextCtx), cancel := Some(s.nextCtx),
                                     target := d.target.(held := d.target.path, since := {d.target.options}))],
       active := s.active + {gid},
       runs := s.runs + {Run(id, s.nextCtx)},
       nextCtx := s.nextCtx + 1)
  }

  /** The loop: at most `candidates` turns, while a slot is free and the queue is not empty. */
  ghost function ScheduleLoop(s: State, candidates: nat): State
    decreases candidates
  {
    if candidates == 0 || s.waiting == [] || |s.active| >= s.limits.maxActive then s
    else ScheduleLoop(ScheduleTurn(s), candidates - 1)
  }

  /** A scheduler pass; `cut` is the turn at which it saw the engine shut down. */
  ghost function Schedule(s: State, cut: Option<nat>): State
  {
    var turns := if s.shutdown then 0
                 else if cut.Some? && cut.value < |s.waiting| then cut.value else |s.waiting|;
    ScheduleLoop(s, turns).(taken := false, shutdown := s.shutdown || cut.Some?)
  }

  // ----- stopped results -----

  ghost predicate Protected(s: State, g: Gid)
  {
    && s.limits.keepUnfinished
    && g in s.downloads && s.downloads[g] in s.objects
    && StatusOf(s, g) == Errored
  }

  ghost function ProtectedSet(s: State): set<Gid>
  {
    set g | g in s.stopped && Protected(s, g)
  }

  /** What remains of `stopped` when the first `excess` unprotected results go. */
  ghost function Kept(stopped: seq<Gid>, protected: set<Gid>, excess: int): (kept: seq<Gid>)
    ensures forall g :: g in kept ==> g in stopped
    ensures NoDuplicates(stopped) ==> NoDuplicates(kept)
  {
    if stopped == [] then []
    else
      assert stopped == [stopped[0]] + stopped[1..];
      assert NoDuplicates(stopped) ==> NoDuplicates(stopped[1..]) && stopped[0] !in stopped[1..];
      if excess > 0 && stopped[0] !in protected then Kept(stopped[1..], protected, excess - 1)
      else [stopped[0]] + Kept(stopped[1..], protected, excess)
  }

  ghost function Excess(s: State): int
  {
    |Drop(s.stopped, ProtectedSet(s))| - (if s.limits.maxResult < 0 then 0 else s.limits.maxResult)
  }

  ghost function Prune(s: State): State
  {
    var kept := Kept(s.stopped, ProtectedSet(s), Excess(s));
    Forget(s, (set g | g in s.stopped) - (set g | g in kept), kept)
  }

  /** Results leave the index, the stopped set and the stopped list. */
  ghost function Forget(s: State, gone: set<Gid>, kept: seq<Gid>): State
  {
    s.(stopped := kept, stoppedSet := s.stoppedSet - gone, downloads := s.downloads - gone)
  }

  ghost function AppendStopped(s: State, gid: Gid): State
  {
    Prune(if gid in s.stoppedSet then s
          else s.(stopped := s.stopped + [gid], stoppedSet := s.stoppedSet + {gid}))
  }

  ghost function Purge(s: State): State
  {
    Forget(s, set g | g in s.stopped, [])
  }

  ghost function RemoveResult(s: State, id: Id): State
    requires id in s.objects
  {
    var gid := s.objects[id].gid;
    if !Terminal(s.objects[id].status) then s else Forget(s, {gid}, Drop(s.stopped, {gid}))
  }

  // ----- pausing, resuming, removing -----

  ghost function Pause(s: State, id: Id): State
    requires id in s.objects
  {
    var d := s.objects[id];
    if Terminal(d.status) then s
    else s.(waiting := Drop(s.waiting, {d.gid}),
            objects := s.objects[id := d.(cancel := None, status := Paused)],
            tails := s.tails + multiset{TailOf(d.cancel)})
  }

  ghost function Unpause(s: State, id: Id): State
    requires id in s.objects
  {
    var d := s.objects[id];
    if d.status != Paused then s
    else s.(objects := s.objects[id := d.(status := Waiting)],
            waiting := s.waiting + [d.gid],
            tails := s.tails + multiset{SignalOnly})
  }

  ghost function Remove(s: State, id: Id): State
    requires id in s.objects
  {
    var d := s.objects[id];
    var s1 := s.(waiting := Drop(s.waiting, {d.gid}));
    if Terminal(d.status) then s1
    else AppendStopped(s1.(objects := s.objects[id := d.(cancel := None, status := Removed)],
                           tails := s.tails + multiset{TailOf(d.cancel)}), d.gid)
  }

  // ----- moving in the queue -----

  datatype Anchor = PosSet | PosCur | PosEnd

  /** `base + delta` clamped to `[0, maximum]`. */
  function Clamp(position: int, maximum: nat): nat
  {
    if position < 0 then 0 else if position > maximum then maximum else position
  }

  ghost function Destination(index: nat, length: nat, pos: int, how: Anchor): nat
  {
    match how
    case PosSet => Clamp(pos, length)
    case PosCur => Clamp(index + pos, length)
    case PosEnd => Clamp(length + 1 + pos, length)
  }

  /**
   Where an element of a queue of `n` lands, coming from index `i`: at the wanted
   index, counted from the front, from where it was, or back from the length; and at
   the nearer end when the queue has no such index.
   */
  ghost predicate Lands(i: nat, n: nat, pos: int, how: Anchor, at: nat)
  {
    && at < n
    && (how == PosSet && 0 <= pos < n ==> at == pos)
    && (how == PosCur && 0 <= i + pos < n ==> at == i + pos)
    && (how == PosEnd && 0 <= n + pos < n ==> at == n + pos)
    && ((how == PosSet && pos < 0) || (how == PosCur && i + pos < 0) || (how == PosEnd && n + pos < 0) ==> at == 0)
    && ((how == PosSet && pos >= n) || (how == PosCur && i + pos >= n) || (how == PosEnd && n + pos >= n) ==> at == n - 1)
  }

  ghost function ChangePosition(s: State, id: Id, pos: int, how: Anchor): State
    requires id in s.objects
  {
    s.(waiting := Moved(s.waiting, s.objects[id].gid, pos, how))
  }

  ghost function Moved(queue: seq<Gid>, gid: Gid, pos: int, how: Anchor): seq<Gid>
  {
    var i := IndexOf(queue, gid);
    if i == |queue| then queue
    else
      var rest := queue[..i] + queue[i + 1..];
      Insert(rest, Destination(i, |rest|, pos, how), gid)
  }

  // ----- restarts -----

  /** Queue an active download behind its own run, which is told to stop. */
  ghost function Restart(s: State, id: Id): State
    requires id in s.objects
  {
    var d := s.objects[id];
    if d.status != Active then s
    else s.(objects := s.objects[id := d.(status := Waiting, cancel := None)],
            waiting := if d.gid in s.waiting then s.waiting else s.waiting + [d.gid],
            tails := if d.cancel.Some? then s.tails + multiset{TailOf(d.cancel)} else s.tails)
  }

  /** A change of the source URIs; a change that alters nothing does not restart. */
  ghost function ChangeUri(s: State, id: Id, changed: bool): State
    requires id in s.objects
  {
    var d := s.objects[id];
    if !changed then s
    else Restart(if d.status == Active then s.(objects := s.objects[id := d.(retainAfterRun := d.ctx)]) else s, id)
  }

  /**
   What an option change amounts to: the directory and the name it sets, if it
   does, whether one of its other options needs a restart, whether torrent
   metadata is known, and the keys of the next torrent selection (`None` when one
   of its paths has no key).
   */
  datatype OptionChange = OptionChange(
    dir: Option<string>, out: Option<string>, others: bool, hasInfo: bool, nextKeys: Option<seq<Key>>)

  /** A change of directory or name always needs one. */
  predicate Restarts(c: OptionChange)
  {
    c.others || c.dir.Some? || c.out.Some?
  }

  /** The directory and name options after the change. */
  function NextPlace(t: Target, c: OptionChange): Place
  {
    Place(if c.dir.Some? then c.dir.value else t.options.dir, if c.out.Some? then c.out.value else t.options.out)
  }

  /** A change of place as the program notices it: by comparing what is set with what is shown. */
  predicate PathChanged(d: Download, c: OptionChange)
  {
    && d.kind == Uri
    && ((c.dir.Some? && c.dir.value != d.target.shown.dir) || (c.out.Some? && c.out.value != d.target.shown.out))
  }

  function NextTarget(d: Download, c: OptionChange): Target
  {
    var next := NextPlace(d.target, c);
    d.target.(options := next, shown := next, path := if PathChanged(d, c) then None else d.target.path,
              since := d.target.since + {next})
  }

  ghost predicate Transitioning(d: Download, c: OptionChange)
  {
    && c.hasInfo && d.kind == Torrent && Restarts(c) && d.ctx.Some?
    && (d.status == Active || (d.status == Waiting && d.retainAfterRun == d.ctx))
  }

  ghost predicate OptionChangeAccepted(s: State, id: Id, c: OptionChange)
    requires id in s.objects
  {
    var d := s.objects[id];
    Transitioning(d, c) ==> c.nextKeys.Some? && Reservable(s.owner, c.nextKeys.value, d.gid)
  }

  /** The hand-over and path fields after an accepted change. */
  ghost function Changed(s: State, id: Id, c: OptionChange): Download
    requires id in s.objects && OptionChangeAccepted(s, id, c)
  {
    var d := s.objects[id];
    var moving := Transitioning(d, c);
    var moved := PathChanged(d, c);
    d.(transitionAfterRun := if moving then d.ctx else d.transitionAfterRun,
       transitionKeys := if moving then c.nextKeys.value else d.transitionKeys,
       target := NextTarget(d, c),
       pathResetAfterRun := if moved && d.ctx.Some? then d.ctx else d.pathResetAfterRun,
       retainAfterRun := if Restarts(c) && d.status == Active && (d.kind == Torrent || !moved)
                         then d.ctx else d.retainAfterRun)
  }

  ghost function OwnerAfterChange(s: State, id: Id, c: OptionChange): map<Key, Gid>
    requires id in s.objects && OptionChangeAccepted(s, id, c)
  {
    if Transitioning(s.objects[id], c) then Update(s.owner, c.nextKeys.value, s.objects[id].gid, false).value
    else s.owner
  }

  ghost function ChangeOption(s: State, id: Id, c: OptionChange): State
    requires id in s.objects
  {
    if !OptionChangeAccepted(s, id, c) then s
    else
      var s1 := s.(owner := OwnerAfterChange(s, id, c), objects := s.objects[id := Changed(s, id, c)]);
      if Restarts(c) then Restart(s1, id) else s1
  }

  // ----- the end of a run -----

  datatype RunOutcome = RanToEnd | Canceled | Broke

  ghost function EndStatus(d: Download, outcome: RunOutcome, shutdown: bool): Status
  {
    if d.status != Active then d.status
    else if outcome == RanToEnd then Complete
    else if shutdown then Waiting
    else if outcome == Canceled then Paused
    else Errored
  }

  /** The reservation set of a pending transition replaces the gid's set. */
  ghost function Collapse(s: State, d: Download, ctx: Ctx): Option<map<Key, Gid>>
  {
    if d.transitionAfterRun != Some(ctx) then Some(s.owner)
    else Update(s.owner, d.transitionKeys, d.gid, true)
  }

  ghost function Ended(d: Download, ctx: Ctx, outcome: RunOutcome, shutdown: bool): Download
  {
    d.(status := EndStatus(d, outcome, shutdown), ctx := None,
       cancel := if d.status == Active then None else d.cancel,
       retainAfterRun := if d.retainAfterRun == Some(ctx) then None else d.retainAfterRun,
       transitionAfterRun := if d.transitionAfterRun == Some(ctx) then None else d.transitionAfterRun,
       transitionKeys := if d.transitionAfterRun == Some(ctx) then [] else d.transitionKeys,
       pathResetAfterRun := if d.pathResetAfterRun == Some(ctx) then None else d.pathResetAfterRun,
       target := if d.pathResetAfterRun == Some(ctx) then d.target.(path := None, shown := d.target.options) else d.target)
  }

  ghost predicate Retains(d: Download, ctx: Ctx)
  {
    d.status == Waiting && d.retainAfterRun == Some(ctx)
  }

  ghost function Finish(s: State, r: Run, outcome: RunOutcome): State
    requires r.id in s.objects
  {
    var d := s.objects[r.id];
    if d.ctx != Some(r.ctx) then s.(runs := s.runs - {r})
    else
      var collapsed := Collapse(s, d, r.ctx);
      var owner1 := if collapsed.Some? then collapsed.value else s.owner;
      var d1 := Ended(d, r.ctx, outcome, s.shutdown);
      var s1 := s.(active := s.active - {d.gid}, objects := s.objects[r.id := d1], runs := s.runs - {r},
                   owner := if collapsed.Some? && Retains(d, r.ctx) then owner1 else Release(owner1, d.gid),
                   tails := s.tails + multiset{TailOf(if d.status == Active then d.cancel else None)});
      if d.status == Active && Terminal(d1.status) then AppendStopped(s1, d.gid) else s1
  }

  // ----- what a live run does to the shared state -----

  ghost function RunReserves(s: State, r: Run, keys: seq<Key>): State
    requires r.id in s.objects
  {
    var granted := Update(s.owner, keys, s.objects[r.id].gid, false);
    if granted.Some? then s.(owner := granted.value) else s
  }

  /**
   The paths a run may publish: the one it found at its launch, the one published
   last, or one that the options in force at some time since its launch name.
   Torrent runs publish none.
   */
  ghost predicate Publishable(d: Download, c: Chosen)
  {
    && d.kind == Uri
    && (d.target.held == Some(c) || d.target.path == Some(c) || c.from in d.target.since)
  }

  /** Publishing a path also shows its parts as directory and name. */
  function Publish(t: Target, c: Chosen): Target
  {
    t.(path := Some(c), shown := Place(DirOf(PathOf(c)), BaseOf(PathOf(c))))
  }

  ghost function RunPublishes(s: State, r: Run, c: Chosen): State
    requires r.id in s.objects
  {
    var d := s.objects[r.id];
    if Publishable(d, c) then s.(objects := s.objects[r.id := d.(target := Publish(d.target, c))]) else s
  }

  ghost function ChangeGlobal(s: State, limits: Limits): State
  {
    Prune(s.(limits := limits, tails := s.tails + multiset{SignalOnly}))
  }

  // ----- the transition relation -----

  /** The operations on one download that a caller names by gid or unique prefix. */
  datatype Control =
    | ToPause
    | ToUnpause
    | ToRemove
    | ToMove(pos: int, how: Anchor)
    | ToChangeUri(changed: bool)
    | ToChangeOption(change: OptionChange)
    | ToRemoveResult

  ghost function Act(s: State, id: Id, control: Control): State
    requires id in s.objects
  {
    match control
    case ToPause => Pause(s, id)
    case ToUnpause => Unpause(s, id)
    case ToRemove => Remove(s, id)
    case ToMove(pos, how) => ChangePosition(s, id, pos, how)
    case ToChangeUri(changed) => ChangeUri(s, id, changed)
    case ToChangeOption(change) => ChangeOption(s, id, change)
    case ToRemoveResult => RemoveResult(s, id)
  }

  datatype Step =
    | StepAdd(newId: Id, gid: Gid, kind: Kind, place: Place, paused: bool, position: Option<int>)
    | StepControl(query: Gid, control: Control)
    | StepChangeGlobal(limits: Limits)
    | StepPurge
    | StepTake
    | StepSchedule(cut: Option<nat>)
    | StepFinish(run: Run, outcome: RunOutcome)
    | StepReserve(run: Run, keys: seq<Key>)
    | StepPublish(run: Run, chosen: Chosen)
    | StepCancel(ctx: Ctx)
    | StepSignal
    | StepShutdown

  /** Only live runs act, the scheduler acts only with the token, tails act once. */
  ghost predicate Enabled(s: State, step: Step)
  {
    match step
    case StepTake => s.wake && !s.taken
    case StepSchedule(_) => s.taken
    case StepFinish(run, _) => run in s.runs
    case StepReserve(run, _) => run in s.runs
    case StepPublish(run, _) => run in s.runs
    case StepCancel(ctx) => CancelThenSignal(ctx) in s.tails
    case StepSignal => SignalOnly in s.tails
    case _ => true
  }

  ghost function Apply(s: State, step: Step): State
  {
    match step
    case StepAdd(id, gid, kind, place, paused, position) => Add(s, id, gid, kind, place, paused, position)
    case StepControl(query, control) =>
      var found := Find(s.downloads, query);
      if found.Found? && found.id in s.objects then Act(s, found.id, control) else s
    case StepChangeGlobal(limits) => ChangeGlobal(s, limits)
    case StepPurge => Purge(s)
    case StepTake => s.(wake := false, taken := true)
    case StepSchedule(cut) => Schedule(s, cut)
    case StepFinish(run, outcome) => if run.id in s.objects then Finish(s, run, outcome) else s
    case StepReserve(run, keys) => if run.id in s.objects then RunReserves(s, run, keys) else s
    case StepPublish(run, chosen) => if run.id in s.objects then RunPublishes(s, run, chosen) else s
    case StepCancel(ctx) =>
      s.(canceled := s.canceled + {ctx},
         tails := s.tails - multiset{CancelThenSignal(ctx)} + multiset{SignalOnly})
    case StepSignal => s.(wake := true, tails := s.tails - multiset{SignalOnly})
    case StepShutdown => s.(shutdown := true, tails := s.tails + multiset{SignalOnly})
  }
}
