/** The invariant across adding, scheduling, finishing and the unlocked steps. */
module LifecycleSteps {
  import opened Collections
  import opened Reservations
  import opened Paths
  import opened Lifecycle
  import opened LifecycleInvariant

  // ----- adding -----

  lemma AddKeeps(s: State, id: Id, gid: Gid, kind: Kind, place: Place, paused: bool, position: Option<int>)
    requires Inv(s)
    ensures Inv(Add(s, id, gid, kind, place, paused, position))
  {
    if !s.shutdown && gid !in s.downloads && id !in s.objects {
      var t := Add(s, id, gid, kind, place, paused, position);
      assert SignalOnly in t.tails;
      AddObjects(s, id, gid, kind, place, paused, position);
      AddLists(s, id, gid, kind, place, paused, position);
      AddRuns(s, id, gid, kind, place, paused, position);
      WakeFrame(s, t);
    }
  }

  lemma AddObjects(s: State, id: Id, gid: Gid, kind: Kind, place: Place, paused: bool, position: Option<int>)
    requires IndexOk(s) && StatusesOk(s) && HandOversOk(s) && PathsOk(s)
    requires !s.shutdown && gid !in s.downloads && id !in s.objects
    ensures var t := Add(s, id, gid, kind, place, paused, position);
            IndexOk(t) && StatusesOk(t) && HandOversOk(t) && PathsOk(t)
  {
    var t := Add(s, id, gid, kind, place, paused, position);
    forall j | j in t.objects
      ensures StatusOk(t, j) && HandOverOk(t, t.objects[j]) && PathOk(t.objects[j])
    {
      if j != id {
        assert StatusOk(s, j) && HandOverOk(s, s.objects[j]) && PathOk(s.objects[j]);
      }
    }
  }

  lemma AddLists(s: State, id: Id, gid: Gid, kind: Kind, place: Place, paused: bool, position: Option<int>)
    requires IndexOk(s) && QueueOk(s) && StoppedOk(s)
    requires !s.shutdown && gid !in s.downloads && id !in s.objects
    ensures var t := Add(s, id, gid, kind, place, paused, position);
            QueueOk(t) && StoppedOk(t)
  {
    var t := Add(s, id, gid, kind, place, paused, position);
    assert StatusAt(s, gid) == None;
    assert forall g :: StatusAt(t, g) == if g == gid then Some(NewDownload(gid, kind, place, paused).status) else StatusAt(s, g);
    DuplicateFreeAppend(s.waiting, gid);
  }

  lemma AddRuns(s: State, id: Id, gid: Gid, kind: Kind, place: Place, paused: bool, position: Option<int>)
    requires RunsOk(s) && CancelsOk(s) && !s.shutdown && gid !in s.downloads && id !in s.objects
    ensures var t := Add(s, id, gid, kind, place, paused, position);
            RunsOk(t) && CancelsOk(t)
  {
    var t := Add(s, id, gid, kind, place, paused, position);
    assert SameIdentity(s, t);
    RunsFrame(s, t);
    forall r | r in t.runs && r.id in t.objects && t.objects[r.id].status != Active
      ensures r.ctx in t.canceled || CancelThenSignal(r.ctx) in t.tails
    {
      assert RunOk(s, r);
    }
  }

  // ----- the scheduler -----

  /**
   The two defensive exits of the scheduling loop never fire: the head of the
   queue is a known download that waits, so it either rotates because its old
   run is still exiting or is launched.
   */
  lemma NoDefensiveDrop(s: State)
    requires Inv(s) && s.waiting != []
    ensures var gid := s.waiting[0];
            && gid in s.downloads && s.downloads[gid] in s.objects && StatusOf(s, gid) == Waiting
            && ScheduleTurn(s) == if gid in s.active then s.(waiting := s.waiting[1..] + [gid])
                                  else Launch(s.(waiting := s.waiting[1..]), gid)
  {
    assert StatusAt(s, s.waiting[0]) == Some(Waiting);
  }

  /** A queued download whose gid is not active has no run and no marks of one. */
  lemma IdleWhenNotActive(s: State, id: Id)
    requires RunsOk(s) && HandOversOk(s) && PathsOk(s) && id in s.objects && s.objects[id].gid !in s.active
    ensures var d := s.objects[id];
            && d.ctx == None && d.retainAfterRun == None && d.transitionAfterRun == None
            && d.pathResetAfterRun == None
  {
    assert EveryContextRuns(s) && EveryRunOk(s);
    assert HandOverOk(s, s.objects[id]) && PathOk(s.objects[id]);
  }

  lemma TurnKeeps(s: State)
    requires Inv(s) && s.waiting != [] && s.taken
    ensures Inv(ScheduleTurn(s)) && ScheduleTurn(s).taken
  {
    NoDefensiveDrop(s);
    var gid := s.waiting[0];
    if gid in s.active {
      Rotated(s.waiting);
      RequeueKeeps(s, ScheduleTurn(s));
    } else {
      LaunchKeeps(s);
    }
  }

  lemma Rotated(w: seq<Gid>)
    requires w != [] && NoDuplicates(w)
    ensures NoDuplicates(w[1..] + [w[0]])
    ensures forall g :: g in w[1..] + [w[0]] <==> g in w
  {
    assert w == [w[0]] + w[1..];
  }

  lemma LaunchKeeps(s: State)
    requires Inv(s) && s.waiting != [] && s.taken && s.waiting[0] !in s.active
    ensures Inv(ScheduleTurn(s)) && ScheduleTurn(s).taken
  {
    NoDefensiveDrop(s);
    var gid := s.waiting[0];
    var id := s.downloads[gid];
    IdleWhenNotActive(s, id);
    var t := ScheduleTurn(s);
    var e := t.objects[id];
    LaunchObjects(s, t, id, e);
    LaunchRuns(s, t, id, e);
    LaunchLists(s, t, id, e);
  }

  ghost predicate Launched(s: State, t: State, id: Id, e: Download)
  {
    && id in s.objects && Registered(s, id) && t.downloads == s.downloads
    && s.waiting != [] && s.waiting[0] == e.gid
    && s.objects[id].gid !in s.active && s.objects[id].status == Waiting && s.objects[id].ctx == None
    && s.objects[id].retainAfterRun == None && s.objects[id].transitionAfterRun == None
    && s.objects[id].pathResetAfterRun == None
    && e == s.objects[id].(status := Active, ctx := Some(s.nextCtx), cancel := Some(s.nextCtx),
                           target := s.objects[id].target.(held := s.objects[id].target.path,
                                                           since := {s.objects[id].target.options}))
    && t == s.(waiting := s.waiting[1..], objects := s.objects[id := e], active := s.active + {e.gid},
               runs := s.runs + {Run(id, s.nextCtx)}, nextCtx := s.nextCtx + 1)
  }

  lemma LaunchObjects(s: State, t: State, id: Id, e: Download)
    requires IndexOk(s) && StatusesOk(s) && HandOversOk(s) && PathsOk(s) && Launched(s, t, id, e)
    ensures IndexOk(t) && StatusesOk(t) && HandOversOk(t) && PathsOk(t)
  {
    assert PathOk(s.objects[id]) && HandOverOk(t, e) && PathOk(e) && StatusOk(t, id);
    HandOversRewrite(s, t, id, e);
    PathsRewrite(s, t, id, e);
    StatusesRewrite(s, t, id, e);
    IndexRewrite(s, t, id, e);
  }

  lemma LaunchRuns(s: State, t: State, id: Id, e: Download)
    requires RunsOk(s) && CancelsOk(s) && Launched(s, t, id, e)
    ensures RunsOk(t) && CancelsOk(t)
  {
    LaunchEveryRun(s, t, id, e);
    LaunchApart(s, t, id, e);
    LaunchCovered(s, t, id, e);
  }

  lemma LaunchEveryRun(s: State, t: State, id: Id, e: Download)
    requires RunsOk(s) && CancelsOk(s) && Launched(s, t, id, e)
    ensures EveryRunOk(t) && CancelsOk(t)
  {
    forall r | r in t.runs
      ensures RunOk(t, r) && (r == Run(id, s.nextCtx) || OtherRun(s, t, r, id))
    {
      LaunchRun(s, t, id, e, r);
    }
  }

  lemma LaunchApart(s: State, t: State, id: Id, e: Download)
    requires RunsOk(s) && Launched(s, t, id, e)
    ensures RunsApart(t)
  {
    forall q, r | q in t.runs && r in t.runs && q.id in t.objects && r.id in t.objects
                  && (t.objects[q.id].gid == t.objects[r.id].gid || q.ctx == r.ctx)
      ensures q == r
    {
      LaunchRun(s, t, id, e, q);
      LaunchRun(s, t, id, e, r);
    }
  }

  lemma LaunchCovered(s: State, t: State, id: Id, e: Download)
    requires RunsOk(s) && Launched(s, t, id, e)
    ensures EveryContextRuns(t) && EveryActiveRuns(t)
  {
    forall g | g in t.active
      ensures HasRun(t, g)
    {
      LaunchedHasRun(s, t, id, e, g);
    }
  }

  /** A run that was there before a launch and has nothing to do with it. */
  ghost predicate OtherRun(s: State, t: State, r: Run, id: Id)
    requires id in t.objects
  {
    && r in s.runs && r.id != id && r.id in s.objects && r.id in t.objects
    && t.objects[r.id] == s.objects[r.id] && t.objects[r.id].gid != t.objects[id].gid && r.ctx != s.nextCtx
  }

  lemma LaunchRun(s: State, t: State, id: Id, e: Download, r: Run)
    requires RunsOk(s) && Launched(s, t, id, e) && r in t.runs
    ensures RunOk(t, r) && (r == Run(id, s.nextCtx) || OtherRun(s, t, r, id))
  {
    if r != Run(id, s.nextCtx) {
      assert RunOk(s, r);
    }
  }

  lemma LaunchedHasRun(s: State, t: State, id: Id, e: Download, g: Gid)
    requires RunsOk(s) && Launched(s, t, id, e) && g in t.active
    ensures HasRun(t, g)
  {
    if g == e.gid {
      assert Run(id, s.nextCtx) in t.runs;
    } else {
      assert HasRun(s, g);
      var r :| r in s.runs && r.id in s.objects && s.objects[r.id].gid == g;
      assert r in t.runs && t.objects[r.id].gid == g;
    }
  }

  lemma LaunchLists(s: State, t: State, id: Id, e: Download)
    requires IndexOk(s) && QueueOk(s) && StoppedOk(s) && Launched(s, t, id, e)
    ensures QueueOk(t) && StoppedOk(t)
  {
    IndexRewrite(s, t, id, e);
    assert s.waiting == [s.waiting[0]] + s.waiting[1..];
    assert StatusAt(s, e.gid) == Some(Waiting);
  }

  lemma {:induction false} ScheduleLoopKeeps(s: State, candidates: nat)
    requires Inv(s) && s.taken
    ensures Inv(ScheduleLoop(s, candidates)) && ScheduleLoop(s, candidates).taken
    decreases candidates
  {
    if candidates != 0 && s.waiting != [] && |s.active| < s.limits.maxActive {
      TurnKeeps(s);
      ScheduleLoopKeeps(ScheduleTurn(s), candidates - 1);
    }
  }

  // ----- what one pass of the scheduler does -----

  /** The queued gids whose old run is gone, in queue order. */
  ghost function Idle(s: State): seq<Gid>
  {
    Drop(s.waiting, s.active)
  }

  /** How many of them a pass starts: as many as there are free slots. */
  ghost function StartCount(s: State): nat
  {
    Fit(s.limits.maxActive - |s.active|, |Idle(s)|)
  }

  ghost function Fit(slots: int, queued: nat): (k: nat)
    ensures k <= queued && (slots > 0 ==> k <= slots)
  {
    if slots <= 0 then 0 else if slots <= queued then slots else queued
  }

  /** The runs of `gids`, launched in order with consecutive contexts. */
  ghost function RunsOf(downloads: map<Gid, Id>, gids: seq<Gid>, ctx: Ctx): set<Run>
  {
    if gids == [] then {}
    else (if gids[0] in downloads then {Run(downloads[gids[0]], ctx)} else {})
         + RunsOf(downloads, gids[1..], ctx + 1)
  }

  /** What a pass looks at and changes: idle gids, active gids, live runs, next context. */
  datatype Board = Board(idle: seq<Gid>, active: set<Gid>, runs: set<Run>, ctx: Ctx)

  ghost function BoardOf(s: State): Board
  {
    Board(Idle(s), s.active, s.runs, s.nextCtx)
  }

  /** The first `k` idle gids are started, in order. */
  ghost function StartFirst(b: Board, downloads: map<Gid, Id>, k: nat): Board
    requires k <= |b.idle|
  {
    Board(b.idle[k..], b.active + Elements(b.idle[..k]), b.runs + RunsOf(downloads, b.idle[..k], b.ctx), b.ctx + k)
  }

  /**
   One pass starts, in queue order, exactly the first `StartCount` idle gids,
   gives them consecutive contexts, and leaves the other idle gids queued in
   their old order.
   */
  ghost predicate StartsExactly(s: State, t: State)
  {
    && BoardOf(t) == StartFirst(BoardOf(s), s.downloads, StartCount(s))
    && |t.active| == |s.active| + StartCount(s)
    && t.limits == s.limits && t.downloads == s.downloads
  }

  /** The last `|waiting| - c` gids have been rotated already. */
  ghost predicate Ready(s: State, c: nat)
  {
    Inv(s) && s.taken && c <= |s.waiting| && forall i :: c <= i < |s.waiting| ==> s.waiting[i] in s.active
  }

  lemma {:induction false} LoopExact(s: State, c: nat)
    requires Ready(s, c)
    ensures StartsExactly(s, ScheduleLoop(s, c))
    decreases c, 1
  {
    if c == 0 || s.waiting == [] || |s.active| >= s.limits.maxActive {
      LoopStops(s, c);
    } else {
      LoopTurns(s, c);
    }
  }

  lemma {:induction false} LoopTurns(s: State, c: nat)
    requires Ready(s, c) && c > 0 && s.waiting != [] && |s.active| < s.limits.maxActive
    ensures StartsExactly(s, ScheduleLoop(s, c))
    decreases c, 0
  {
    ReadyTurn(s, c);
    LoopExact(ScheduleTurn(s), c - 1);
    LoopUnrolls(s, c);
    TurnExact(s, ScheduleLoop(s, c));
  }

  lemma LoopUnrolls(s: State, c: nat)
    requires c > 0 && s.waiting != [] && |s.active| < s.limits.maxActive
    ensures ScheduleLoop(s, c) == ScheduleLoop(ScheduleTurn(s), c - 1)
  {
  }

  lemma LoopDone(s: State, c: nat)
    requires c == 0 || s.waiting == [] || |s.active| >= s.limits.maxActive
    ensures ScheduleLoop(s, c) == s
  {
  }

  lemma LoopStops(s: State, c: nat)
    requires Ready(s, c) && (c == 0 || s.waiting == [] || |s.active| >= s.limits.maxActive)
    ensures StartsExactly(s, s)
  {
    if |s.active| < s.limits.maxActive {
      DropEverything(s.waiting, s.active);
    }
    StartsNothing(s);
  }

  lemma ReadyTurn(s: State, c: nat)
    requires Ready(s, c) && c > 0 && s.waiting != []
    ensures Ready(ScheduleTurn(s), c - 1)
    ensures QueueOk(s) && s.waiting[0] in s.downloads && s.downloads[s.waiting[0]] in s.objects
    ensures StatusOf(s, s.waiting[0]) == Waiting
  {
    TurnKeeps(s);
    NoDefensiveDrop(s);
    StillRunning(s, c);
  }

  lemma TurnExact(s: State, t: State)
    requires QueueOk(s) && s.waiting != [] && |s.active| < s.limits.maxActive
    requires s.waiting[0] in s.downloads && s.downloads[s.waiting[0]] in s.objects
    requires StatusOf(s, s.waiting[0]) == Waiting
    requires StartsExactly(ScheduleTurn(s), t)
    ensures StartsExactly(s, t)
  {
    var g, u := s.waiting[0], ScheduleTurn(s);
    if g in s.active {
      RotateKeepsIdle(s, u);
      SameBoardStarts(s, u, t);
    } else {
      LaunchShifts(s, u);
      LaunchStarts(s, u, t, g);
    }
  }

  lemma {:induction false} SameBoardStarts(s: State, u: State, t: State)
    requires BoardOf(u) == BoardOf(s) && u.limits == s.limits && u.downloads == s.downloads && StartsExactly(u, t)
    ensures StartsExactly(s, t)
  {
    var b := BoardOf(s);
    assert b.active == u.active == s.active && b.idle == Idle(u);
    assert StartCount(u) == Fit(s.limits.maxActive - |b.active|, |b.idle|) == StartCount(s);
  }

  lemma {:induction false} LaunchStarts(s: State, u: State, t: State, g: Gid)
    requires LaunchedOne(BoardOf(s), BoardOf(u), g, s.downloads) && |s.active| < s.limits.maxActive
    requires u.limits == s.limits && u.downloads == s.downloads && |u.active| == |s.active| + 1 && StartsExactly(u, t)
    ensures StartsExactly(s, t)
  {
    var b, c, done := BoardOf(s), BoardOf(u), BoardOf(t);
    BoardStarts(b, c, done, g, s.downloads, s.limits.maxActive - |s.active|);
  }

  lemma {:induction false} BoardStarts(b: Board, c: Board, done: Board, g: Gid, downloads: map<Gid, Id>, slots: int)
    requires LaunchedOne(b, c, g, downloads) && slots > 0 && done == StartFirst(c, downloads, Fit(slots - 1, |c.idle|))
    ensures Fit(slots, |b.idle|) == Fit(slots - 1, |c.idle|) + 1
    ensures done == StartFirst(b, downloads, Fit(slots, |b.idle|))
  {
    var k := Fit(slots, |b.idle|);
    assert k == Fit(slots - 1, |c.idle|) + 1;
    LaunchExact(b, c, g, downloads, k);
  }

  lemma {:induction false} StillRunning(s: State, c: nat)
    requires 0 < c <= |s.waiting| && s.waiting[0] in s.downloads && s.downloads[s.waiting[0]] in s.objects
    requires StatusOf(s, s.waiting[0]) == Waiting
    requires forall i :: c <= i < |s.waiting| ==> s.waiting[i] in s.active
    ensures var u := ScheduleTurn(s);
            c - 1 <= |u.waiting| && forall i :: c - 1 <= i < |u.waiting| ==> u.waiting[i] in u.active
  {
  }

  lemma {:induction false} StartsNothing(s: State)
    requires StartCount(s) == 0
    ensures StartsExactly(s, s)
  {
    assert Idle(s)[..0] == [] && Idle(s)[0..] == Idle(s);
  }

  lemma RotateKeepsIdle(s: State, u: State)
    requires s.waiting != [] && s.waiting[0] in s.active
    requires u == s.(waiting := s.waiting[1..] + [s.waiting[0]])
    ensures Idle(u) == Idle(s)
  {
    DropConcat(s.waiting[1..], [s.waiting[0]], s.active);
    DropEverything([s.waiting[0]], s.active);
  }

  lemma LaunchShifts(s: State, u: State)
    requires NoDuplicates(s.waiting) && s.waiting != [] && s.waiting[0] in s.downloads && s.downloads[s.waiting[0]] in s.objects
    requires s.waiting[0] !in s.active && u == Launch(s.(waiting := s.waiting[1..]), s.waiting[0])
    ensures LaunchedOne(BoardOf(s), BoardOf(u), s.waiting[0], s.downloads)
    ensures u.limits == s.limits && u.downloads == s.downloads && |u.active| == |s.active| + 1
  {
    var g, rest := s.waiting[0], s.waiting[1..];
    assert s.waiting == [g] + rest && g !in rest;
    DropMore(rest, s.active, g);
  }

  ghost predicate LaunchedOne(b: Board, c: Board, g: Gid, downloads: map<Gid, Id>)
  {
    && g in downloads && b.idle == [g] + c.idle && c.active == b.active + {g}
    && c.runs == b.runs + {Run(downloads[g], b.ctx)} && c.ctx == b.ctx + 1
  }

  lemma {:induction false} DropMore(rest: seq<Gid>, gone: set<Gid>, g: Gid)
    requires g !in rest
    ensures Drop(rest, gone + {g}) == Drop(rest, gone)
  {
    if rest != [] {
      assert rest == [rest[0]] + rest[1..];
      DropMore(rest[1..], gone, g);
    }
  }

  lemma LaunchExact(b: Board, c: Board, g: Gid, downloads: map<Gid, Id>, k: nat)
    requires LaunchedOne(b, c, g, downloads) && 0 < k <= |b.idle|
    ensures StartFirst(b, downloads, k) == StartFirst(c, downloads, k - 1)
  {
    var head, tail := b.idle[..k], c.idle[..k - 1];
    assert head == [g] + tail && head[1..] == tail && b.idle[k..] == c.idle[k - 1..];
    ElementsCons(g, tail);
    assert b.active + Elements(head) == c.active + Elements(tail);
    assert b.runs + RunsOf(downloads, head, b.ctx) == c.runs + RunsOf(downloads, tail, c.ctx);
  }

  /**
   A pass that saw no shutdown ends with the limit reached or with only running
   gids queued, so it may give its token up.
   */
  lemma PassExhausts(s: State, t: State)
    requires StartsExactly(s, t)
    ensures !Startable(t)
  {
    assert forall g :: g in Idle(t) <==> g in t.waiting && g !in t.active;
  }

  lemma ScheduleKeeps(s: State, cut: Option<nat>)
    requires Inv(s) && s.taken
    ensures Inv(Schedule(s, cut))
  {
    var turns := if s.shutdown then 0
                 else if cut.Some? && cut.value < |s.waiting| then cut.value else |s.waiting|;
    var t := ScheduleLoop(s, turns);
    ScheduleLoopKeeps(s, turns);
    if cut.None? && !s.shutdown {
      assert Ready(s, |s.waiting|);
      LoopExact(s, |s.waiting|);
      PassExhausts(s, t);
    }
    LoopFrame(s, turns);
    StoreKeeps(t, Schedule(s, cut));
  }

  /** A pass moves gids, objects, runs and contexts and nothing else. */
  ghost predicate PassFrame(s: State, t: State)
  {
    t == s.(waiting := t.waiting, objects := t.objects, active := t.active, runs := t.runs, nextCtx := t.nextCtx)
  }

  lemma TurnFrame(s: State)
    requires s.waiting != []
    ensures PassFrame(s, ScheduleTurn(s))
  {
  }

  // ----- the loop as a sequence of turns -----

  ghost predicate TurnAt(trace: seq<State>, i: nat)
    requires i + 1 < |trace|
  {
    Inv(trace[i]) && trace[i].taken && trace[i].waiting != [] && trace[i + 1] == ScheduleTurn(trace[i])
  }

  ghost predicate Turns(trace: seq<State>)
  {
    trace != [] && forall i :: 0 <= i < |trace| - 1 ==> TurnAt(trace, i)
  }

  /** What holds of every turn can be followed from the start of the loop to its end. */
  lemma {:induction false} LoopTrace(s: State, c: nat) returns (trace: seq<State>)
    requires Inv(s) && s.taken
    ensures Turns(trace) && trace[0] == s && trace[|trace| - 1] == ScheduleLoop(s, c)
    decreases c
  {
    if c == 0 || s.waiting == [] || |s.active| >= s.limits.maxActive {
      LoopDone(s, c);
      trace := [s];
    } else {
      var u := NextTurn(s, c);
      var rest := LoopTrace(u, c - 1);
      TraceGrows(s, rest);
      trace := [s] + rest;
    }
  }

  lemma NextTurn(s: State, c: nat) returns (u: State)
    requires Inv(s) && s.taken && c > 0 && s.waiting != [] && |s.active| < s.limits.maxActive
    ensures u == ScheduleTurn(s) && Inv(u) && u.taken && ScheduleLoop(s, c) == ScheduleLoop(u, c - 1)
  {
    u := ScheduleTurn(s);
    TurnKeeps(s);
    LoopUnrolls(s, c);
  }

  lemma TraceGrows(s: State, rest: seq<State>)
    requires Turns(rest) && Inv(s) && s.taken && s.waiting != [] && rest[0] == ScheduleTurn(s)
    ensures Turns([s] + rest)
  {
    var trace := [s] + rest;
    forall i | 0 <= i < |trace| - 1
      ensures TurnAt(trace, i)
    {
      if i > 0 {
        assert TurnAt(rest, i - 1);
      }
    }
  }

  lemma {:induction false} LoopFrame(s: State, c: nat)
    ensures PassFrame(s, ScheduleLoop(s, c))
    decreases c
  {
    if c != 0 && s.waiting != [] && |s.active| < s.limits.maxActive {
      var u := ScheduleTurn(s);
      TurnFrame(s);
      LoopFrame(u, c - 1);
      PassFrameTrans(s, u, ScheduleLoop(u, c - 1));
      LoopUnrolls(s, c);
    }
  }

  lemma PassFrameTrans(s: State, u: State, t: State)
    requires PassFrame(s, u) && PassFrame(u, t)
    ensures PassFrame(s, t)
  {
  }
}
