/** Where every request puts a download in the queue, and that it leaves the others in their order. */
module LifecycleQueue {
  import opened Collections
  import opened Reservations
  import opened Lifecycle
  import opened LifecycleInvariant
  import opened LifecycleFinish
  import opened LifecycleRuns
  import opened LifecycleStatuses

  /** Where a new download lands: at the wanted index of the longer queue, or at the nearer end of it. */
  ghost predicate Enters(queue: seq<Gid>, gid: Gid, position: Option<int>, next: seq<Gid>)
  {
    && |next| == |queue| + 1 && Drop(next, {gid}) == Drop(queue, {gid})
    && (position.None? ==> next[|queue|] == gid)
    && (position.Some? && 0 <= position.value <= |queue| ==> next[position.value] == gid)
    && (position.Some? && position.value < 0 ==> next[0] == gid)
    && (position.Some? && position.value > |queue| ==> next[|queue|] == gid)
  }

  lemma InsertLands(queue: seq<Gid>, gid: Gid, position: Option<int>)
    ensures Enters(queue, gid, position, InsertWaiting(queue, gid, position))
  {
    var at := if position.None? || position.value >= |queue| then |queue| else if position.value < 0 then 0 else position.value;
    DropInserted(queue, at, gid);
    assert InsertWaiting(queue, gid, position) == Insert(queue, at, gid);
  }

  /** A queued gid lands where the move says; the others stay in their order. */
  lemma {:induction false} MoveLands(queue: seq<Gid>, gid: Gid, pos: int, how: Anchor)
    requires NoDuplicates(queue) && gid in queue
    ensures var next := Moved(queue, gid, pos, how);
            && |next| == |queue| && Drop(next, {gid}) == Drop(queue, {gid})
            && Lands(IndexOf(queue, gid), |queue|, pos, how, IndexOf(next, gid))
  {
    var i := IndexOf(queue, gid);
    var at := Destination(i, |queue| - 1, pos, how);
    var next := Insert(queue[..i] + queue[i + 1..], at, queue[i]);
    LandsAt(i, |queue|, pos, how);
    MovedIs(queue, gid, pos, how, i, at, next);
    DropMoved(queue, i, at);
    FoundWhereInserted(queue, i, at);
  }

  lemma LandsAt(i: nat, n: nat, pos: int, how: Anchor)
    requires i < n
    ensures Lands(i, n, pos, how, Destination(i, n - 1, pos, how))
  {
  }

  lemma {:induction false} MovedIs(queue: seq<Gid>, gid: Gid, pos: int, how: Anchor, i: nat, dst: nat, next: seq<Gid>)
    requires i == IndexOf(queue, gid) < |queue| && dst == Destination(i, |queue| - 1, pos, how) && dst < |queue|
    requires next == Insert(queue[..i] + queue[i + 1..], dst, queue[i])
    ensures next == Moved(queue, gid, pos, how)
  {
  }

  lemma {:induction false} FoundWhereInserted(queue: seq<Gid>, i: nat, at: nat)
    requires NoDuplicates(queue) && i < |queue| && at < |queue|
    ensures IndexOf(Insert(queue[..i] + queue[i + 1..], at, queue[i]), queue[i]) == at
  {
    var rest := queue[..i] + queue[i + 1..];
    RemoveAt(queue, i);
    var next := Insert(rest, at, queue[i]);
    assert forall k :: 0 <= k < at ==> next[k] == rest[k];
  }

  /** The queue after a request to the download `gid`, which had status `was`. */
  ghost predicate QueueAfter(control: Control, accepted: bool, was: Status, gid: Gid, queue: seq<Gid>, next: seq<Gid>)
  {
    match control
    case ToPause => next == if Terminal(was) then queue else Drop(queue, {gid})
    case ToUnpause => next == if was == Paused then queue + [gid] else queue
    case ToRemove => next == Drop(queue, {gid})
    case ToMove(pos, how) =>
      if gid !in queue then next == queue
      else && |next| == |queue| && Drop(next, {gid}) == Drop(queue, {gid})
           && Lands(IndexOf(queue, gid), |queue|, pos, how, IndexOf(next, gid))
    case ToChangeUri(changed) => next == if changed && was == Active && gid !in queue then queue + [gid] else queue
    case ToChangeOption(c) => next == if accepted && Restarts(c) && was == Active && gid !in queue then queue + [gid] else queue
    case ToRemoveResult => next == queue
  }

  lemma ActQueue(s: State, id: Id, control: Control)
    requires id in s.objects && NoDuplicates(s.waiting)
    ensures var d := s.objects[id];
            QueueAfter(control, AcceptedBy(s, id, control), d.status, d.gid, s.waiting, Act(s, id, control).waiting)
  {
    match control
    case ToMove(pos, how) =>
      if s.objects[id].gid in s.waiting {
        MoveLands(s.waiting, s.objects[id].gid, pos, how);
      }
    case ToRemove => RemoveQueue(s, id);
    case ToChangeOption(c) => ChangeOptionQueue(s, id, c);
    case _ =>
  }

  lemma RemoveQueue(s: State, id: Id)
    requires id in s.objects
    ensures Remove(s, id).waiting == Drop(s.waiting, {s.objects[id].gid})
  {
  }

  lemma ChangeOptionQueue(s: State, id: Id, c: OptionChange)
    requires id in s.objects
    ensures var d := s.objects[id];
            QueueAfter(ToChangeOption(c), OptionChangeAccepted(s, id, c), d.status, d.gid, s.waiting, ChangeOption(s, id, c).waiting)
  {
  }

  /** The queue after any step but a pass of the scheduler. */
  ghost predicate QueueMoves(s: State, step: Step, next: seq<Gid>)
  {
    match step
    case StepAdd(id, gid, _, _, paused, position) =>
      if s.shutdown || gid in s.downloads || id in s.objects || paused then next == s.waiting
      else Enters(s.waiting, gid, position, next)
    case StepControl(query, control) =>
      var found := Find(s.downloads, query);
      if !found.Found? then next == s.waiting
      else && found.id in s.objects
           && var d := s.objects[found.id];
              QueueAfter(control, AcceptedBy(s, found.id, control), d.status, d.gid, s.waiting, next)
    case StepSchedule(_) => true
    case _ => next == s.waiting
  }

  /** Every step but a pass of the scheduler moves in the queue what it says, where it says, and nothing else. */
  lemma StepQueue(s: State, step: Step)
    requires Inv(s) && Enabled(s, step)
    ensures QueueMoves(s, step, Apply(s, step).waiting)
  {
    match step
    case StepAdd(id, gid, kind, place, paused, position) => InsertLands(s.waiting, gid, position);
    case StepControl(query, control) => ControlQueue(s, query, control);
    case StepFinish(r, outcome) => FinishQueue(s, r, outcome);
    case StepSchedule(cut) =>
    case _ => OtherQueue(s, step);
  }

  lemma OtherQueue(s: State, step: Step)
    requires Enabled(s, step) && !step.StepAdd? && !step.StepControl? && !step.StepFinish? && !step.StepSchedule?
    ensures Apply(s, step).waiting == s.waiting
  {
    if step.StepReserve? {
      assert step.run.id in s.objects ==> RunReserves(s, step.run, step.keys).waiting == s.waiting;
    } else if step.StepPublish? {
      assert step.run.id in s.objects ==> RunPublishes(s, step.run, step.chosen).waiting == s.waiting;
    }
  }

  lemma ControlQueue(s: State, query: Gid, control: Control)
    requires Inv(s)
    ensures QueueMoves(s, StepControl(query, control), Apply(s, StepControl(query, control)).waiting)
  {
    var found := Find(s.downloads, query);
    if found.Found? {
      FoundIsRegistered(s, query);
      ActQueue(s, found.id, control);
    }
  }

  lemma FinishQueue(s: State, r: Run, outcome: RunOutcome)
    requires Inv(s) && r in s.runs
    ensures r.id in s.objects && Finish(s, r, outcome).waiting == s.waiting
  {
    NeverStale(s, r);
    FinishIs(s, r, outcome);
  }
}
