/**
 Per-file accounting of a torrent download: the totals shown, the files handed to
 the caller, and the files still to hand over.
 */
module Torrent {
  import opened Collections
  import opened Machine
  import opened Bitfield

  /** One file of the torrent; `index` is its one-based number. */
  datatype File = File(index: int, path: string, length: int64, completed: int64, selected: bool)

  /** What the torrent client reports of one file. */
  datatype Snapshot = Snapshot(released: bool, verified: int64)

  datatype State = State(files: seq<File>, finalized: set<int>, total: int, completed: int)

  // ----- sums -----

  ghost function TotalLength(files: seq<File>): int
  {
    if files == [] then 0 else TotalLength(files[..|files| - 1]) + files[|files| - 1].length as int
  }

  ghost function SelectedLength(files: seq<File>): int
  {
    if files == [] then 0
    else SelectedLength(files[..|files| - 1]) + if files[|files| - 1].selected then files[|files| - 1].length as int else 0
  }

  ghost function SelectedCompleted(files: seq<File>): int
  {
    if files == [] then 0
    else SelectedCompleted(files[..|files| - 1]) + if files[|files| - 1].selected then files[|files| - 1].completed as int else 0
  }

  /** Lengths that accepted metadata has: not negative, and together within 64 bits. */
  ghost predicate Lengths(files: seq<File>)
  {
    (forall i :: 0 <= i < |files| ==> 0 <= files[i].length) && TotalLength(files) <= MAX as int
  }

  lemma {:induction false} LengthsPrefix(files: seq<File>, n: nat)
    requires n <= |files| && forall i :: 0 <= i < |files| ==> 0 <= files[i].length
    ensures 0 <= TotalLength(files[..n]) <= TotalLength(files)
    decreases |files|
  {
    if n < |files| {
      LengthsPrefix(files[..|files| - 1], n);
      assert files[..|files| - 1][..n] == files[..n];
    } else {
      assert files[..n] == files;
      if n > 0 {
        LengthsPrefix(files[..n - 1], n - 1);
        assert files[..n - 1][..n - 1] == files[..n - 1];
      }
    }
  }

  lemma {:induction false} SelectedBounds(files: seq<File>)
    requires forall i :: 0 <= i < |files| ==> 0 <= files[i].completed <= files[i].length
    ensures 0 <= SelectedCompleted(files) <= SelectedLength(files) <= TotalLength(files)
  {
    if files != [] {
      SelectedBounds(files[..|files| - 1]);
    }
  }

  // ----- accepted metadata -----

  /** Negative lengths and a sum beyond 64 bits are refused, and nothing else is. */
  method V1TorrentLength(single: int64, lengths: seq<int64>) returns (r: Option<int64>)
    ensures lengths == [] ==> r == if single < 0 then None else Some(single)
    ensures lengths != [] ==>
      && (r.Some? <==> single >= 0 && (forall i :: 0 <= i < |lengths| ==> 0 <= lengths[i]) && Added(lengths) <= MAX as int)
      && (r.Some? ==> r.value as int == Added(lengths))
  {
    if single < 0 {
      return None;
    }
    if lengths == [] {
      return Some(single);
    }
    var total: int64 := 0;
    for i := 0 to |lengths|
      invariant 0 <= total && total as int == Added(lengths[..i])
      invariant forall j :: 0 <= j < i ==> 0 <= lengths[j]
    {
      if lengths[i] < 0 {
        return None;
      }
      assert lengths[..i + 1][..i] == lengths[..i];
      if lengths[i] > MAX - total {
        AddedPrefix(lengths, i + 1);
        return None;
      }
      total := total + lengths[i];
    }
    assert lengths[..|lengths|] == lengths;
    return Some(total);
  }

  ghost function Added(lengths: seq<int64>): int
  {
    if lengths == [] then 0 else Added(lengths[..|lengths| - 1]) + lengths[|lengths| - 1] as int
  }

  /** Without negative lengths a prefix cannot exceed the whole. */
  lemma {:induction false} AddedPrefix(lengths: seq<int64>, n: nat)
    requires n <= |lengths|
    ensures (forall i :: 0 <= i < |lengths| ==> 0 <= lengths[i]) ==> Added(lengths[..n]) <= Added(lengths)
    decreases |lengths|
  {
    if n < |lengths| {
      AddedPrefix(lengths[..|lengths| - 1], n);
      assert lengths[..|lengths| - 1][..n] == lengths[..n];
    } else {
      assert lengths[..n] == lengths;
    }
  }

  // ----- steps -----

  /** The same file, whatever its count of bytes. */
  predicate SameFile(a: File, b: File)
  {
    a.index == b.index && a.path == b.path && a.length == b.length && a.selected == b.selected
  }

  /** `count` is `n` brought into the range of a file of this length. */
  ghost predicate Within(count: int64, n: int64, length: int64)
  {
    && (0 <= n <= length ==> count == n)
    && (n < 0 <= length ==> count == 0)
    && (0 <= length < n ==> count == length)
  }

  /** A finalized file is complete; any other count is brought into range. */
  function Settle(f: File, finalized: set<int>): (r: File)
    ensures SameFile(r, f)
    ensures f.index in finalized ==> r.completed == f.length
    ensures f.index !in finalized ==> Within(r.completed, f.completed, f.length)
  {
    if f.index in finalized then f.(completed := f.length)
    else if f.completed < 0 then f.(completed := if 0 > f.length then f.length else 0)
    else if f.completed > f.length then f.(completed := f.length)
    else f
  }

  ghost function SettleAll(files: seq<File>, finalized: set<int>): seq<File>
  {
    seq(|files|, i requires 0 <= i < |files| => Settle(files[i], finalized))
  }

  ghost function Totaled(files: seq<File>, finalized: set<int>): State
  {
    State(files, finalized, SelectedLength(files), SelectedCompleted(files))
  }

  /** What settling does, file by file. */
  ghost predicate Settled(files: seq<File>, was: seq<File>, finalized: set<int>)
  {
    && |files| == |was|
    && (forall i :: 0 <= i < |files| ==> SameFile(files[i], was[i]))
    && (forall i :: 0 <= i < |files| && files[i].index in finalized ==> files[i].completed == files[i].length)
    && (forall i :: 0 <= i < |files| && files[i].index !in finalized ==> Within(files[i].completed, was[i].completed, was[i].length))
  }

  /** New metadata: the planned files, with only the finalized ones complete. */
  ghost function Refresh(s: State, planned: seq<File>): State
  {
    if !(forall i :: i in s.finalized ==> i in Indexes(planned)) then s
    else Totaled(SettleAll(planned, s.finalized), s.finalized)
  }

  ghost function Indexes(files: seq<File>): seq<int>
  {
    seq(|files|, i requires 0 <= i < |files| => files[i].index)
  }

  function Verified(snapshot: Snapshot, length: int64): int64
  {
    if snapshot.verified < 0 then 0 else if snapshot.verified > length then length else snapshot.verified
  }

  function Observed(f: File, i: nat, snapshots: seq<Snapshot>, finalized: set<int>): File
  {
    if f.index in finalized then f.(completed := f.length)
    else if i >= |snapshots| then f
    else if snapshots[i].released then f.(completed := f.length)
    else f.(completed := Verified(snapshots[i], f.length))
  }

  ghost function ObserveAll(files: seq<File>, snapshots: seq<Snapshot>, finalized: set<int>): seq<File>
  {
    seq(|files|, i requires 0 <= i < |files| => Observed(files[i], i, snapshots, finalized))
  }

  ghost function Observe(s: State, snapshots: seq<Snapshot>): State
  {
    var files := ObserveAll(s.files, snapshots, s.finalized);
    s.(files := files, completed := SelectedCompleted(files))
  }

  ghost function ReleasedIndexes(files: seq<File>, snapshots: seq<Snapshot>): set<int>
  {
    set i | 0 <= i < |files| && i < |snapshots| && snapshots[i].released :: files[i].index
  }

  ghost predicate IsReleased(files: seq<File>, snapshots: seq<Snapshot>, index: int)
  {
    exists i :: 0 <= i < |files| && i < |snapshots| && files[i].index == index && snapshots[i].released
  }

  /** Files the client has let go of count as handed over. */
  ghost function Reconcile(s: State, snapshots: seq<Snapshot>): State
  {
    var finalized := s.finalized + ReleasedIndexes(s.files, snapshots);
    if finalized == s.finalized then s else Totaled(SettleAll(s.files, finalized), finalized)
  }

  ghost function Finalize(s: State, zeroBased: int): State
  {
    if zeroBased + 1 !in Indexes(s.files) then s
    else Totaled(SettleAll(s.files, s.finalized + {zeroBased + 1}), s.finalized + {zeroBased + 1})
  }

  /** The previous state of a file, found by its number; the last one listed wins. */
  ghost function Previous(files: seq<File>, index: int): Option<File>
  {
    if files == [] then None
    else if files[|files| - 1].index == index then Some(files[|files| - 1])
    else Previous(files[..|files| - 1], index)
  }

  function Carried(f: File, was: Option<File>, finalized: set<int>): File
  {
    var g := if was.None? then f
             else f.(completed := if was.value.completed > f.length then f.length else was.value.completed,
                     path := if f.index in finalized then was.value.path else f.path);
    if f.index in finalized then g.(completed := f.length) else g
  }

  ghost function Carry(planned: seq<File>, previous: seq<File>, finalized: set<int>): seq<File>
  {
    seq(|planned|, i requires 0 <= i < |planned| => Carried(planned[i], Previous(previous, planned[i].index), finalized))
  }

  /** Changed options: newly planned files that keep the progress made. */
  ghost function Rebuild(s: State, planned: seq<File>): State
  {
    Totaled(Carry(planned, s.files, s.finalized), s.finalized)
  }

  /** The positions of the files still to be handed over. */
  ghost function Pending(files: seq<File>, finalized: set<int>): seq<int>
  {
    if files == [] then []
    else
      var n := |files| - 1;
      Pending(files[..n], finalized) + if files[n].selected && files[n].index !in finalized then [n] else []
  }

  // ----- what every step keeps -----

  ghost predicate InRange(files: seq<File>)
  {
    forall i :: 0 <= i < |files| ==> 0 <= files[i].completed <= files[i].length
  }

  ghost predicate FinalizedComplete(files: seq<File>, finalized: set<int>)
  {
    forall i :: 0 <= i < |files| && files[i].index in finalized ==> files[i].completed == files[i].length
  }

  ghost predicate Inv(s: State)
  {
    && Lengths(s.files) && InRange(s.files) && FinalizedComplete(s.files, s.finalized)
    && s.total == SelectedLength(s.files) && s.completed == SelectedCompleted(s.files)
  }

  /** Files with the same lengths and selection have the same sums of lengths. */
  lemma {:induction false} SameSums(a: seq<File>, b: seq<File>)
    requires |a| == |b| && forall i :: 0 <= i < |a| ==> a[i].length == b[i].length && a[i].selected == b[i].selected
    ensures TotalLength(a) == TotalLength(b) && SelectedLength(a) == SelectedLength(b)
  {
    if a != [] {
      SameSums(a[..|a| - 1], b[..|b| - 1]);
    }
  }

  lemma SettleKeeps(files: seq<File>, finalized: set<int>)
    requires Lengths(files)
    ensures Inv(Totaled(SettleAll(files, finalized), finalized))
  {
    SameSums(files, SettleAll(files, finalized));
  }

  datatype Step =
    | StepRefresh(planned: seq<File>)
    | StepObserve(snapshots: seq<Snapshot>)
    | StepReconcile(snapshots: seq<Snapshot>)
    | StepFinalize(zeroBased: int)
    | StepRebuild(planned: seq<File>)

  /** Planned files come from accepted metadata and have made no progress yet. */
  ghost predicate Enabled(step: Step)
  {
    (step.StepRefresh? || step.StepRebuild?) ==>
      Lengths(step.planned) && forall i :: 0 <= i < |step.planned| ==> step.planned[i].completed == 0
  }

  ghost function Apply(s: State, step: Step): State
  {
    match step
    case StepRefresh(planned) => Refresh(s, planned)
    case StepObserve(snapshots) => Observe(s, snapshots)
    case StepReconcile(snapshots) => Reconcile(s, snapshots)
    case StepFinalize(zeroBased) => Finalize(s, zeroBased)
    case StepRebuild(planned) => Rebuild(s, planned)
  }

  lemma {:induction false} PreviousInRange(files: seq<File>, index: int)
    requires InRange(files)
    ensures Previous(files, index).Some? ==> 0 <= Previous(files, index).value.completed
  {
    if files != [] {
      PreviousInRange(files[..|files| - 1], index);
    }
  }

  lemma RebuildKeeps(s: State, planned: seq<File>)
    requires Inv(s) && Enabled(StepRebuild(planned))
    ensures Inv(Rebuild(s, planned))
  {
    var files := Carry(planned, s.files, s.finalized);
    SameSums(planned, files);
    forall i | 0 <= i < |files|
      ensures 0 <= files[i].completed <= files[i].length && 0 <= files[i].length
    {
      PreviousInRange(s.files, planned[i].index);
    }
  }

  /**
   A file keeps its progress through an option change, as far as its new length
   goes, and its path once finalized; a finalized file is complete, and a file that
   was not there before starts as planned.
   */
  lemma RebuildPreserves(s: State, planned: seq<File>, i: nat, j: nat)
    requires Inv(s) && Enabled(StepRebuild(planned)) && i < |planned|
    ensures var now := Rebuild(s, planned).files[i];
            && now.index == planned[i].index && now.length == planned[i].length && now.selected == planned[i].selected
            && (now.index in s.finalized ==> now.completed == now.length)
            && (now.index !in s.finalized ==> now.path == planned[i].path)
            && (now.index !in Indexes(s.files) ==> now.path == planned[i].path && (now.index !in s.finalized ==> now.completed == 0))
    ensures j < |s.files| && s.files[j].index == planned[i].index && s.files[j].index !in Indexes(s.files[j + 1..]) ==>
            var was, now := s.files[j], Rebuild(s, planned).files[i];
            && (was.length == now.length ==> now.completed == was.completed)
            && (now.index !in s.finalized ==> Within(now.completed, was.completed, now.length))
            && (now.index in s.finalized ==> now.path == was.path)
  {
    PreviousIsListed(s.files, planned[i].index);
    if j < |s.files| && s.files[j].index == planned[i].index && s.files[j].index !in Indexes(s.files[j + 1..]) {
      PreviousIsLast(s.files, j);
    }
  }

  lemma {:induction false} PreviousIsLast(files: seq<File>, j: nat)
    requires j < |files| && files[j].index !in Indexes(files[j + 1..])
    ensures Previous(files, files[j].index) == Some(files[j])
  {
    var n := |files| - 1;
    if j < n {
      assert Indexes(files[j + 1..])[n - j - 1] == files[n].index;
      assert Indexes(files[..n][j + 1..]) == Indexes(files[j + 1..])[..n - j - 1];
      PreviousIsLast(files[..n], j);
    }
  }

  lemma {:induction false} PreviousIsListed(files: seq<File>, index: int)
    ensures Previous(files, index).Some? <==> index in Indexes(files)
    ensures Previous(files, index).Some? ==> Previous(files, index).value in files && Previous(files, index).value.index == index
  {
    if files != [] {
      PreviousIsListed(files[..|files| - 1], index);
      assert Indexes(files) == Indexes(files[..|files| - 1]) + [files[|files| - 1].index];
    }
  }

  lemma ObserveKeeps(s: State, snapshots: seq<Snapshot>)
    requires Inv(s)
    ensures Inv(Observe(s, snapshots))
  {
    SameSums(s.files, ObserveAll(s.files, snapshots, s.finalized));
  }

  lemma StepKeeps(s: State, step: Step)
    requires Inv(s) && Enabled(step)
    ensures Inv(Apply(s, step)) && s.finalized <= Apply(s, step).finalized
  {
    match step
    case StepRefresh(planned) => SettleKeeps(planned, s.finalized);
    case StepObserve(snapshots) => ObserveKeeps(s, snapshots);
    case StepReconcile(snapshots) => SettleKeeps(s.files, s.finalized + ReleasedIndexes(s.files, snapshots));
    case StepFinalize(zeroBased) => SettleKeeps(s.files, s.finalized + {zeroBased + 1});
    case StepRebuild(planned) => RebuildKeeps(s, planned);
  }

  /**
   A download as it is created or loaded: the planned files of its metadata, none
   for a magnet link, and the files a session recorded as finalized.
   */
  ghost function Created(planned: seq<File>, finalized: set<int>): State
  {
    Totaled(SettleAll(planned, finalized), finalized)
  }

  ghost predicate Begins(s: State)
  {
    exists planned :: Lengths(planned) && s == Created(planned, s.finalized)
  }

  ghost predicate Execution(states: seq<State>, steps: seq<Step>)
  {
    && |states| == |steps| + 1 && Begins(states[0])
    && forall i :: 0 <= i < |steps| ==> StepAt(states, steps, i)
  }

  ghost predicate StepAt(states: seq<State>, steps: seq<Step>, i: nat)
    requires i < |steps| && |states| == |steps| + 1
  {
    Enabled(steps[i]) && states[i + 1] == Apply(states[i], steps[i])
  }

  /** Over a whole run the counts stay in range, the totals are the selected sums, and no finalized file is forgotten. */
  lemma {:induction false} Accounting(states: seq<State>, steps: seq<Step>, i: nat, j: nat)
    requires Execution(states, steps) && i <= j < |states|
    ensures Inv(states[j]) && states[i].finalized <= states[j].finalized
    ensures 0 <= states[j].completed <= states[j].total <= MAX as int
    decreases j
  {
    if j == 0 {
      var planned :| Lengths(planned) && states[0] == Created(planned, states[0].finalized);
      SettleKeeps(planned, states[0].finalized);
    } else {
      Accounting(states, steps, if i < j then i else j - 1, j - 1);
      assert StepAt(states, steps, j - 1);
      StepKeeps(states[j - 1], steps[j - 1]);
    }
    SelectedBounds(states[j].files);
  }

  /** A finalized file is never listed for hand-over again. */
  lemma HandedOverOnce(states: seq<State>, steps: seq<Step>, i: nat, j: nat, k: int)
    requires Execution(states, steps) && i <= j < |states|
    requires k in Pending(states[j].files, states[j].finalized)
    ensures 0 <= k < |states[j].files| && states[j].files[k].index !in states[i].finalized
  {
    Accounting(states, steps, i, j);
    PendingIff(states[j].files, states[j].finalized, k);
  }

  lemma {:induction false} PendingIff(files: seq<File>, finalized: set<int>, k: int)
    ensures k in Pending(files, finalized) <==> 0 <= k < |files| && files[k].selected && files[k].index !in finalized
  {
    if files != [] {
      PendingIff(files[..|files| - 1], finalized, k);
    }
  }

  lemma {:induction false} PendingInOrder(files: seq<File>, finalized: set<int>)
    ensures forall a, b :: 0 <= a < b < |Pending(files, finalized)| ==> Pending(files, finalized)[a] < Pending(files, finalized)[b]
  {
    if files != [] {
      var before := Pending(files[..|files| - 1], finalized);
      PendingInOrder(files[..|files| - 1], finalized);
      forall a | 0 <= a < |before|
        ensures before[a] < |files| - 1
      {
        PendingIff(files[..|files| - 1], finalized, before[a]);
      }
    }
  }

  /** When nothing is left to hand over, every selected byte is accounted for. */
  lemma AllHandedOver(s: State)
    requires Inv(s) && Pending(s.files, s.finalized) == []
    ensures s.completed == s.total
  {
    forall k | 0 <= k < |s.files| && s.files[k].selected
      ensures s.files[k].completed == s.files[k].length
    {
      PendingIff(s.files, s.finalized, k);
    }
    FullSums(s.files);
  }

  lemma {:induction false} FullSums(files: seq<File>)
    requires forall k :: 0 <= k < |files| && files[k].selected ==> files[k].completed == files[k].length
    ensures SelectedCompleted(files) == SelectedLength(files)
  {
    if files != [] {
      FullSums(files[..|files| - 1]);
    }
  }

  // ----- the fields in place -----

  class TorrentFiles {
    var files: seq<File>
    var finalized: set<int>
    var totalLength: int64
    var completedLen: int64
    var numPieces: int64
    var donePieces: int
    var bitfield: string

    ghost function View(): State
      reads this
    {
      State(files, finalized, totalLength as int, completedLen as int)
    }

    /** Settle every file and add up the selected ones; accepted lengths cannot overflow. */
    method FileStateProgress()
      requires Lengths(files)
      modifies `files, `totalLength, `completedLen
      ensures View() == Totaled(SettleAll(old(files), finalized), finalized)
      ensures Settled(files, old(files), finalized)
      ensures totalLength as int == SelectedLength(files) && completedLen as int == SelectedCompleted(files)
    {
      ghost var start, settled := files, SettleAll(files, finalized);
      SameSums(files, settled);
      totalLength, completedLen := 0, 0;
      for i := 0 to |files|
        invariant |files| == |start| == |settled|
        invariant forall k :: 0 <= k < |files| ==> files[k] == if k < i then settled[k] else start[k]
        invariant totalLength as int == SelectedLength(settled[..i])
        invariant completedLen as int == SelectedCompleted(settled[..i])
      {
        RoomFor(settled, i);
        SumsGrow(settled, i);
        var f := Settle(files[i], finalized);
        files := files[i := f];
        if f.selected {
          totalLength := totalLength + f.length;
          completedLen := completedLen + f.completed;
        }
      }
      assert files == settled && settled[..|settled|] == settled;
    }

    /** Take the planned files of new metadata, unless a finalized file is not among them. */
    method RefreshFiles(planned: seq<File>) returns (ok: bool)
      requires Lengths(planned)
      modifies this
      ensures View() == Refresh(old(View()), planned)
      ensures ok <==> forall i :: i in finalized ==> i in Indexes(planned)
      ensures finalized == old(finalized)
      ensures ok ==> Settled(files, planned, finalized)
                     && totalLength as int == SelectedLength(files) && completedLen as int == SelectedCompleted(files)
      ensures !ok ==> files == old(files) && totalLength == old(totalLength) && completedLen == old(completedLen)
    {
      var valid: set<int> := {};
      for k := 0 to |planned|
        invariant forall i :: i in valid <==> i in Indexes(planned)[..k]
        invariant View() == old(View())
      {
        valid := valid + {planned[k].index};
        assert Indexes(planned)[..k + 1] == Indexes(planned)[..k] + [planned[k].index];
      }
      assert Indexes(planned)[..|planned|] == Indexes(planned);
      var todo := finalized;
      while todo != {}
        invariant todo <= finalized && View() == old(View())
        invariant forall i :: i in finalized && i !in todo ==> i in valid
        decreases todo
      {
        assert exists i :: i in todo by {
          assert (forall i :: i !in todo) ==> todo == {};
        }
        var index :| index in todo;
        if index !in valid {
          return false;
        }
        todo := todo - {index};
      }
      files := planned;
      FileStateProgress();
      return true;
    }

    /** Take the client's view of the files that are not handed over yet. */
    method UpdateProgress(snapshots: seq<Snapshot>, runs: seq<PieceRun>) returns (completed: int64)
      requires Lengths(files) && InRange(files)
      modifies `files, `completedLen, `donePieces, `bitfield
      ensures View() == Observe(old(View()), snapshots) && completed == completedLen
      ensures Shows(donePieces, bitfield, runs)
      ensures |files| == |old(files)| && forall i :: 0 <= i < |files| ==> SameFile(files[i], old(files)[i])
      ensures forall i :: 0 <= i < |files| && (files[i].index in finalized || (i < |snapshots| && snapshots[i].released)) ==>
                          files[i].completed == files[i].length
      ensures forall i :: 0 <= i < |files| && i < |snapshots| && files[i].index !in finalized && !snapshots[i].released ==>
                          Within(files[i].completed, snapshots[i].verified, files[i].length)
      ensures forall i :: |snapshots| <= i < |files| && files[i].index !in finalized ==> files[i] == old(files)[i]
      ensures completed as int == SelectedCompleted(files)
    {
      completed := ObserveFiles(snapshots);
      donePieces, bitfield := TorrentPieceProgress(runs);
    }

    method ObserveFiles(snapshots: seq<Snapshot>) returns (completed: int64)
      requires Lengths(files) && InRange(files)
      modifies `files, `completedLen
      ensures View() == Observe(old(View()), snapshots) && completed == completedLen
    {
      ghost var start, observed := files, ObserveAll(files, snapshots, finalized);
      SameSums(files, observed);
      completed := 0;
      for i := 0 to |files|
        invariant |files| == |start| == |observed|
        invariant forall k :: 0 <= k < |files| ==> files[k] == if k < i then observed[k] else start[k]
        invariant completed as int == SelectedCompleted(observed[..i])
      {
        RoomFor(observed, i);
        SumsGrow(observed, i);
        var f := Observed(files[i], i, snapshots, finalized);
        files := files[i := f];
        if f.selected {
          completed := completed + f.completed;
        }
      }
      assert files == observed && observed[..|observed|] == observed;
      completedLen := completed;
    }

    /** Finalize one file; `runs` is the piece state of the running client, if there is one. */
    method MarkFinalized(zeroBased: int, runs: Option<seq<PieceRun>>) returns (ok: bool)
      requires Lengths(files)
      modifies this
      ensures View() == Finalize(old(View()), zeroBased)
      ensures ok ==> finalized == old(finalized) + {zeroBased + 1} && Settled(files, old(files), finalized)
      ensures ok ==> totalLength as int == SelectedLength(files) && completedLen as int == SelectedCompleted(files)
      ensures !ok ==> View() == old(View())
      ensures ok <==> zeroBased + 1 in Indexes(old(files))
      ensures ok && runs.Some? ==> Shows(donePieces, bitfield, runs.value)
      ensures ok && runs.None? ==> donePieces == 0 && bitfield == UnknownBitfield(old(numPieces))
      ensures !ok ==> donePieces == old(donePieces) && bitfield == old(bitfield)
    {
      var i := 0;
      while i < |files| && files[i].index != zeroBased + 1
        invariant i <= |files| && forall j :: 0 <= j < i ==> files[j].index != zeroBased + 1
      {
        i := i + 1;
      }
      if i == |files| {
        return false;
      }
      assert Indexes(files)[i] == zeroBased + 1;
      finalized := finalized + {zeroBased + 1};
      FileStateProgress();
      if runs.Some? {
        donePieces, bitfield := TorrentPieceProgress(runs.value);
      } else {
        donePieces, bitfield := 0, UnknownBitfield(numPieces);
      }
      return true;
    }

    method ReconcileReleased(snapshots: seq<Snapshot>)
      requires Lengths(files)
      modifies this
      ensures View() == Reconcile(old(View()), snapshots)
      ensures forall k :: k in finalized <==> k in old(finalized) || IsReleased(old(files), snapshots, k)
      ensures finalized == old(finalized) ==> View() == old(View())
      ensures finalized != old(finalized) ==> Settled(files, old(files), finalized)
                                              && totalLength as int == SelectedLength(files) && completedLen as int == SelectedCompleted(files)
    {
      var reconciled := 0;
      for i := 0 to |files|
        invariant files == old(files) && View() == old(View()).(finalized := finalized)
        invariant finalized == old(finalized) + ReleasedIndexes(files[..i], snapshots)
        invariant reconciled == 0 ==> finalized == old(finalized)
        invariant reconciled > 0 ==> finalized != old(finalized)
        invariant reconciled >= 0
      {
        ReleasedGrows(files, snapshots, i);
        if i < |snapshots| && snapshots[i].released && files[i].index !in finalized {
          finalized := finalized + {files[i].index};
          reconciled := reconciled + 1;
        }
      }
      assert files[..|files|] == files;
      if reconciled != 0 {
        FileStateProgress();
      }
    }

    /** The positions still to be handed over, in order. */
    method SelectedIndexes() returns (indexes: seq<int>)
      ensures indexes == Pending(files, finalized)
      ensures forall a, b :: 0 <= a < b < |indexes| ==> indexes[a] < indexes[b]
      ensures forall k :: k in indexes <==> 0 <= k < |files| && files[k].selected && files[k].index !in finalized
    {
      indexes := [];
      for i := 0 to |files|
        invariant indexes == Pending(files[..i], finalized)
      {
        assert files[..i + 1][..i] == files[..i];
        if files[i].selected && files[i].index !in finalized {
          indexes := indexes + [i];
        }
      }
      assert files[..|files|] == files;
      forall k
        ensures k in indexes <==> 0 <= k < |files| && files[k].selected && files[k].index !in finalized
      {
        PendingIff(files, finalized, k);
      }
      PendingInOrder(files, finalized);
    }
  }

  /** The files planned under changed options with the progress of the previous ones, and their totals. */
  method RebuildStates(planned: seq<File>, s: State) returns (next: seq<File>, total: int64, completed: int64)
    requires Inv(s) && Enabled(StepRebuild(planned))
    ensures State(next, s.finalized, total as int, completed as int) == Rebuild(s, planned)
  {
    var byIndex := ByIndex(s.files);
    ghost var carried := Carry(planned, s.files, s.finalized);
    RebuildKeeps(s, planned);
    next, total, completed := [], 0, 0;
    for i := 0 to |planned|
      invariant |next| == i && forall k :: 0 <= k < i ==> next[k] == carried[k]
      invariant total as int == SelectedLength(carried[..i]) && completed as int == SelectedCompleted(carried[..i])
    {
      RoomFor(carried, i);
      SumsGrow(carried, i);
      var index := planned[i].index;
      var f := Carried(planned[i], if index in byIndex then Some(byIndex[index]) else None, s.finalized);
      next := next + [f];
      if f.selected {
        total := total + f.length;
        completed := completed + f.completed;
      }
    }
    assert next == carried && carried[..|carried|] == carried;
  }

  method ByIndex(files: seq<File>) returns (byIndex: map<int, File>)
    ensures forall index :: Previous(files, index) == if index in byIndex then Some(byIndex[index]) else None
  {
    byIndex := map[];
    for i := 0 to |files|
      invariant forall index :: Previous(files[..i], index) == if index in byIndex then Some(byIndex[index]) else None
    {
      assert files[..i + 1][..i] == files[..i];
      byIndex := byIndex[files[i].index := files[i]];
    }
    assert files[..|files|] == files;
  }

  lemma ReleasedGrows(files: seq<File>, snapshots: seq<Snapshot>, i: nat)
    requires i < |files|
    ensures ReleasedIndexes(files[..i + 1], snapshots) ==
            ReleasedIndexes(files[..i], snapshots) + if i < |snapshots| && snapshots[i].released then {files[i].index} else {}
  {
    var a, b := files[..i], files[..i + 1];
    assert forall k :: 0 <= k < i ==> a[k] == b[k];
    if i < |snapshots| && snapshots[i].released {
      assert b[i].index in ReleasedIndexes(b, snapshots);
    }
  }

  lemma SumsGrow(files: seq<File>, i: nat)
    requires i < |files|
    ensures SelectedLength(files[..i + 1]) == SelectedLength(files[..i]) + if files[i].selected then files[i].length as int else 0
    ensures SelectedCompleted(files[..i + 1]) == SelectedCompleted(files[..i]) + if files[i].selected then files[i].completed as int else 0
  {
    assert files[..i + 1][..i] == files[..i];
  }

  /** Adding the next file stays within 64 bits. */
  lemma RoomFor(files: seq<File>, i: nat)
    requires Lengths(files) && InRange(files) && i < |files|
    ensures 0 <= SelectedCompleted(files[..i]) <= SelectedLength(files[..i])
    ensures SelectedLength(files[..i]) + files[i].length as int <= MAX as int
  {
    SelectedBounds(files[..i]);
    LengthsPrefix(files, i + 1);
    assert files[..i + 1][..i] == files[..i];
  }
}
