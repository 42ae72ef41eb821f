/** The loop goroutine of a segmented transfer with its state kept in place. */
module SegmentedLoop {
  import opened Collections
  import opened Machine
  import opened Controller
  import opened Progress
  import opened Segmented
  import opened SegmentedInvariant

  /** The retry settings a launch reads from the options of that moment. */
  datatype Settings = Settings(maxTries: int, retryWait: int)

  /** Launches until the limit is reached or no task is due; `settings` gives the options at each launch. */
  ghost function Pass(s: State, now: int, settings: nat -> Settings, n: nat): State
    decreases |s.tasks|
  {
    if !CanLaunch(s, now) then s
    else Pass(LaunchTask(s, ReadyIndex(s.tasks, now), settings(n).maxTries, settings(n).retryWait), now, settings, n + 1)
  }

  lemma {:induction false} PassEndsHere(s: State, now: int, settings: nat -> Settings, n: nat)
    requires !CanLaunch(s, now)
    ensures Pass(s, now, settings, n) == s
  {
  }

  lemma {:induction false} PassGoesOn(s: State, now: int, settings: nat -> Settings, n: nat)
    requires CanLaunch(s, now)
    ensures var t := LaunchTask(s, ReadyIndex(s.tasks, now), settings(n).maxTries, settings(n).retryWait);
            Pass(s, now, settings, n) == Pass(t, now, settings, n + 1)
  {
  }

  /** A pass ends with the limit reached or no task due, and stays within the limit. */
  lemma {:induction false} PassEnds(s: State, now: int, settings: nat -> Settings, n: nat)
    ensures var t := Pass(s, now, settings, n);
            && !CanLaunch(t, now) && t.controller == s.controller && t.failed == s.failed
            && s.active <= t.active <= (if s.active > Limit(s.controller) then s.active else Limit(s.controller))
            && t.active + |t.tasks| == s.active + |s.tasks|
    decreases |s.tasks|
  {
    if CanLaunch(s, now) {
      PassEnds(LaunchTask(s, ReadyIndex(s.tasks, now), settings(n).maxTries, settings(n).retryWait), now, settings, n + 1);
    }
  }

  /** A pass is a run of launch steps, so it keeps what every step keeps. */
  lemma {:induction false} PassKeeps(s: State, now: int, settings: nat -> Settings, n: nat)
    requires Inv(s)
    ensures Inv(Pass(s, now, settings, n))
    decreases |s.tasks|
  {
    if CanLaunch(s, now) {
      var step := StepLaunch(now, settings(n).maxTries, settings(n).retryWait);
      StepKeeps(s, step);
      PassKeeps(Apply(s, step), now, settings, n + 1);
    }
  }

  /**
   A whole launch pass in any state of any execution: the limit is then at most
   the worker limit of the moment, the workers are not taken above it, no task is
   lost, what every step keeps is kept, and if nothing was running and a task was
   due, something runs now.
   */
  lemma {:induction false} LaunchWithinLimit(states: seq<State>, steps: seq<Step>, i: nat,
                                             now: int, workers: Connections, settings: nat -> Settings)
    requires Execution(states, steps) && i < |states| && !states[i].failed
    ensures var s := states[i];
            var t := Pass(Adjust(s, workers), now, settings, 0);
            && Inv(t) && !CanLaunch(t, now)
            && 1 <= Limit(t.controller) <= WorkerLimit(workers, Remaining(s, false))
            && s.active <= t.active <= (if s.active > Limit(t.controller) then s.active else Limit(t.controller))
            && Remaining(t, false) == Remaining(s, false)
            && (s.flight == map[] && ReadyIndex(s.tasks, now) < |s.tasks| ==> 1 <= t.active)
  {
    ExecutionKeeps(states, steps, i);
    var s := states[i];
    StepKeeps(s, StepAdjust(workers));
    PassKeeps(Adjust(s, workers), now, settings, 0);
    PassEnds(Adjust(s, workers), now, settings, 0);
    PassStarts(Adjust(s, workers), now, settings);
  }

  lemma {:induction false} PassStarts(s: State, now: int, settings: nat -> Settings)
    requires LoopOk(s)
    ensures s.flight == map[] && !s.failed && ReadyIndex(s.tasks, now) < |s.tasks| ==> 1 <= Pass(s, now, settings, 0).active
  {
    if s.flight == map[] && !s.failed && ReadyIndex(s.tasks, now) < |s.tasks| {
      assert |s.flight| == 0 && CanLaunch(s, now);
      var t := LaunchTask(s, ReadyIndex(s.tasks, now), settings(0).maxTries, settings(0).retryWait);
      PassEnds(t, now, settings, 1);
    }
  }

  class Transfer {
    const plan: Plan
    var tasks: seq<Task>
    var active: int
    var failed: bool
    const controller: SegmentedConcurrencyController
    const progress: DownloadProgress

    // The workers, the file and the bookkeeping of the proof.
    ghost var file: seq<byte>
    ghost var flight: map<nat, Attempt>
    ghost var finished: map<nat, seq<byte>>
    ghost var abandoned: set<nat>
    ghost var launches: seq<nat>
    ghost var closeFailures: nat

    ghost function View(): State
      reads this, controller, progress
    {
      State(plan, file, tasks, flight, active, failed, controller.View(), progress.View(),
            finished, abandoned, launches, closeFailures)
    }

    constructor (plan: Plan, progress: DownloadProgress, ceiling: int, ghost file: seq<byte>)
      modifies progress
      ensures View() == Initial(plan, file) && this.progress == progress && progress.Valid() && fresh(controller)
    {
      this.plan, this.progress, this.file := plan, progress, file;
      controller := new SegmentedConcurrencyController(ceiling);
      active, failed, flight, finished, abandoned, closeFailures := 0, false, map[], map[], {}, 0;
      launches := seq(|plan.chunks|, _ => 0);
      new;
      progress.ResetProgress(plan.total, plan.chunks);
      tasks := [];
      for i := 0 to |plan.chunks|
        invariant tasks == FirstTasks(i)
        invariant View() == Initial(plan, file).(tasks := tasks) && progress.Valid()
      {
        tasks := tasks + [Task(i, 0, None, Ticket(0, 0))];
      }
    }

    method StartReady(now: int, workers: Connections, settings: nat -> Settings)
      modifies this, controller
      ensures View() == if old(failed) then old(View()) else Pass(Adjust(old(View()), workers), now, settings, 0)
    {
      if failed {
        return;
      }
      controller.ClampCeiling(WorkerLimit(workers, active + |tasks|));
      StartAll(now, settings);
    }

    method StartAll(now: int, settings: nat -> Settings)
      requires !failed
      modifies this
      ensures View() == Pass(old(View()), now, settings, 0)
    {
      ghost var start := View();
      var n := 0;
      while active < Limit(controller.View())
        invariant !failed && Pass(View(), now, settings, n) == Pass(start, now, settings, 0)
        decreases |tasks|
      {
        var k := ReadyIndex(tasks, now);
        if k == |tasks| {
          PassEndsHere(View(), now, settings, n);
          return;
        }
        PassGoesOn(View(), now, settings, n);
        StartTask(k, settings(n).maxTries, settings(n).retryWait);
        n := n + 1;
      }
      PassEndsHere(View(), now, settings, n);
    }

    method StartTask(k: nat, maxTries: int, retryWait: int)
      requires k < |tasks|
      modifies this
      ensures View() == LaunchTask(old(View()), k, maxTries, retryWait)
    {
      var task := tasks[k];
      var attempt := Launched(task, controller.View(), maxTries, retryWait);
      tasks := tasks[..k] + tasks[k + 1..];
      active := active + 1;
      flight := flight[task.index := attempt];
      launches := if task.index < |launches| then launches[task.index := launches[task.index] + 1] else launches;
    }

    /** Take a worker's result; `completed` is the byte count its body error carries. */
    method TakeResult(i: nat, task: Task, end: End, maxTries: int, retryWait: int, completed: int64, now: int, workers: Connections)
      requires i in flight && flight[i].end == Some(end) && progress.Valid()
      requires flight[i].task == task && flight[i].maxTries == maxTries && flight[i].retryWait == retryWait
      requires completed == Wrap(|flight[i].data|) && i == task.index
      modifies this, controller, progress
      ensures progress.Valid() && View() == Receive(old(View()), i, now, workers)
    {
      if end.Completed? {
        TakeSuccess(i, task, now, workers);
      } else {
        TakeFailure(i, task, end, maxTries, retryWait, completed, now, workers);
      }
    }

    method TakeSuccess(i: nat, task: Task, ghost now: int, workers: Connections)
      requires i in flight && flight[i].end == Some(Completed) && flight[i].task == task && i == task.index && progress.Valid()
      modifies this, controller, progress
      ensures progress.Valid() && View() == Receive(old(View()), i, now, workers)
    {
      finished := finished[i := flight[i].data];
      active := active - 1;
      flight := flight - {i};
      progress.MarkPieceComplete(task.index);
      controller.OnSuccess(task.ticket, WorkerLimit(workers, active + |tasks|));
    }

    method TakeFailure(i: nat, task: Task, end: End, maxTries: int, retryWait: int, completed: int64, now: int, workers: Connections)
      requires i in flight && flight[i].end == Some(end) && progress.Valid()
      requires flight[i].task == task && flight[i].maxTries == maxTries && flight[i].retryWait == retryWait
      requires completed == Wrap(|flight[i].data|) && i == task.index
      requires !end.Completed?
      modifies this, controller, progress
      ensures progress.Valid() && View() == Receive(old(View()), i, now, workers)
    {
      Retract(i, end, completed);
      var retry := Reconsider(task, end, maxTries, workers);
      assert retry == Again(old(flight[i]));
      assert controller.View() == ControllerAfter(old(controller.View()), old(flight[i]), workers, active + |tasks|);
      if retry {
        tasks := tasks + [task.(notBefore := Some(now + retryWait))];
      } else {
        failed := true;
        abandoned := abandoned + {i};
      }
    }

    /** The attempt is over, and what its body error names is taken back. */
    method Retract(i: nat, end: End, completed: int64)
      requires i in flight && flight[i].end == Some(end) && !end.Completed? && progress.Valid()
      requires completed == Wrap(|flight[i].data|)
      modifies this, progress
      ensures progress.Valid()
      ensures View() == old(View()).(flight := old(flight) - {i}, active := old(active) - 1,
                                     progress := ProgressAfter(old(progress.View()), i, old(flight[i])),
                                     closeFailures := old(closeFailures) + if end.CloseFailed? then 1 else 0)
    {
      active := active - 1;
      flight := flight - {i};
      closeFailures := closeFailures + if end.CloseFailed? then 1 else 0;
      if end.BodyFailed? {
        progress.RollbackCompleted(completed);
      }
    }

    /** Tell the controller about a failed attempt and whether the range is tried again. */
    method Reconsider(task: Task, end: End, maxTries: int, workers: Connections) returns (retry: bool)
      requires !end.Completed?
      modifies controller
      ensures var a := Attempt(task, maxTries, 0, [], 0, Some(end));
              retry == Again(a) && controller.View() == ControllerAfter(old(controller.View()), a, workers, active + |tasks|)
    {
      var canRetry := CanRetry(task.attempts, maxTries);
      if end.ServerBusy? {
        controller.OnThrottle(task.ticket, WorkerLimit(workers, if canRetry then active + |tasks| + 1 else active + |tasks|));
        return canRetry;
      }
      if end.retryable && canRetry {
        controller.OnRetryableError(task.ticket, WorkerLimit(workers, active + |tasks| + 1));
        return true;
      }
      return false;
    }
  }
}
