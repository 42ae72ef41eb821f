/**
 A segmented HTTP transfer as a transition system. The loop goroutine hands out
 ranges and takes results back; the workers are an adversary that receives any
 bytes, reports them late and ends in any way and any order.
 */
module Segmented {
  import opened Collections
  import opened Machine
  import opened Chunks
  import opened Controller
  import opened Progress

  newtype byte = x: int | 0 <= x < 256

  /** A range to fetch: how often it was launched, and not before when it may be again. */
  datatype Task = Task(index: nat, attempts: nat, notBefore: Option<int>, ticket: Ticket)

  /**
   How one attempt ended. Only an error of the body carries the count of bytes to
   take back; an error of the final close does not.
   */
  datatype End =
    | Completed
    | BodyFailed(retryable: bool)
    | CloseFailed(retryable: bool)
    | Refused(retryable: bool)
    | ServerBusy

  /** A worker: the bytes it wrote, how many of them it reported, and its result once it returned. */
  datatype Attempt = Attempt(task: Task, maxTries: int, retryWait: int, data: seq<byte>, flushed: nat, end: Option<End>)

  datatype Plan = Plan(chunks: seq<Range>, total: int64, size: int64)

  /** `finished` maps a finished range to what its last attempt received; `launches` counts attempts a range. */
  datatype State = State(
    plan: Plan, file: seq<byte>,
    tasks: seq<Task>, flight: map<nat, Attempt>, active: int, failed: bool,
    controller: Controller, progress: Progress,
    finished: map<nat, seq<byte>>, abandoned: set<nat>, launches: seq<nat>, closeFailures: nat)

  ghost predicate PlanOk(p: Plan)
  {
    0 < p.total && 0 < p.size && Cut(p.chunks, p.total as int, p.size as int) && |p.chunks| <= MAX_SEGMENTS as int
  }

  function Start(p: Plan, i: nat): int
    requires i < |p.chunks|
  {
    p.chunks[i].start as int
  }

  function Size(p: Plan, i: nat): int
    requires i < |p.chunks|
  {
    p.chunks[i].end as int - p.chunks[i].start as int + 1
  }

  // ----- the loop goroutine -----

  function FirstTasks(n: nat): seq<Task>
  {
    seq(n, i requires 0 <= i < n => Task(i, 0, None, Ticket(0, 0)))
  }

  ghost function Initial(p: Plan, file: seq<byte>): State
  {
    State(p, file, FirstTasks(|p.chunks|), map[], 0, false, NewController(), Reset(p.total, p.chunks),
          map[], {}, seq(|p.chunks|, _ => 0), 0)
  }

  /** The options that bound the workers: the split count and the connections to one server. */
  datatype Connections = Connections(split: int, perServer: int)

  /** The most workers the options allow: the largest number neither option rules out, and at least one. */
  function Configured(workers: Connections): (r: int)
    ensures 1 <= r && (r == 1 || (r <= workers.split && r <= workers.perServer))
    ensures workers.split <= r || workers.perServer <= r
  {
    var split := if workers.split < 1 then 1 else workers.split;
    var perServer := if workers.perServer < 1 then 1 else workers.perServer;
    if split < perServer then split else perServer
  }

  /** The worker limit: the most the options allow and the ranges left can use, and at least one. */
  function WorkerLimit(workers: Connections, remaining: int): (r: int)
    ensures 1 <= r <= Configured(workers) && (r == 1 || r <= remaining)
    ensures workers.split <= r || workers.perServer <= r || remaining <= r
  {
    var most := if remaining < 1 then 1 else remaining;
    var limit := Configured(workers);
    if limit > most then most else limit
  }

  function Remaining(s: State, withResult: bool): int
  {
    s.active + |s.tasks| + if withResult then 1 else 0
  }

  predicate IsReady(t: Task, now: int)
  {
    t.notBefore.None? || t.notBefore.value <= now
  }

  /** The first ready task, or the number of tasks when none is. */
  function ReadyIndex(tasks: seq<Task>, now: int): (k: nat)
    ensures k <= |tasks|
    ensures k < |tasks| ==> IsReady(tasks[k], now)
    ensures forall j :: 0 <= j < k ==> !IsReady(tasks[j], now)
  {
    if tasks == [] then 0 else
    if IsReady(tasks[0], now) then 0 else 1 + ReadyIndex(tasks[1..], now)
  }

  ghost function Adjust(s: State, workers: Connections): State
  {
    s.(controller := Clamp(s.controller, WorkerLimit(workers, Remaining(s, false))))
  }

  ghost predicate CanLaunch(s: State, now: int)
  {
    !s.failed && s.active < Limit(s.controller) && ReadyIndex(s.tasks, now) < |s.tasks|
  }

  function Launched(t: Task, c: Controller, maxTries: int, retryWait: int): Attempt
  {
    Attempt(t.(attempts := t.attempts + 1, ticket := TicketOf(c)), if maxTries < 0 then 1 else maxTries, retryWait, [], 0, None)
  }

  ghost function LaunchTask(s: State, k: nat, maxTries: int, retryWait: int): State
    requires k < |s.tasks|
  {
    var t := s.tasks[k];
    s.(tasks := s.tasks[..k] + s.tasks[k + 1..],
       flight := s.flight[t.index := Launched(t, s.controller, maxTries, retryWait)],
       active := s.active + 1,
       launches := if t.index < |s.launches| then s.launches[t.index := s.launches[t.index] + 1] else s.launches)
  }

  predicate CanRetry(attempts: int, maxTries: int)
  {
    maxTries == 0 || attempts < (if maxTries < 0 then 1 else maxTries)
  }

  /** Whether a failed attempt may go back to the queue. */
  predicate Again(a: Attempt)
    requires a.end.Some?
  {
    && CanRetry(a.task.attempts, a.maxTries)
    && match a.end.value
       case Completed => false
       case ServerBusy => true
       case BodyFailed(retryable) => retryable
       case CloseFailed(retryable) => retryable
       case Refused(retryable) => retryable
  }

  function ControllerAfter(c: Controller, a: Attempt, workers: Connections, remaining: int): Controller
    requires a.end.Some?
  {
    match a.end.value
    case Completed => Success(c, a.task.ticket, WorkerLimit(workers, remaining))
    case ServerBusy => Throttle(c, a.task.ticket, WorkerLimit(workers, if Again(a) then remaining + 1 else remaining))
    case _ => if Again(a) then RetryableError(c, a.task.ticket, WorkerLimit(workers, remaining + 1)) else c
  }

  ghost function ProgressAfter(p: Progress, i: nat, a: Attempt): Progress
    requires a.end.Some?
  {
    match a.end.value
    case Completed => Mark(p, i)
    case BodyFailed(_) => Rollback(p, Wrap(|a.data|))
    case _ => p
  }

  /** The loop takes the result of range `i`. */
  ghost function Receive(s: State, i: nat, now: int, workers: Connections): State
    requires i in s.flight && s.flight[i].end.Some?
  {
    var a := s.flight[i];
    var s1 := s.(flight := s.flight - {i}, active := s.active - 1);
    var s2 := s1.(controller := ControllerAfter(s.controller, a, workers, Remaining(s1, false)),
                  progress := ProgressAfter(s.progress, i, a),
                  closeFailures := s.closeFailures + if a.end.value.CloseFailed? then 1 else 0);
    if a.end.value.Completed? then s2.(finished := s.finished[i := a.data])
    else if Again(a) then s2.(tasks := s.tasks + [a.task.(notBefore := Some(now + a.retryWait))])
    else s2.(abandoned := s.abandoned + {i}, failed := true)
  }

  // ----- the workers -----

  ghost function Splice(file: seq<byte>, at: int, data: seq<byte>): seq<byte>
    requires 0 <= at && at + |data| <= |file|
  {
    file[..at] + data + file[at + |data|..]
  }

  ghost predicate CanWrite(s: State, i: nat, data: seq<byte>)
  {
    && i in s.flight && i < |s.plan.chunks| && s.flight[i].end.None?
    && |s.flight[i].data| + |data| <= Size(s.plan, i)
    && 0 <= Start(s.plan, i) && Start(s.plan, i) + |s.flight[i].data| + |data| <= |s.file|
  }

  ghost function Write(s: State, i: nat, data: seq<byte>): State
    requires CanWrite(s, i, data)
  {
    var a := s.flight[i];
    s.(file := Splice(s.file, Start(s.plan, i) + |a.data|, data),
       flight := s.flight[i := a.(data := a.data + data)])
  }

  /** Report `n` of the bytes written and not yet reported. */
  ghost function Flush(s: State, i: nat, n: nat): State
    requires i in s.flight
  {
    var a := s.flight[i];
    s.(progress := Add(s.progress, Wrap(n)), flight := s.flight[i := a.(flushed := a.flushed + n)])
  }

  /** How an attempt that wrote `data` and reported `flushed` bytes of it may end. */
  ghost predicate CanEnd(p: Plan, i: nat, data: seq<byte>, flushed: int, end: End)
    requires i < |p.chunks|
  {
    && flushed == |data|
    && match end
       case Completed => |data| == Size(p, i)
       case CloseFailed(_) => |data| == Size(p, i)
       case BodyFailed(_) => true
       case Refused(_) => data == []
       case ServerBusy => data == []
  }

  ghost function Finish(s: State, i: nat, end: End): State
    requires i in s.flight
  {
    s.(flight := s.flight[i := s.flight[i].(end := Some(end))])
  }

  // ----- runs -----

  datatype Step =
    | StepAdjust(workers: Connections)
    | StepLaunch(now: int, maxTries: int, retryWait: int)
    | StepReceive(index: nat, now: int, workers: Connections)
    | StepCancel
    | StepWrite(index: nat, data: seq<byte>)
    | StepFlush(index: nat, n: nat)
    | StepEnd(index: nat, end: End)

  ghost predicate Enabled(s: State, step: Step)
  {
    match step
    case StepAdjust(_) => !s.failed
    case StepLaunch(now, _, _) => CanLaunch(s, now)
    case StepReceive(i, _, _) => i in s.flight && s.flight[i].end.Some?
    case StepCancel => true
    case StepWrite(i, data) => CanWrite(s, i, data)
    case StepFlush(i, n) => i in s.flight && s.flight[i].end.None? && 0 < n && s.flight[i].flushed + n <= |s.flight[i].data|
    case StepEnd(i, end) => i in s.flight && s.flight[i].end.None? && i < |s.plan.chunks| && CanEnd(s.plan, i, s.flight[i].data, s.flight[i].flushed, end)
  }

  ghost function Apply(s: State, step: Step): State
    requires Enabled(s, step)
  {
    match step
    case StepAdjust(workers) => Adjust(s, workers)
    case StepLaunch(now, maxTries, retryWait) => LaunchTask(s, ReadyIndex(s.tasks, now), maxTries, retryWait)
    case StepReceive(i, now, workers) => Receive(s, i, now, workers)
    case StepCancel => s.(failed := true)
    case StepWrite(i, data) => Write(s, i, data)
    case StepFlush(i, n) => Flush(s, i, n)
    case StepEnd(i, end) => Finish(s, i, end)
  }

  ghost predicate Execution(states: seq<State>, steps: seq<Step>)
  {
    && |states| == |steps| + 1
    && Begins(states[0])
    && forall i :: 0 <= i < |steps| ==> StepAt(states, steps, i)
  }

  /** A sound cut of a known length, and a file of that length with anything in it. */
  ghost predicate Begins(s: State)
  {
    PlanOk(s.plan) && |s.file| == s.plan.total as int && s == Initial(s.plan, s.file)
  }

  ghost predicate StepAt(states: seq<State>, steps: seq<Step>, i: nat)
    requires i < |steps| && |states| == |steps| + 1
  {
    Enabled(states[i], steps[i]) && states[i + 1] == Apply(states[i], steps[i])
  }

  /** The loop leaves when nothing is left to do, or when nothing runs any more after an error. */
  ghost predicate LoopExits(s: State)
  {
    (s.tasks == [] && s.active == 0) || (s.failed && s.active == 0)
  }

  /** It then reports success when no error was recorded. */
  ghost predicate Succeeds(s: State)
  {
    LoopExits(s) && !s.failed
  }
}
