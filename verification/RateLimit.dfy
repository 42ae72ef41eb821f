/**
 The chain of rate limiters: a download's own limiter, then those it shares with
 others. Times are nanoseconds; every limiter keeps the time up to which its
 bandwidth is spoken for. A caller reserves at one limiter after the other, each
 under that limiter's own lock, so callers interleave between their limiters.
 */
module RateLimit {
  import opened Collections
  import opened Chunks

  const SECOND: int := 1_000_000_000

  /** How many steps of `b` cover `a`. */
  function Steps(a: nat, b: nat): nat
    requires 0 < b
    decreases a
  {
    if a == 0 then 0 else 1 + Steps(if a <= b then 0 else a - b, b)
  }

  lemma {:induction false} StepsCover(a: nat, b: nat)
    requires 0 < a && 0 < b
    ensures (Steps(a, b) - 1) * b < a <= Steps(a, b) * b
    decreases a
  {
    var d := Steps(a, b);
    if a <= b {
      assert d == 1 + Steps(0, b) == 1;
    } else {
      StepsCover(a - b, b);
      assert Steps(a - b, b) == d - 1;
      assert (d - 2) * b == (d - 1) * b - b && d * b == (d - 1) * b + b;
    }
  }

  /** The time `n` bytes take at `limit` bytes a second, rounded up to a nanosecond. */
  function Duration(n: int, limit: int): (d: int)
    ensures if n <= 0 || limit <= 0 then d == 0 else 1 <= d
  {
    if n <= 0 || limit <= 0 then 0 else Steps(n * 1_000_000_000, limit)
  }

  /** It is the least time in which the rate allows that many bytes. */
  lemma DurationIsCeiling(n: int, limit: int)
    requires n > 0 && limit > 0
    ensures (Duration(n, limit) - 1) * limit < n * SECOND <= Duration(n, limit) * limit
  {
    StepsCover(n * SECOND, limit);
  }

  // ----- one limiter -----

  /** `n` bytes asked for at time `now` by the caller with that ticket number. */
  datatype Request = Request(now: int, n: int, caller: nat)

  /** `log` holds the requests served since the limit last changed. */
  datatype Limiter = Limiter(limit: int, next: Option<int>, log: seq<Request>)

  function Later(next: Option<int>, now: int): int
  {
    if next.None? || next.value < now then now else next.value
  }

  /** One reservation under the lock; `observed` is the limit read just before it. */
  function ReserveIn(l: Limiter, observed: int, r: Request): Limiter
  {
    var l := if observed != l.limit then Limiter(observed, Some(r.now), []) else l;
    if l.limit <= 0 then l
    else l.(next := Some(Later(l.next, r.now) + Duration(r.n, l.limit)), log := l.log + [r])
  }

  /** The time the limiter answers: what it is now spoken for, or at once without a limit. */
  function Answer(l: Limiter, r: Request): int
  {
    if l.limit <= 0 || l.next.None? then r.now else l.next.value
  }

  /** The time up to which a limiter is spoken for after the requests it served. */
  ghost function Next(limit: int, log: seq<Request>): Option<int>
  {
    if log == [] then None
    else
      var last := log[|log| - 1];
      Some(Later(Next(limit, log[..|log| - 1]), last.now) + Duration(last.n, limit))
  }

  ghost predicate Requests(log: seq<Request>)
  {
    forall i :: 0 <= i < |log| ==> 0 < log[i].n
  }

  ghost predicate Valid(l: Limiter)
  {
    && Requests(l.log)
    && (l.limit <= 0 ==> l.log == [])
    && (l.limit > 0 ==> l.next == Next(l.limit, l.log))
  }

  lemma {:induction false} NextOfLast(limit: int, log: seq<Request>, r: Request)
    ensures Next(limit, log + [r]) == Some(Later(Next(limit, log), r.now) + Duration(r.n, limit))
  {
    assert (log + [r])[..|log|] == log;
  }

  lemma {:induction false} ReserveKeeps(l: Limiter, observed: int, r: Request)
    requires Valid(l) && 0 < r.n
    ensures var m := ReserveIn(l, observed, r);
            && Valid(m) && m.limit == observed
            && (observed > 0 ==> Next(observed, m.log) == Some(Answer(m, r)) && m.log[|m.log| - 1] == r)
            && m.log == (if observed <= 0 then [] else (if observed == l.limit then l.log else []) + [r])
  {
    if observed > 0 {
      var base := if observed == l.limit then l else Limiter(observed, Some(r.now), []);
      BookedIs(base, r, Duration(r.n, observed));
    }
  }

  /** A booking at a limiter that is new or spoken for as its log says. */
  lemma {:induction false} BookedIs(l: Limiter, r: Request, d: int)
    requires l.limit > 0 && (l.next == Next(l.limit, l.log) || (l.log == [] && l.next == Some(r.now)))
    requires d == Duration(r.n, l.limit) && Requests(l.log) && 0 < r.n
    ensures var m := l.(next := Some(Later(l.next, r.now) + d), log := l.log + [r]);
            Valid(m) && Next(m.limit, m.log) == m.next && m.log[|m.log| - 1] == r
  {
    NextOfLast(l.limit, l.log, r);
    assert l.log == [] ==> Next(l.limit, l.log) == None;
  }

  /** No caller waits longer than needed: from when the limiter is free, the least time its bytes take at the limit. */
  lemma AnswerIsEarliest(limit: int, log: seq<Request>, r: Request)
    requires limit > 0 && r.n > 0
    ensures Next(limit, log + [r]).Some?
    ensures var free := if log == [] || Next(limit, log).value < r.now then r.now else Next(limit, log).value;
            var d := Next(limit, log + [r]).value;
            free < d && (d - free - 1) * limit < r.n * SECOND <= (d - free) * limit
  {
    NextOfLast(limit, log, r);
    DurationIsCeiling(r.n, limit);
  }

  ghost function Total(log: seq<Request>): int
  {
    if log == [] then 0 else Total(log[..|log| - 1]) + log[|log| - 1].n
  }

  /** Up to its own deadline a limiter has let at most its limit through since the first request. */
  lemma {:induction false} DeadlineCovers(limit: int, log: seq<Request>)
    requires limit > 0 && Requests(log) && log != []
    ensures Total(log) * SECOND <= limit * (Next(limit, log).value - log[0].now)
  {
    var k := |log| - 1;
    var last, before := log[k], log[..k];
    var d := Duration(last.n, limit);
    DurationIsCeiling(last.n, limit);
    if k == 0 {
      assert Total(before) == 0 && log[0] == last;
      assert limit * d == d * limit;
    } else {
      DeadlineCovers(limit, before);
      var base := Later(Next(limit, before), last.now);
      ProductOrder(Next(limit, before).value - log[0].now, base - log[0].now, limit);
      Spread(limit, base - log[0].now, d);
    }
  }

  lemma Spread(limit: int, a: int, b: int)
    ensures limit * (a + b) == limit * a + limit * b && limit * a == a * limit && limit * b == b * limit
  {
  }

  /** The bytes of the requests whose caller is free to go on at time `t`; `due` is when, if that is settled. */
  ghost function Passed(log: seq<Request>, due: seq<Option<int>>, t: int): int
    requires |due| == |log|
  {
    if log == [] then 0
    else
      var k := |log| - 1;
      Passed(log[..k], due[..k], t) + if due[k].Some? && due[k].value <= t then log[k].n else 0
  }

  /** No caller goes on before this limiter's own deadline for its request. */
  ghost predicate Waited(limit: int, log: seq<Request>, due: seq<Option<int>>)
  {
    |due| == |log| && forall i :: 0 <= i < |log| && due[i].Some? ==> Next(limit, log[..i + 1]).value <= due[i].value
  }

  lemma {:induction false} PassedIsEarly(limit: int, log: seq<Request>, due: seq<Option<int>>, t: int, n: nat) returns (i: nat)
    requires Requests(log) && Waited(limit, log, due) && n <= |log|
    ensures i <= n && Passed(log[..n], due[..n], t) <= Total(log[..i])
    ensures i == 0 || Next(limit, log[..i]).value <= t
  {
    if n == 0 {
      i := 0;
    } else {
      assert log[..n][..n - 1] == log[..n - 1] && due[..n][..n - 1] == due[..n - 1];
      i := PassedIsEarly(limit, log, due, t, n - 1);
      if due[n - 1].Some? && due[n - 1].value <= t {
        TotalGrows(log, i, n - 1);
        assert Next(limit, log[..n - 1 + 1]).value <= due[n - 1].value;
        i := n;
      }
    }
  }

  lemma {:induction false} TotalGrows(log: seq<Request>, i: nat, j: nat)
    requires Requests(log) && i <= j <= |log|
    ensures Total(log[..i]) <= Total(log[..j])
    decreases j
  {
    if i < j {
      assert log[..j][..j - 1] == log[..j - 1];
      TotalGrows(log, i, j - 1);
    }
  }

  lemma PassedBound(limit: int, log: seq<Request>, due: seq<Option<int>>, t: int)
    requires limit > 0 && Requests(log) && Waited(limit, log, due) && log != []
    ensures Passed(log, due, t) <= 0 || Passed(log, due, t) * SECOND <= limit * (t - log[0].now)
  {
    assert log[..|log|] == log && due[..|log|] == due;
    var i := PassedIsEarly(limit, log, due, t, |log|);
    if i > 0 {
      assert Requests(log[..i]) && log[..i][0] == log[0];
      DeadlineCovers(limit, log[..i]);
      ProductOrder(Next(limit, log[..i]).value - log[0].now, t - log[0].now, limit);
      Spread(limit, Next(limit, log[..i]).value - log[0].now, 0);
      Spread(limit, t - log[0].now, 0);
    }
  }

  // ----- all limiters and callers together -----

  type Id = nat

  /** A caller on its way along its chain: `k` limiters booked, and the latest of their answers. */
  datatype Caller = Caller(chain: seq<Id>, now: int, n: int, k: nat, deadline: int)

  datatype State = State(limiters: map<Id, Limiter>, callers: map<nat, Caller>)

  datatype Step =
    | Create(id: Id, limit: int)
    | Open(caller: nat, chain: seq<Id>, now: int, n: int)
    | Reserve(caller: nat, observed: int)

  ghost predicate Enabled(s: State, step: Step)
  {
    match step
    case Create(id, _) => id !in s.limiters
    case Open(c, chain, _, n) => c !in s.callers && 0 < n && forall i :: 0 <= i < |chain| ==> chain[i] in s.limiters
    case Reserve(c, _) =>
      && c in s.callers && s.callers[c].k < |s.callers[c].chain| && s.callers[c].chain[s.callers[c].k] in s.limiters
  }

  /** The next limiter of a caller's chain. */
  function Target(s: State, c: nat): Id
    requires c in s.callers && s.callers[c].k < |s.callers[c].chain|
  {
    s.callers[c].chain[s.callers[c].k]
  }

  ghost function Apply(s: State, step: Step): State
    requires Enabled(s, step)
  {
    match step
    case Create(id, limit) => s.(limiters := s.limiters[id := Limiter(limit, None, [])])
    case Open(c, chain, now, n) => s.(callers := s.callers[c := Caller(chain, now, n, 0, now)])
    case Reserve(c, observed) =>
      var w := s.callers[c];
      var r := Request(w.now, w.n, c);
      var l := ReserveIn(s.limiters[Target(s, c)], observed, r);
      State(s.limiters[Target(s, c) := l],
            s.callers[c := w.(k := w.k + 1, deadline := if Answer(l, r) > w.deadline then Answer(l, r) else w.deadline)])
  }

  ghost predicate Execution(states: seq<State>, steps: seq<Step>)
  {
    && |states| == |steps| + 1 && states[0] == State(map[], map[])
    && forall i :: 0 <= i < |steps| ==> StepAt(states, steps, i)
  }

  ghost predicate StepAt(states: seq<State>, steps: seq<Step>, i: nat)
    requires i < |steps| && |states| == |steps| + 1
  {
    Enabled(states[i], steps[i]) && states[i + 1] == Apply(states[i], steps[i])
  }

  /** Whoever made a request will wait for this limiter's deadline of it, wherever on its chain it is. */
  ghost predicate Covered(l: Limiter, callers: map<nat, Caller>)
  {
    forall i :: 0 <= i < |l.log| ==>
      l.log[i].caller in callers && Next(l.limit, l.log[..i + 1]).value <= callers[l.log[i].caller].deadline
  }

  ghost predicate Inv(s: State)
  {
    && (forall id :: id in s.limiters ==> Valid(s.limiters[id]) && Covered(s.limiters[id], s.callers))
    && (forall c :: c in s.callers ==> 0 < s.callers[c].n)
  }

  /** Callers join and their deadlines only grow. */
  ghost predicate Postponed(a: map<nat, Caller>, b: map<nat, Caller>)
  {
    forall c :: c in a ==> c in b && a[c].deadline <= b[c].deadline
  }

  lemma CoveredLater(l: Limiter, a: map<nat, Caller>, b: map<nat, Caller>)
    requires Covered(l, a) && Postponed(a, b)
    ensures Covered(l, b)
  {
  }

  lemma ReserveCovers(l: Limiter, observed: int, r: Request, callers: map<nat, Caller>)
    requires Valid(l) && 0 < r.n && Covered(l, callers)
    requires r.caller in callers && Answer(ReserveIn(l, observed, r), r) <= callers[r.caller].deadline
    ensures Covered(ReserveIn(l, observed, r), callers)
  {
    var m := ReserveIn(l, observed, r);
    ReserveKeeps(l, observed, r);
    forall i | 0 <= i < |m.log|
      ensures m.log[i].caller in callers && Next(m.limit, m.log[..i + 1]).value <= callers[m.log[i].caller].deadline
    {
      if i == |m.log| - 1 {
        assert m.log[..i + 1] == m.log;
      } else {
        assert m.log[..i + 1] == l.log[..i + 1];
      }
    }
  }

  lemma StepKeeps(s: State, step: Step)
    requires Inv(s) && Enabled(s, step)
    ensures Inv(Apply(s, step)) && Postponed(s.callers, Apply(s, step).callers)
  {
    var t := Apply(s, step);
    forall id | id in t.limiters
      ensures Valid(t.limiters[id]) && Covered(t.limiters[id], t.callers)
    {
      if id in s.limiters {
        CoveredLater(s.limiters[id], s.callers, t.callers);
      }
      if step.Reserve? && id == Target(s, step.caller) {
        TargetKeeps(s, step, id);
      }
    }
  }

  lemma TargetKeeps(s: State, step: Step, id: Id)
    requires Inv(s) && Enabled(s, step) && step.Reserve? && id == Target(s, step.caller)
    requires Covered(s.limiters[id], Apply(s, step).callers)
    ensures Valid(Apply(s, step).limiters[id]) && Covered(Apply(s, step).limiters[id], Apply(s, step).callers)
  {
    var w := s.callers[step.caller];
    var r := Request(w.now, w.n, step.caller);
    ReserveKeeps(s.limiters[id], step.observed, r);
    ReserveCovers(s.limiters[id], step.observed, r, Apply(s, step).callers);
  }

  lemma {:induction false} ExecutionKeeps(states: seq<State>, steps: seq<Step>, i: nat)
    requires Execution(states, steps) && i < |states|
    ensures Inv(states[i])
  {
    if i > 0 {
      ExecutionKeeps(states, steps, i - 1);
      assert StepAt(states, steps, i - 1);
      StepKeeps(states[i - 1], steps[i - 1]);
    }
  }

  /** When a request's caller may go on: at its composed deadline, once its whole chain is booked. */
  ghost function DueAt(s: State, r: Request): Option<int>
  {
    if r.caller in s.callers && s.callers[r.caller].k == |s.callers[r.caller].chain|
    then Some(s.callers[r.caller].deadline) else None
  }

  ghost function Dues(s: State, log: seq<Request>): seq<Option<int>>
  {
    seq(|log|, i requires 0 <= i < |log| => DueAt(s, log[i]))
  }

  /**
   The rate holds for every limiter in every interleaving of its callers, whatever
   other limiters they wait for: of the bytes reserved since its limit last
   changed, those whose composed deadline is at or before `t` are at most `limit`
   a second since the first of these reservations.
   */
  lemma RateHolds(states: seq<State>, steps: seq<Step>, i: nat, id: Id, t: int)
    requires Execution(states, steps) && i < |states| && id in states[i].limiters
    requires states[i].limiters[id].limit > 0 && states[i].limiters[id].log != []
    ensures var l := states[i].limiters[id];
            var passed := Passed(l.log, Dues(states[i], l.log), t);
            passed <= 0 || passed * SECOND <= l.limit * (t - l.log[0].now)
  {
    ExecutionKeeps(states, steps, i);
    var l := states[i].limiters[id];
    PassedBound(l.limit, l.log, Dues(states[i], l.log), t);
  }

  /** Step `n` is a reservation at `id` that reads another limit than `limit`. */
  ghost predicate Changes(states: seq<State>, steps: seq<Step>, n: nat, id: Id, limit: int)
    requires n < |steps| && |states| == |steps| + 1
  {
    && steps[n].Reserve? && Enabled(states[n], steps[n]) && Target(states[n], steps[n].caller) == id
    && steps[n].observed != limit
  }

  /** With a constant limit nothing leaves the log, so the rate then holds since the first reservation of all. */
  lemma {:induction false} LogGrows(states: seq<State>, steps: seq<Step>, i: nat, j: nat, id: Id)
    requires Execution(states, steps) && i <= j < |states| && id in states[i].limiters
    requires forall n :: i <= n < j ==> !Changes(states, steps, n, id, states[i].limiters[id].limit)
    ensures id in states[j].limiters && states[j].limiters[id].limit == states[i].limiters[id].limit
    ensures states[i].limiters[id].log <= states[j].limiters[id].log
    decreases j
  {
    if i < j {
      LogGrows(states, steps, i, j - 1, id);
      assert StepAt(states, steps, j - 1);
      assert !Changes(states, steps, j - 1, id, states[i].limiters[id].limit);
    }
  }

  /** Every reservation at a limiter with a limit is logged, with its caller's time and bytes. */
  lemma ReservationIsLogged(states: seq<State>, steps: seq<Step>, n: nat)
    requires Execution(states, steps) && n < |steps| && steps[n].Reserve? && steps[n].observed > 0
    ensures Enabled(states[n], steps[n])
    ensures var c := steps[n].caller;
            var id, r := Target(states[n], c), Request(states[n].callers[c].now, states[n].callers[c].n, c);
            && id in states[n + 1].limiters && states[n + 1].limiters[id].log != []
            && states[n + 1].limiters[id].log[|states[n + 1].limiters[id].log| - 1] == r
  {
    assert StepAt(states, steps, n);
  }

  // ----- the limiters in place -----

  class RateLimiter {
    var limit: int
    var next: Option<int>
    ghost var log: seq<Request>

    ghost function View(): Limiter
      reads this
    {
      Limiter(limit, next, log)
    }

    constructor (limit: int)
      ensures View() == Limiter(limit, None, []) && Valid(View())
    {
      this.limit, next, log := limit, None, [];
    }

    /** The critical section of one limiter; `observed` is its own limit or what its limit function said. */
    method Reserve(now: int, n: int, observed: int, ghost caller: nat) returns (deadline: int)
      modifies this
      ensures View() == ReserveIn(old(View()), observed, Request(now, n, caller))
      ensures deadline == Answer(View(), Request(now, n, caller))
    {
      if observed != limit {
        limit := observed;
        next := Some(now);
        log := [];
      }
      if limit <= 0 {
        return now;
      }
      if next.None? || next.value < now {
        next := Some(now);
      }
      next := Some(next.value + Duration(n, limit));
      log := log + [Request(now, n, caller)];
      return next.value;
    }
  }

  /** The limiters of a chain with the limits read from them. */
  ghost predicate Chain(chain: seq<RateLimiter>, limits: seq<int>)
    reads chain
  {
    && NoDuplicates(chain) && |limits| == |chain|
    && forall i :: 0 <= i < |chain| ==> Valid(chain[i].View())
  }

  /** Every limiter of the chain books the request, and the caller waits for the latest answer. */
  method ReservationDeadline(chain: seq<RateLimiter>, limits: seq<int>, now: int, n: int, ghost caller: nat)
    returns (deadline: int)
    requires Chain(chain, limits) && 0 < n
    modifies chain
    ensures Chain(chain, limits) && now <= deadline
    ensures forall i :: 0 <= i < |chain| ==> chain[i].View() == ReserveIn(old(chain[i].View()), limits[i], Request(now, n, caller))
    ensures forall i :: 0 <= i < |chain| ==> Answer(chain[i].View(), Request(now, n, caller)) <= deadline
    ensures deadline == now || exists i :: 0 <= i < |chain| && deadline == Answer(chain[i].View(), Request(now, n, caller))
  {
    ghost var r := Request(now, n, caller);
    ghost var was := seq(|chain|, i requires 0 <= i < |chain| reads chain => chain[i].View());
    deadline := ReserveAll(chain, limits, now, n, caller, was);
    forall i | 0 <= i < |chain|
      ensures Valid(chain[i].View())
    {
      ReserveKeeps(was[i], limits[i], r);
    }
  }

  /** The walk along the chain; `was` is what the limiters were before it. */
  method ReserveAll(chain: seq<RateLimiter>, limits: seq<int>, now: int, n: int, ghost caller: nat, ghost was: seq<Limiter>)
    returns (deadline: int)
    requires NoDuplicates(chain) && |limits| == |chain| == |was| && forall i :: 0 <= i < |chain| ==> chain[i].View() == was[i]
    modifies chain
    ensures now <= deadline
    ensures forall i :: 0 <= i < |chain| ==> chain[i].View() == ReserveIn(was[i], limits[i], Request(now, n, caller))
    ensures forall i :: 0 <= i < |chain| ==> Answer(chain[i].View(), Request(now, n, caller)) <= deadline
    ensures deadline == now || exists i :: 0 <= i < |chain| && deadline == Answer(chain[i].View(), Request(now, n, caller))
  {
    deadline := now;
    ghost var r := Request(now, n, caller);
    ghost var booked := seq(|chain|, i requires 0 <= i < |chain| => ReserveIn(was[i], limits[i], r));
    for k := 0 to |chain|
      invariant now <= deadline
      invariant forall i :: 0 <= i < |chain| ==> chain[i].View() == if i < k then booked[i] else was[i]
      invariant forall i :: 0 <= i < k ==> Answer(booked[i], r) <= deadline
      invariant deadline == now || exists i :: 0 <= i < k && deadline == Answer(booked[i], r)
    {
      var reserved := chain[k].Reserve(now, n, limits[k], caller);
      if reserved > deadline {
        deadline := reserved;
      }
    }
  }

  /** The most a single booking may take: a tenth of a second's worth, and at least one byte. */
  function Share(limit: int): int
  {
    if limit / 10 < 1 then 1 else limit / 10
  }

  method ReservationChunk(limits: seq<int>, n: int) returns (chunk: int)
    requires 0 < n
    ensures 0 < chunk <= n
    ensures forall i :: 0 <= i < |limits| && limits[i] > 0 ==> chunk <= Share(limits[i])
    ensures chunk == n || exists i :: 0 <= i < |limits| && limits[i] > 0 && chunk == Share(limits[i])
  {
    chunk := n;
    for k := 0 to |limits|
      invariant 0 < chunk <= n
      invariant forall i :: 0 <= i < k && limits[i] > 0 ==> chunk <= Share(limits[i])
      invariant chunk == n || exists i :: 0 <= i < k && limits[i] > 0 && chunk == Share(limits[i])
    {
      if limits[k] > 0 && Share(limits[k]) < chunk {
        chunk := Share(limits[k]);
      }
    }
  }

  /** A share never takes a limiter more than one second. */
  lemma ShareIsShort(n: int, limit: int)
    requires limit > 0 && 0 < n <= Share(limit)
    ensures 1 <= Duration(n, limit) <= SECOND
  {
    var d := Duration(n, limit);
    DurationIsCeiling(n, limit);
    if d > SECOND {
      ProductOrder(SECOND, d - 1, limit);
    }
  }

  /** One booking of a wait: when it was made, how much it took and when it was due. */
  datatype Booking = Booking(now: int, chunk: int, deadline: int)

  ghost predicate Short(b: Booking, limits: seq<int>)
  {
    0 < b.chunk && forall i :: 0 <= i < |limits| && limits[i] > 0 ==> 1 <= Duration(b.chunk, limits[i]) <= SECOND
  }

  /** Every booking is short, and its deadline is not before it was made. */
  ghost predicate AllShort(bookings: seq<Booking>, limits: seq<int>)
  {
    forall b :: 0 <= b < |bookings| ==> Short(bookings[b], limits) && bookings[b].now <= bookings[b].deadline
  }

  lemma OneMoreBooking(bookings: seq<Booking>, b: Booking, limits: seq<int>)
    requires AllShort(bookings, limits) && Short(b, limits) && b.now <= b.deadline
    ensures AllShort(bookings + [b], limits) && Booked(bookings + [b]) == Booked(bookings) + b.chunk
  {
    assert (bookings + [b])[..|bookings|] == bookings;
  }

  /** Wait for `n` bytes under constant limits; `clock` gives the time of each booking and ends where the wait is canceled. */
  method Wait(chain: seq<RateLimiter>, limits: seq<int>, n: int, clock: seq<int>, ghost callers: nat -> nat)
    returns (done: bool, bookings: seq<Booking>)
    requires Chain(chain, limits)
    modifies chain
    ensures Chain(chain, limits)
    ensures AllShort(bookings, limits)
    ensures done ==> Booked(bookings) == if n < 0 then 0 else n
    ensures !done ==> Booked(bookings) < n && |bookings| == |clock|
  {
    bookings := [];
    var left := n;
    while left > 0
      invariant Chain(chain, limits) && |bookings| <= |clock| && left <= n
      invariant Booked(bookings) + left == n && (n > 0 ==> left >= 0) && (n <= 0 ==> bookings == [])
      invariant AllShort(bookings, limits)
    {
      if |bookings| == |clock| {
        return false, bookings;
      }
      var booking := Book(chain, limits, left, clock[|bookings|], callers(|bookings|));
      OneMoreBooking(bookings, booking, limits);
      bookings := bookings + [booking];
      left := left - booking.chunk;
    }
    return true, bookings;
  }

  method Book(chain: seq<RateLimiter>, limits: seq<int>, left: int, now: int, ghost caller: nat) returns (b: Booking)
    requires Chain(chain, limits) && 0 < left
    modifies chain
    ensures Chain(chain, limits) && b.now == now <= b.deadline && b.chunk <= left && Short(b, limits)
    ensures forall i :: 0 <= i < |chain| ==>
              chain[i].View() == ReserveIn(old(chain[i].View()), limits[i], Request(now, b.chunk, caller))
  {
    var chunk := ReservationChunk(limits, left);
    var deadline := ReservationDeadline(chain, limits, now, chunk, caller);
    b := Booking(now, chunk, deadline);
    SharesAreShort(b, limits);
  }

  lemma SharesAreShort(b: Booking, limits: seq<int>)
    requires 0 < b.chunk && forall i :: 0 <= i < |limits| && limits[i] > 0 ==> b.chunk <= Share(limits[i])
    ensures Short(b, limits)
  {
    forall i | 0 <= i < |limits| && limits[i] > 0
      ensures 1 <= Duration(b.chunk, limits[i]) <= SECOND
    {
      ShareIsShort(b.chunk, limits[i]);
    }
  }

  ghost function Booked(bookings: seq<Booking>): int
  {
    if bookings == [] then 0 else Booked(bookings[..|bookings| - 1]) + bookings[|bookings| - 1].chunk
  }
}
