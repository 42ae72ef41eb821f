/**
 Graceful shutdown of WebSocket connections. Handlers, the closer and the waiter
 interleave at every lock; the closer decides under a connection's lock and closes
 it after leaving the lock.
 */
module WebSocketClose {

  type Id = nat

  const MAX_CONNECTIONS: int := 256

  /** Where a handler is: admitted, reading, answering a call, on its way out, untracked, or over. */
  datatype Phase = Admitted | Reading | Handling | Leaving | Gone | Over

  /** `setupFailed` marks a handler that gave up between tracking its connection and deferring its clean-up. */
  datatype Conn = Conn(phase: Phase, handling: bool, closing: bool, closed: bool, setupFailed: bool)

  /** `todo` are the connections the closer has still to mark, `toClose` those it marked idle and has still to close. */
  datatype State = State(
    conns: map<Id, Conn>, tracked: set<Id>, live: set<Id>, wsActive: int, wsWG: int, wsClosing: bool,
    todo: set<Id>, toClose: set<Id>, waitReturned: bool)

  function Initial(): State
  {
    State(map[], {}, {}, 0, 0, false, {}, {}, false)
  }

  datatype Step =
    | Begin(id: Id)
    | Track(id: Id)
    | UpgradeFails(id: Id)
    | SetupFails(id: Id)
    | BeginRpc(id: Id)
    | EndRpc(id: Id, writeFails: bool)
    | ReadFails(id: Id)
    | Untrack(id: Id)
    | End(id: Id)
    | CloseStart
    | CloseMark(id: Id)
    | CloseConn(id: Id)
    | WaitReturns

  predicate At(s: State, id: Id, phase: Phase)
  {
    id in s.conns && s.conns[id].phase == phase
  }

  predicate Enabled(s: State, step: Step)
  {
    match step
    case Begin(id) => id !in s.conns
    case Track(id) => At(s, id, Admitted)
    case UpgradeFails(id) => At(s, id, Admitted)
    case SetupFails(id) => At(s, id, Reading)
    case BeginRpc(id) => At(s, id, Reading)
    case EndRpc(id, _) => At(s, id, Handling)
    case ReadFails(id) => At(s, id, Reading)
    case Untrack(id) => At(s, id, Leaving)
    case End(id) => At(s, id, Gone)
    case CloseStart => true
    case CloseMark(id) => id in s.todo && id in s.conns
    case CloseConn(id) => id in s.toClose && id in s.conns
    case WaitReturns => s.wsClosing && s.wsWG == 0
  }

  function Admit(s: State, id: Id): State
  {
    if s.wsClosing || s.wsActive >= MAX_CONNECTIONS then s
    else s.(conns := s.conns[id := Conn(Admitted, false, false, false, false)], live := s.live + {id},
            wsActive := s.wsActive + 1, wsWG := s.wsWG + 1)
  }

  function Register(s: State, id: Id): State
    requires id in s.conns
  {
    var c := s.conns[id];
    if s.wsClosing then s.(conns := s.conns[id := c.(closed := true, phase := Gone)])
    else s.(conns := s.conns[id := c.(phase := Reading)], tracked := s.tracked + {id})
  }

  function BeginCall(c: Conn): Conn
  {
    if c.closing then c.(phase := Leaving) else c.(handling := true, phase := Handling)
  }

  function EndCall(c: Conn, writeFails: bool): Conn
  {
    if c.closing then c.(handling := false, closed := true, phase := Leaving)
    else c.(handling := false, phase := if writeFails then Leaving else Reading)
  }

  function Marked(s: State, id: Id): State
    requires id in s.conns
  {
    var c := s.conns[id];
    s.(conns := s.conns[id := c.(closing := true)], todo := s.todo - {id},
       toClose := if c.handling then s.toClose else s.toClose + {id})
  }

  function Apply(s: State, step: Step): State
    requires Enabled(s, step)
  {
    match step
    case Begin(id) => Admit(s, id)
    case Track(id) => Register(s, id)
    case UpgradeFails(id) => s.(conns := s.conns[id := s.conns[id].(phase := Gone)])
    case SetupFails(id) => s.(conns := s.conns[id := s.conns[id].(phase := Gone, setupFailed := true)])
    case BeginRpc(id) => s.(conns := s.conns[id := BeginCall(s.conns[id])])
    case EndRpc(id, writeFails) => s.(conns := s.conns[id := EndCall(s.conns[id], writeFails)])
    case ReadFails(id) => s.(conns := s.conns[id := s.conns[id].(phase := Leaving)])
    case Untrack(id) => s.(conns := s.conns[id := s.conns[id].(phase := Gone, closed := true)], tracked := s.tracked - {id})
    case End(id) =>
      s.(conns := s.conns[id := s.conns[id].(phase := Over)], live := s.live - {id}, wsActive := s.wsActive - 1, wsWG := s.wsWG - 1)
    case CloseStart => if s.wsClosing then s else s.(wsClosing := true, todo := s.tracked)
    case CloseMark(id) => Marked(s, id)
    case CloseConn(id) => s.(conns := s.conns[id := s.conns[id].(closed := true)], toClose := s.toClose - {id})
    case WaitReturns => s.(waitReturned := true)
  }

  // ----- what every step keeps -----

  ghost predicate ConnOk(s: State, id: Id)
    requires id in s.conns
  {
    var c := s.conns[id];
    && (c.handling <==> c.phase == Handling)
    && (id in s.tracked <==> c.phase == Reading || c.phase == Handling || c.phase == Leaving || c.setupFailed)
    && (c.setupFailed ==> c.phase == Gone || c.phase == Over)
    && (id in s.live <==> c.phase != Over)
    && (id in s.toClose ==> c.closing && !c.handling)
    && (s.wsClosing && id in s.tracked ==> id in s.todo || c.closing)
    && (!s.wsClosing ==> !c.closing)
    && (c.closing && (c.phase == Reading || c.setupFailed) ==> id in s.toClose || c.closed)
  }

  ghost predicate Inv(s: State)
  {
    && (forall id :: id in s.conns ==> ConnOk(s, id))
    && s.tracked <= s.conns.Keys && s.live <= s.conns.Keys && s.todo <= s.conns.Keys && s.toClose <= s.conns.Keys
    && s.wsActive == s.wsWG == |s.live| && s.wsActive <= MAX_CONNECTIONS
    && (!s.wsClosing ==> s.todo == {} && s.toClose == {})
    && (s.waitReturned ==> s.wsClosing && s.live == {})
  }

  predicate ByCloser(step: Step)
  {
    step.CloseStart? || step.CloseMark? || step.CloseConn? || step.WaitReturns?
  }

  lemma HandlerConns(s: State, step: Step, id: Id)
    requires Inv(s) && Enabled(s, step) && !ByCloser(step) && id in Apply(s, step).conns
    ensures ConnOk(Apply(s, step), id)
  {
    assert id in s.conns ==> ConnOk(s, id);
    assert id !in s.conns ==> id !in s.tracked && id !in s.toClose;
  }

  lemma CloserConns(s: State, step: Step, id: Id)
    requires Inv(s) && Enabled(s, step) && ByCloser(step) && id in Apply(s, step).conns
    ensures ConnOk(Apply(s, step), id)
  {
    assert ConnOk(s, id);
  }

  lemma StepConns(s: State, step: Step)
    requires Inv(s) && Enabled(s, step)
    ensures forall id :: id in Apply(s, step).conns ==> ConnOk(Apply(s, step), id)
  {
    forall id | id in Apply(s, step).conns
      ensures ConnOk(Apply(s, step), id)
    {
      if ByCloser(step) {
        CloserConns(s, step, id);
      } else {
        HandlerConns(s, step, id);
      }
    }
  }

  lemma StepCounts(s: State, step: Step)
    requires Inv(s) && Enabled(s, step)
    ensures var t := Apply(s, step);
            && t.wsActive == t.wsWG == |t.live| && t.wsActive <= MAX_CONNECTIONS
            && (!t.wsClosing ==> t.todo == {} && t.toClose == {})
            && (t.waitReturned ==> t.wsClosing && t.live == {})
  {
    if step.Begin? {
      assert step.id !in s.live;
    } else if step.End? {
      assert ConnOk(s, step.id) && step.id in s.live;
    } else if step.WaitReturns? {
      assert |s.live| == 0;
    }
  }

  lemma StepKeeps(s: State, step: Step)
    requires Inv(s) && Enabled(s, step)
    ensures Inv(Apply(s, step))
  {
    StepConns(s, step);
    StepCounts(s, step);
  }

  ghost predicate Execution(states: seq<State>, steps: seq<Step>)
  {
    && |states| == |steps| + 1 && states[0] == Initial()
    && forall i :: 0 <= i < |steps| ==> StepAt(states, steps, i)
  }

  ghost predicate StepAt(states: seq<State>, steps: seq<Step>, i: nat)
    requires i < |steps| && |states| == |steps| + 1
  {
    Enabled(states[i], steps[i]) && states[i + 1] == Apply(states[i], steps[i])
  }

  lemma {:induction false} ExecutionKeeps(states: seq<State>, steps: seq<Step>, i: nat)
    requires Execution(states, steps) && i < |states|
    ensures Inv(states[i])
  {
    if i > 0 {
      ExecutionKeeps(states, steps, i - 1);
      assert StepAt(states, steps, i - 1);
      StepKeeps(states[i - 1], steps[i - 1]);
    }
  }

  /** The closer never closes a connection in the middle of a call, although it decides before it closes. */
  lemma NeverMidCall(states: seq<State>, steps: seq<Step>, i: nat)
    requires Execution(states, steps) && i < |steps| && steps[i].CloseConn?
    ensures steps[i].id in states[i].conns && states[i].conns[steps[i].id].phase != Handling
  {
    ExecutionKeeps(states, steps, i);
    assert StepAt(states, steps, i);
    assert ConnOk(states[i], steps[i].id);
  }

  /**
   No tracked connection is missed: once the closer has gone through its list,
   each is closed, leaving, or answering a call that will close it.
   */
  lemma NoneMissed(states: seq<State>, steps: seq<Step>, i: nat, id: Id)
    requires Execution(states, steps) && i < |states|
    requires states[i].wsClosing && states[i].todo == {} && states[i].toClose == {} && id in states[i].tracked
    ensures id in states[i].conns
    ensures var c := states[i].conns[id];
            c.closed || c.phase == Leaving || (c.phase == Handling && EndCall(c, false).closed)
  {
    ExecutionKeeps(states, steps, i);
    assert ConnOk(states[i], id);
  }

  /**
   When the wait returns every handler is over and none is admitted afterwards; a
   connection is then still listed exactly when its handler failed during set-up.
   */
  lemma {:induction false} WaitIsFinal(states: seq<State>, steps: seq<Step>, i: nat, j: nat)
    requires Execution(states, steps) && i <= j < |states| && states[i].waitReturned
    ensures states[j].waitReturned && states[j].live == {}
    ensures forall id :: id in states[j].tracked <==> id in states[j].conns && states[j].conns[id].setupFailed
  {
    ExecutionKeeps(states, steps, j);
    if i < j {
      WaitIsFinal(states, steps, i, j - 1);
      assert StepAt(states, steps, j - 1);
    }
    assert forall id :: id in states[j].conns ==> ConnOk(states[j], id);
  }

  // ----- what the server does for its clients -----

  /** A handler is admitted exactly while the server is not closing and has room for one more. */
  lemma Admission(states: seq<State>, steps: seq<Step>, i: nat, id: Id)
    requires Execution(states, steps) && i < |steps| && steps[i] == Begin(id)
    ensures id in states[i + 1].conns <==> !states[i].wsClosing && |states[i].live| < MAX_CONNECTIONS
    ensures id in states[i + 1].live <==> !states[i].wsClosing && |states[i].live| < MAX_CONNECTIONS
    ensures forall other :: other in states[i].conns ==> other in states[i + 1].conns && states[i + 1].conns[other] == states[i].conns[other]
  {
    ExecutionKeeps(states, steps, i);
    assert StepAt(states, steps, i);
    assert id !in states[i].live;
  }

  /** An admitted connection is tracked and read, or closed at once if the server is closing meanwhile. */
  lemma Tracking(states: seq<State>, steps: seq<Step>, i: nat, id: Id)
    requires Execution(states, steps) && i < |steps| && steps[i] == Track(id)
    ensures !states[i].wsClosing ==> id in states[i + 1].tracked && At(states[i + 1], id, Reading) && !states[i + 1].conns[id].closing
    ensures states[i].wsClosing ==> id !in states[i + 1].tracked && At(states[i + 1], id, Gone) && states[i + 1].conns[id].closed
  {
    ExecutionKeeps(states, steps, i);
    assert StepAt(states, steps, i);
    assert ConnOk(states[i], id);
  }

  /**
   A connection that is not marked answers each call and is read again, unless the
   answer cannot be written; one that is marked begins no call, and the call it is in
   is answered and closes it.
   */
  lemma CallsAreServed(states: seq<State>, steps: seq<Step>, i: nat, id: Id, writeFails: bool)
    requires Execution(states, steps) && i < |steps| && id in states[i].conns
    ensures steps[i] == BeginRpc(id) && !states[i].conns[id].closing ==>
              At(states[i + 1], id, Handling) && states[i + 1].conns[id].closed == states[i].conns[id].closed
    ensures steps[i] == BeginRpc(id) && states[i].conns[id].closing ==> At(states[i + 1], id, Leaving)
    ensures steps[i] == EndRpc(id, writeFails) && !states[i].conns[id].closing ==>
              && At(states[i + 1], id, if writeFails then Leaving else Reading)
              && states[i + 1].conns[id].closed == states[i].conns[id].closed
    ensures steps[i] == EndRpc(id, writeFails) && states[i].conns[id].closing ==>
              At(states[i + 1], id, Leaving) && states[i + 1].conns[id].closed
  {
    assert StepAt(states, steps, i);
  }

  /** Until the server closes, a connection is open as long as its handler has not left. */
  lemma {:induction false} OpenWhileServing(states: seq<State>, steps: seq<Step>, i: nat, id: Id)
    requires Execution(states, steps) && i < |states| && !states[i].wsClosing && id in states[i].conns && states[i].conns[id].closed
    ensures states[i].conns[id].phase == Gone || states[i].conns[id].phase == Over
  {
    if i > 0 {
      ExecutionKeeps(states, steps, i - 1);
      assert StepAt(states, steps, i - 1);
      assert id in states[i - 1].conns ==> ConnOk(states[i - 1], id);
      if id in states[i - 1].conns && states[i - 1].conns[id].closed {
        OpenWhileServing(states, steps, i - 1, id);
      }
    }
  }

  /** One connection through admission, tracking, a failed set-up and the whole shutdown. */
  function FailedSetup(): seq<Step>
  {
    [Begin(0), Track(0), SetupFails(0), End(0), CloseStart, CloseMark(0), CloseConn(0), WaitReturns]
  }

  /** The shutdown ends with the connection closed, its handler over, and the connection still listed. */
  lemma StillListed() returns (states: seq<State>)
    ensures Execution(states, FailedSetup())
    ensures var s := states[8];
            && s.waitReturned && 0 in s.tracked && 0 in s.conns
            && s.conns[0].closed && s.conns[0].phase == Over && s.conns[0].setupFailed
  {
    var steps := FailedSetup();
    var c := Conn(Admitted, false, false, false, false);
    var s1 := State(map[0 := c], {}, {0}, 1, 1, false, {}, {}, false);
    var s2 := s1.(conns := map[0 := c.(phase := Reading)], tracked := {0});
    var s3 := s2.(conns := map[0 := c.(phase := Gone, setupFailed := true)]);
    var s4 := s3.(conns := map[0 := c.(phase := Over, setupFailed := true)], live := {}, wsActive := 0, wsWG := 0);
    var s5 := s4.(wsClosing := true, todo := {0});
    var s6 := s5.(conns := map[0 := c.(phase := Over, setupFailed := true, closing := true)], todo := {}, toClose := {0});
    var s7 := s6.(conns := map[0 := c.(phase := Over, setupFailed := true, closing := true, closed := true)], toClose := {});
    states := [Initial(), s1, s2, s3, s4, s5, s6, s7, s7.(waitReturned := true)];
    forall i | 0 <= i < |steps|
      ensures StepAt(states, steps, i)
    {
    }
  }

  // ----- the server's fields in place -----

  class Server {
    var wsConns: map<Id, Conn>
    var tracked: set<Id>
    var wsActive: int
    var wsWG: int
    var wsClosing: bool
    ghost var live: set<Id>
    ghost var todo: set<Id>
    ghost var toClose: set<Id>
    ghost var waitReturned: bool

    ghost function View(): State
      reads this
    {
      State(wsConns, tracked, live, wsActive, wsWG, wsClosing, todo, toClose, waitReturned)
    }

    method BeginWebSocket(id: Id) returns (ok: bool)
      requires id !in wsConns
      modifies this
      ensures View() == Apply(old(View()), Begin(id))
      ensures ok <==> !old(wsClosing) && old(wsActive) < MAX_CONNECTIONS
    {
      if wsClosing || wsActive >= MAX_CONNECTIONS {
        return false;
      }
      wsActive := wsActive + 1;
      wsWG := wsWG + 1;
      wsConns := wsConns[id := Conn(Admitted, false, false, false, false)];
      live := live + {id};
      return true;
    }

    method TrackWebSocket(id: Id) returns (ok: bool)
      requires At(View(), id, Admitted)
      modifies this
      ensures View() == Apply(old(View()), Track(id)) && (ok <==> !wsClosing)
    {
      if wsClosing {
        wsConns := wsConns[id := wsConns[id].(closed := true, phase := Gone)];
        return false;
      }
      tracked := tracked + {id};
      wsConns := wsConns[id := wsConns[id].(phase := Reading)];
      return true;
    }

    method BeginRPC(id: Id) returns (ok: bool)
      requires At(View(), id, Reading)
      modifies this
      ensures View() == Apply(old(View()), BeginRpc(id)) && (ok <==> !old(wsConns)[id].closing)
    {
      var c := wsConns[id];
      if c.closing {
        wsConns := wsConns[id := c.(phase := Leaving)];
        return false;
      }
      wsConns := wsConns[id := c.(handling := true, phase := Handling)];
      return true;
    }

    method EndRPC(id: Id, writeFails: bool) returns (leaves: bool)
      requires At(View(), id, Handling)
      modifies this
      ensures View() == Apply(old(View()), EndRpc(id, writeFails))
      ensures leaves <==> writeFails || old(wsConns)[id].closing
    {
      var c := wsConns[id].(handling := false);
      if c.closing {
        wsConns := wsConns[id := c.(closed := true, phase := Leaving)];
        return true;
      }
      wsConns := wsConns[id := c.(phase := if writeFails then Leaving else Reading)];
      return writeFails;
    }

    method EndWebSocket(id: Id)
      requires At(View(), id, Gone)
      modifies this
      ensures View() == Apply(old(View()), End(id))
    {
      wsActive := wsActive - 1;
      wsWG := wsWG - 1;
      wsConns := wsConns[id := wsConns[id].(phase := Over)];
      live := live - {id};
    }

    /** Take the list of connections to close, once. */
    method InitiateWebSocketClose() returns (states: set<Id>)
      modifies this
      ensures View() == Apply(old(View()), CloseStart)
      ensures states == if old(wsClosing) then {} else tracked
    {
      if wsClosing {
        return {};
      }
      wsClosing := true;
      todo := tracked;
      return tracked;
    }

    method MarkClosing(id: Id) returns (close: bool)
      requires id in todo && id in wsConns
      modifies this
      ensures View() == Apply(old(View()), CloseMark(id)) && (close <==> !wsConns[id].handling)
    {
      var c := wsConns[id];
      wsConns := wsConns[id := c.(closing := true)];
      todo := todo - {id};
      close := !c.handling;
      toClose := if close then toClose + {id} else toClose;
    }
  }
}
