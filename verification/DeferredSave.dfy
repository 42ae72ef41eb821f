/**
 Deferred session saves: a timer, a flag and a wait group shared by the callers
 that queue or cancel a save, by the timers' callbacks and by the closing engine.
 */
module DeferredSave {
  import opened Collections

  type Timer = nat

  /** A live timer: not fired yet, fired and not yet in the lock, saving, or about to be done. */
  datatype Phase = Armed | Fired | Saving | Leaving

  /** `live` holds the timers whose callback can still run or is running; `saves` counts completed saves. */
  datatype State = State(
    pending: bool, timer: Option<Timer>, closed: bool, wg: int,
    live: map<Timer, Phase>, next: Timer, closeReturned: bool, saves: nat)

  function Initial(): State
  {
    State(false, None, false, 0, map[], 0, false, 0)
  }

  datatype Step =
    | Queue(configured: bool)
    | Fire(t: Timer)
    | Enter(t: Timer)
    | Save(t: Timer)
    | Leave(t: Timer)
    | Cancel
    | Close
    | CloseReturns

  predicate Enabled(s: State, step: Step)
  {
    match step
    case Queue(_) => true
    case Fire(t) => t in s.live && s.live[t] == Armed
    case Enter(t) => t in s.live && s.live[t] == Fired
    case Save(t) => t in s.live && s.live[t] == Saving
    case Leave(t) => t in s.live && s.live[t] == Leaving
    case Cancel => true
    case Close => true
    case CloseReturns => s.closed && s.wg == 0
  }

  /** Stop the recorded timer if it has not fired, and forget it. */
  function Stopped(s: State): State
  {
    var stops := s.timer.Some? && s.timer.value in s.live && s.live[s.timer.value] == Armed;
    s.(pending := false, timer := None,
       wg := if stops then s.wg - 1 else s.wg,
       live := if stops then s.live - {s.timer.value} else s.live)
  }

  function Apply(s: State, step: Step): State
    requires Enabled(s, step)
  {
    match step
    case Queue(configured) =>
      if !configured || s.closed || s.pending then s
      else s.(pending := true, timer := Some(s.next), wg := s.wg + 1, live := s.live[s.next := Armed], next := s.next + 1)
    case Fire(t) => s.(live := s.live[t := Fired])
    case Enter(t) =>
      var mine := s.timer == Some(t);
      s.(pending := if mine then false else s.pending, timer := if mine then None else s.timer,
         live := s.live[t := if s.closed then Leaving else Saving])
    case Save(t) => s.(live := s.live[t := Leaving], saves := s.saves + 1)
    case Leave(t) => s.(live := s.live - {t}, wg := s.wg - 1)
    case Cancel => Stopped(s)
    case Close => Stopped(s.(closed := true))
    case CloseReturns => s.(closeReturned := true)
  }

  ghost predicate Inv(s: State)
  {
    && s.wg == |s.live|
    && (s.pending <==> s.timer.Some?)
    && (s.timer.Some? ==> s.timer.value in s.live && (s.live[s.timer.value] == Armed || s.live[s.timer.value] == Fired))
    && (forall t :: t in s.live && s.live[t] == Armed ==> s.timer == Some(t))
    && (forall t :: t in s.live ==> t < s.next)
    && (s.closed ==> s.timer == None)
    && (s.closeReturned ==> s.closed && s.live == map[])
  }

  lemma Rephase(live: map<Timer, Phase>, t: Timer, p: Phase)
    requires t in live
    ensures |live[t := p]| == |live|
  {
    assert live[t := p].Keys == live.Keys;
  }

  lemma Dropped(live: map<Timer, Phase>, t: Timer)
    requires t in live
    ensures |live - {t}| == |live| - 1
  {
    assert (live - {t}).Keys == live.Keys - {t};
  }

  lemma Added(live: map<Timer, Phase>, t: Timer, p: Phase)
    requires t !in live
    ensures |live[t := p]| == |live| + 1
  {
    assert live[t := p].Keys == live.Keys + {t};
  }

  lemma StoppedKeeps(s: State)
    requires s.wg == |s.live| && (s.timer.Some? ==> s.timer.value in s.live)
    requires forall t :: t in s.live && s.live[t] == Armed ==> s.timer == Some(t)
    requires forall t :: t in s.live ==> t < s.next
    requires s.closeReturned ==> s.closed && s.live == map[]
    ensures Inv(Stopped(s))
  {
    if s.timer.Some? {
      Dropped(s.live, s.timer.value);
    }
  }

  lemma StepKeeps(s: State, step: Step)
    requires Inv(s) && Enabled(s, step)
    ensures Inv(Apply(s, step))
  {
    match step
    case Queue(_) => Added(s.live, s.next, Armed);
    case Fire(t) => Rephase(s.live, t, Fired);
    case Enter(t) => Rephase(s.live, t, if s.closed then Leaving else Saving);
    case Save(t) => Rephase(s.live, t, Leaving);
    case Leave(t) => Dropped(s.live, t);
    case Cancel => StoppedKeeps(s);
    case Close => StoppedKeeps(s.(closed := true));
    case CloseReturns => assert |s.live| == 0;
  }

  ghost predicate Execution(states: seq<State>, steps: seq<Step>)
  {
    && |states| == |steps| + 1 && states[0] == Initial()
    && forall i :: 0 <= i < |steps| ==> StepAt(states, steps, i)
  }

  ghost predicate StepAt(states: seq<State>, steps: seq<Step>, i: nat)
    requires i < |steps| && |states| == |steps| + 1
  {
    Enabled(states[i], steps[i]) && states[i + 1] == Apply(states[i], steps[i])
  }

  /**
   In every state the wait group counts the armed timers and the unfinished
   callbacks, a save is pending exactly when a timer is recorded, that timer's
   callback has not entered the lock yet, and no other timer is armed.
   */
  lemma {:induction false} Protocol(states: seq<State>, steps: seq<Step>, i: nat)
    requires Execution(states, steps) && i < |states|
    ensures Inv(states[i]) && 0 <= states[i].wg
  {
    if i > 0 {
      Protocol(states, steps, i - 1);
      assert StepAt(states, steps, i - 1);
      StepKeeps(states[i - 1], steps[i - 1]);
    }
  }

  /** Once close has returned nothing is live, so no callback enters, saves or leaves, and none is armed again. */
  lemma {:induction false} AfterClose(states: seq<State>, steps: seq<Step>, i: nat, j: nat)
    requires Execution(states, steps) && i <= j < |states| && states[i].closeReturned
    ensures states[j].closeReturned && states[j].live == map[] && states[j].saves == states[i].saves
    ensures j < |steps| ==> !steps[j].Fire? && !steps[j].Enter? && !steps[j].Save? && !steps[j].Leave?
  {
    Protocol(states, steps, j);
    if j > i {
      AfterClose(states, steps, i, j - 1);
      assert StepAt(states, steps, j - 1);
    }
    assert j < |steps| ==> StepAt(states, steps, j);
  }

  /** A queued save is not lost: while one is pending, its callback has still to look at the downloads. */
  lemma PendingWillSave(states: seq<State>, steps: seq<Step>, i: nat)
    requires Execution(states, steps) && i < |states| && states[i].pending
    ensures var s := states[i];
            && s.timer.Some? && !s.closed
            && (Enabled(s, Fire(s.timer.value)) || Enabled(s, Enter(s.timer.value)))
  {
    Protocol(states, steps, i);
  }

  // ----- what a request comes to -----

  /** Queueing a save leaves one pending, at most one, and only where a session file is configured. */
  lemma QueueArms(states: seq<State>, steps: seq<Step>, i: nat, configured: bool)
    requires Execution(states, steps) && i < |steps| && steps[i] == Queue(configured)
    ensures configured && !states[i].closed ==> states[i + 1].pending
    ensures !configured || states[i].closed || states[i].pending ==> states[i + 1] == states[i]
    ensures configured && !states[i].closed && !states[i].pending ==>
              && states[i + 1].timer.Some? && states[i + 1].timer.value !in states[i].live
              && states[i + 1].live == states[i].live[states[i + 1].timer.value := Armed] && states[i + 1].saves == states[i].saves
  {
    Protocol(states, steps, i);
    assert StepAt(states, steps, i);
  }

  /** The callback of a pending save can run through: the timer fires, the callback enters the lock and it saves once. */
  lemma PendingSaves(states: seq<State>, steps: seq<Step>, i: nat) returns (fired: State, entered: State, saved: State)
    requires Execution(states, steps) && i < |states| && states[i].pending
    ensures states[i].timer.Some?
    ensures var s, t := states[i], states[i].timer.value;
            && (fired == s || (Enabled(s, Fire(t)) && fired == Apply(s, Fire(t))))
            && Enabled(fired, Enter(t)) && entered == Apply(fired, Enter(t))
            && Enabled(entered, Save(t)) && saved == Apply(entered, Save(t))
            && !saved.pending && saved.saves == s.saves + 1
  {
    Protocol(states, steps, i);
    var s, t := states[i], states[i].timer.value;
    fired := if s.live[t] == Armed then Apply(s, Fire(t)) else s;
    entered := Apply(fired, Enter(t));
    saved := Apply(entered, Save(t));
  }

  /** Only the callback of its own timer, a cancellation or the close of the engine ends a pending save. */
  lemma PendingEnds(states: seq<State>, steps: seq<Step>, i: nat)
    requires Execution(states, steps) && i < |steps| && states[i].pending && !states[i + 1].pending
    ensures states[i].timer.Some? && (steps[i] == Enter(states[i].timer.value) || steps[i] == Cancel || steps[i] == Close)
  {
    Protocol(states, steps, i);
    assert StepAt(states, steps, i);
  }

  ghost predicate NoneArmed(s: State)
  {
    forall t :: t in s.live ==> s.live[t] != Armed
  }

  /** A cancellation or the close of the engine leaves nothing pending and no timer armed; a close is for good. */
  lemma StopsPending(states: seq<State>, steps: seq<Step>, i: nat)
    requires Execution(states, steps) && i < |steps| && (steps[i] == Cancel || steps[i] == Close)
    ensures !states[i + 1].pending && NoneArmed(states[i + 1])
    ensures steps[i] == Close ==> states[i + 1].closed
    ensures states[i + 1].saves == states[i].saves
  {
    Protocol(states, steps, i + 1);
    assert StepAt(states, steps, i);
  }

  /** After the close of the engine nothing is queued and no callback begins to save. */
  lemma {:induction false} ClosedForGood(states: seq<State>, steps: seq<Step>, i: nat, j: nat)
    requires Execution(states, steps) && i <= j < |states| && states[i].closed
    ensures states[j].closed && !states[j].pending
    ensures j < |steps| && steps[j].Enter? ==> steps[j].t in states[j + 1].live && states[j + 1].live[steps[j].t] == Leaving
    decreases j
  {
    Protocol(states, steps, j);
    if i < j {
      ClosedForGood(states, steps, i, j - 1);
      assert StepAt(states, steps, j - 1);
    }
    assert j < |steps| ==> StepAt(states, steps, j);
  }

  /** The save of this timer is still to come, is being written, or one was written since. */
  ghost predicate OnItsWay(s: State, t: Timer, saves: nat)
  {
    s.timer == Some(t) || (t in s.live && s.live[t] == Saving) || saves < s.saves
  }

  lemma StepOnItsWay(s: State, step: Step, t: Timer, saves: nat)
    requires Inv(s) && Enabled(s, step) && step != Cancel && step != Close && OnItsWay(s, t, saves) && saves <= s.saves
    ensures OnItsWay(Apply(s, step), t, saves) && saves <= Apply(s, step).saves
  {
  }

  /** A pending save that nobody cancels is written: once no callback is left, a save was completed. */
  lemma {:induction false} QueuedSaveArrives(states: seq<State>, steps: seq<Step>, i: nat, j: nat)
    requires Execution(states, steps) && i <= j < |states| && states[i].pending
    requires forall k :: i <= k < j ==> steps[k] != Cancel && steps[k] != Close
    ensures states[i].timer.Some? && OnItsWay(states[j], states[i].timer.value, states[i].saves) && states[i].saves <= states[j].saves
    ensures states[j].live == map[] ==> states[i].saves < states[j].saves
    decreases j
  {
    Protocol(states, steps, j);
    Protocol(states, steps, i);
    if i < j {
      QueuedSaveArrives(states, steps, i, j - 1);
      Protocol(states, steps, j - 1);
      assert StepAt(states, steps, j - 1);
      StepOnItsWay(states[j - 1], steps[j - 1], states[i].timer.value, states[i].saves);
    }
  }

  /** The fields as the engine keeps them; the timers themselves belong to the runtime. */
  class SessionSaves {
    var sessionSavePending: bool
    var sessionSaveTimer: Option<Timer>
    var sessionSaveClosed: bool
    var sessionSaveWG: int
    ghost var live: map<Timer, Phase>
    var next: Timer
    ghost var closeReturned: bool
    ghost var saves: nat

    ghost function View(): State
      reads this
    {
      State(sessionSavePending, sessionSaveTimer, sessionSaveClosed, sessionSaveWG, live, next, closeReturned, saves)
    }

    constructor ()
      ensures View() == Initial()
    {
      sessionSavePending, sessionSaveTimer, sessionSaveClosed, sessionSaveWG := false, None, false, 0;
      live, next, closeReturned, saves := map[], 0, false, 0;
    }

    method QueueSessionSave(configured: bool)
      modifies this
      ensures View() == Apply(old(View()), Queue(configured))
      ensures configured && !sessionSaveClosed ==> sessionSavePending
      ensures !configured ==> View() == old(View())
    {
      if !configured {
        return;
      }
      if sessionSaveClosed || sessionSavePending {
        return;
      }
      sessionSavePending := true;
      sessionSaveWG := sessionSaveWG + 1;
      var timer := next;
      next := next + 1;
      live := live[timer := Armed];
      sessionSaveTimer := Some(timer);
    }

    /** The part of a callback inside the lock; the result tells whether it goes on to save. */
    method EnterCallback(timer: Timer) returns (save: bool)
      requires timer in live && live[timer] == Fired
      modifies this
      ensures View() == Apply(old(View()), Enter(timer))
      ensures save <==> live[timer] == Saving
    {
      if sessionSaveTimer == Some(timer) {
        sessionSavePending := false;
        sessionSaveTimer := None;
      }
      save := !sessionSaveClosed;
      live := live[timer := if save then Saving else Leaving];
    }

    /** `stopped` is what stopping the timer reported: it succeeds exactly on a timer that has not fired. */
    method StopTimer(stopped: bool)
      requires stopped <==> sessionSaveTimer.Some? && sessionSaveTimer.value in live && live[sessionSaveTimer.value] == Armed
      modifies this
      ensures View() == Stopped(old(View()))
    {
      if sessionSaveTimer.Some? {
        if stopped {
          sessionSaveWG := sessionSaveWG - 1;
          live := live - {sessionSaveTimer.value};
        }
        sessionSaveTimer := None;
      }
      sessionSavePending := false;
    }

    method CancelQueuedSessionSave(stopped: bool)
      requires stopped <==> sessionSaveTimer.Some? && sessionSaveTimer.value in live && live[sessionSaveTimer.value] == Armed
      modifies this
      ensures View() == Apply(old(View()), Cancel)
    {
      StopTimer(stopped);
    }

    method CloseQueuedSessionSaves(stopped: bool)
      requires stopped <==> sessionSaveTimer.Some? && sessionSaveTimer.value in live && live[sessionSaveTimer.value] == Armed
      modifies this
      ensures View() == Apply(old(View()), Close)
    {
      sessionSaveClosed := true;
      StopTimer(stopped);
    }
  }
}
