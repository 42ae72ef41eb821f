/**
 Copying one response body to its file range. Reads, writes, the rate limiter and
 the speed check are an adversary: a `Turn` says what each does in one iteration.
 */
module CopyLoop {
  import opened Segmented

  const FLUSH_BYTES: int := 1024 * 1024

  datatype ReadEnd = Nothing | Eof | ReadError

  datatype Turn = Turn(canceled: bool, want: nat, end: ReadEnd, waitFails: bool, took: nat, writeFails: bool, tooSlow: bool)

  /** `Running` stands for a copy that has used up the turns and goes on. */
  datatype Outcome = Running | Copied | Failed

  function Min(a: int, b: int): int
  {
    if a < b then a else b
  }

  /** What a copy does that others can see: bytes reach the file, and bytes are reported. */
  datatype Event = Wrote(data: seq<byte>) | Reported(n: nat)

  ghost function Data(events: seq<Event>): seq<byte>
  {
    if events == [] then []
    else
      var last := events[|events| - 1];
      Data(events[..|events| - 1]) + if last.Wrote? then last.data else []
  }

  ghost function Told(events: seq<Event>): nat
  {
    if events == [] then 0
    else
      var last := events[|events| - 1];
      Told(events[..|events| - 1]) + if last.Reported? then last.n else 0
  }

  /** Something is reported each time, and never more than was written by then. */
  ghost predicate Legal(events: seq<Event>)
  {
    events == [] ||
    var front, last := events[..|events| - 1], events[|events| - 1];
    Legal(front) && (last.Reported? ==> 0 < last.n && Told(front) + last.n <= |Data(front)|)
  }

  lemma OneMore(events: seq<Event>, e: Event)
    ensures Data(events + [e]) == Data(events) + (if e.Wrote? then e.data else [])
    ensures Told(events + [e]) == Told(events) + if e.Reported? then e.n else 0
    ensures Legal(events + [e]) <==> Legal(events) && (e.Reported? ==> 0 < e.n && Told(events) + e.n <= |Data(events)|)
  {
    assert (events + [e])[..|events|] == events;
  }

  /** What was done, what of it waits to be reported, and the bytes left to read. */
  datatype Copy = Copy(out: seq<byte>, events: seq<Event>, pending: nat, left: int)

  /** The file holds a prefix of the body, and all of it is reported or waiting to be. */
  ghost predicate Sound(body: seq<byte>, limit: int, c: Copy)
  {
    && |c.out| <= |body| && c.out == body[..|c.out|] && (c.out != [] ==> |c.out| <= limit)
    && Legal(c.events) && Data(c.events) == c.out && Told(c.events) + c.pending == |c.out|
  }

  /** Report what is pending, if anything is. */
  function Flush(c: Copy): (r: Copy)
    ensures r.pending == 0 && r.out == c.out && r.left == c.left
    ensures forall body, limit :: Sound(body, limit, c) ==> Sound(body, limit, r)
  {
    OneMore(c.events, Reported(c.pending));
    if c.pending > 0 then c.(events := c.events + [Reported(c.pending)], pending := 0) else c
  }

  /** `nw` more bytes of the body reach the file. */
  function Write(body: seq<byte>, c: Copy, nw: nat): (r: Copy)
    requires |c.out| + nw <= |body|
    ensures |r.out| == |c.out| + nw && r.pending == c.pending + nw && r.left == c.left
    ensures forall limit :: Sound(body, limit, c) && |c.out| + nw <= limit ==> Sound(body, limit, r)
  {
    var data := body[|c.out|..|c.out| + nw];
    OneMore(c.events, Wrote(data));
    c.(out := c.out + data, events := c.events + [Wrote(data)], pending := c.pending + nw)
  }

  /** The bytes a read brings: no more than asked for, than fit, than are left and than the body has. */
  function Brought(body: seq<byte>, buffer: nat, t: Turn, c: Copy): (nr: int)
  {
    Min(Min(t.want, c.left), Min(buffer, |body| - |c.out|))
  }

  /** Something goes wrong with the `nr` bytes of a read. */
  predicate Faulty(lowestSpeed: bool, t: Turn, nr: int)
  {
    t.waitFails || t.writeFails || t.took < nr || (lowestSpeed && t.tooSlow)
  }

  /** How an iteration must end. */
  predicate TurnEnds(body: seq<byte>, buffer: nat, lowestSpeed: bool, t: Turn, c: Copy, outcome: Outcome)
  {
    if t.canceled then outcome == Failed
    else if c.left <= 0 then outcome == Copied
    else if Brought(body, buffer, t, c) > 0 && Faulty(lowestSpeed, t, Brought(body, buffer, t, c)) then outcome == Failed
    else if t.end == ReadError then outcome == Failed
    else outcome == if t.end == Eof then Copied else Running
  }

  /** One iteration: a read, and what follows when it brought bytes. */
  method CopyTurn(body: seq<byte>, limit: int, buffer: nat, lowestSpeed: bool, t: Turn, c: Copy) returns (outcome: Outcome, r: Copy)
    requires Sound(body, limit, c) && c.pending < FLUSH_BYTES && c.left == limit - |c.out|
    ensures Sound(body, limit, r) && r.pending < FLUSH_BYTES
    ensures outcome != Running ==> r.pending == 0
    ensures outcome != Failed ==> r.left == limit - |r.out|
    ensures TurnEnds(body, buffer, lowestSpeed, t, c, outcome)
    ensures outcome != Failed && c.left > 0 && Brought(body, buffer, t, c) > 0 ==> |r.out| == |c.out| + Brought(body, buffer, t, c)
    ensures outcome != Failed && (c.left <= 0 || Brought(body, buffer, t, c) <= 0) ==> r.out == c.out
  {
    if t.canceled {
      return Failed, Flush(c);
    }
    r := c;
    var end := Eof;
    if c.left > 0 {
      end := t.end;
      var nr := Brought(body, buffer, t, c);
      if nr > 0 {
        outcome, r := CopyBytes(body, limit, lowestSpeed, t, c, nr);
        if outcome == Failed {
          return;
        }
      }
    }
    if end != Nothing {
      return if end == Eof then Copied else Failed, Flush(r);
    }
    return Running, r;
  }

  method CopyBytes(body: seq<byte>, limit: int, lowestSpeed: bool, t: Turn, c: Copy, nr: nat) returns (outcome: Outcome, r: Copy)
    requires Sound(body, limit, c) && c.pending < FLUSH_BYTES && c.left == limit - |c.out|
    requires 0 < nr <= c.left && |c.out| + nr <= |body|
    ensures Sound(body, limit, r) && r.pending < FLUSH_BYTES && outcome != Copied
    ensures outcome == Failed ==> r.pending == 0
    ensures outcome == Running ==> |r.out| == |c.out| + nr && r.left == limit - |r.out|
    ensures outcome == Failed <==> Faulty(lowestSpeed, t, nr)
    ensures |r.out| == |c.out| + (if t.waitFails then 0 else Min(t.took, nr))
  {
    r := c.(left := c.left - nr);
    if t.waitFails {
      return Failed, Flush(r);
    }
    var nw := Min(t.took, nr);
    r := Write(body, r, nw);
    if nw > 0 && (r.pending >= FLUSH_BYTES || lowestSpeed) {
      r := Flush(r);
      if lowestSpeed && t.tooSlow {
        return Failed, r;
      }
    }
    if t.writeFails || nr != nw {
      return Failed, Flush(r);
    }
    return Running, r;
  }

  /** Nothing goes wrong in this iteration, whatever it reads, and the body goes on. */
  predicate Clean(buffer: nat, t: Turn)
  {
    !t.canceled && !t.waitFails && !t.writeFails && !t.tooSlow && t.end == Nothing && 0 < t.want <= t.took && 0 < buffer
  }

  predicate AllClean(buffer: nat, turns: seq<Turn>)
  {
    forall k :: 0 <= k < |turns| ==> Clean(buffer, turns[k])
  }

  /**
   The file receives a prefix of the body, in order and never more than `limit`
   bytes, and whenever the copy returns, every byte written has been reported.
   */
  method CopyWithProgress(body: seq<byte>, limit: int, buffer: nat, lowestSpeed: bool, turns: seq<Turn>)
    returns (outcome: Outcome, c: Copy)
    ensures Sound(body, limit, c) && c.pending < FLUSH_BYTES
    ensures outcome != Running ==> Told(c.events) == |c.out|
    ensures outcome == Copied ==> c.left == limit - |c.out|
    ensures AllClean(buffer, turns) && 0 <= limit <= |body| ==> outcome != Failed && (outcome == Copied ==> |c.out| == limit)
    ensures AllClean(buffer, turns) && 0 <= limit <= |body| && limit < |turns| ==> outcome == Copied
  {
    c := Copy([], [], 0, limit);
    for i := 0 to |turns|
      invariant Sound(body, limit, c) && c.pending < FLUSH_BYTES && c.left == limit - |c.out|
      invariant AllClean(buffer, turns) && 0 <= limit <= |body| ==> i <= |c.out|
    {
      outcome, c := CopyTurn(body, limit, buffer, lowestSpeed, turns[i], c);
      if outcome != Running {
        return;
      }
    }
    return Running, c;
  }

  /** Success means exactly the expected bytes; any early end is an error that knows its byte count. Without faults it succeeds. */
  method CopyExact(body: seq<byte>, expected: int, buffer: nat, lowestSpeed: bool, turns: seq<Turn>)
    returns (outcome: Outcome, events: seq<Event>)
    ensures Legal(events)
    ensures var out := Data(events);
            && |out| <= |body| && out == body[..|out|] && (out != [] ==> |out| <= expected)
            && (outcome != Running ==> Told(events) == |out|)
            && (outcome == Running ==> Told(events) <= |out| < Told(events) + FLUSH_BYTES)
            && (outcome == Copied ==> |out| == expected)
    ensures AllClean(buffer, turns) && 0 <= expected <= |body| ==> outcome != Failed && (expected < |turns| ==> outcome == Copied)
  {
    var c;
    outcome, c := CopyWithProgress(body, expected, buffer, lowestSpeed, turns);
    events := c.events;
    if outcome == Copied && (|c.out| != expected || c.left != 0) {
      outcome := Failed;
    }
  }
}
