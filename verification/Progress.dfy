/** The byte counter and the piece bitfield of one HTTP download. */
module Progress {
  import opened Machine
  import opened Chunks
  import opened Bitfield

  /** The progress fields with the bitfield read as bits. */
  datatype Progress = Progress(
    total: int64, completed: int64, pieceLength: int64, numPieces: int64, done: int64, bits: seq<bool>)

  function NonNegative(n: int64): int64
  {
    if n < 0 then 0 else n
  }

  /** The bits of `BitfieldFor`. */
  ghost function Drawn(total: int64, completed: int64, pieceLength: int64): seq<bool>
  {
    if !Drawable(total, pieceLength) then []
    else Prefix(CompletedPieces(total, completed, pieceLength) as int, Padded(CeilDiv(total, pieceLength) as int))
  }

  ghost function Reset(total: int64, chunks: seq<Range>): Progress
  {
    var total := NonNegative(total);
    var length := if chunks == [] then total else Wrap(Length(chunks[0]));
    Progress(total, 0, length, if chunks == [] then 1 else Wrap(|chunks|),
             CompletedPieces(total, 0, length), Drawn(total, 0, length))
  }

  ghost function ResetSingle(p: Progress, total: int64, completed: int64): Progress
  {
    var total, completed := NonNegative(total), NonNegative(completed);
    if total == 0 then p.(total := total, completed := completed)
    else Progress(total, completed, total, 1, CompletedPieces(total, completed, total), Drawn(total, completed, total))
  }

  /** `n` more bytes, never past a known total; only a single piece follows the byte count. */
  ghost function Add(p: Progress, n: int64): Progress
  {
    if n <= 0 then p
    else
      var sum := Wrap(p.completed as int + n as int);
      var q := p.(completed := if p.total > 0 && sum > p.total then p.total else sum);
      var done := CompletedPieces(q.total, q.completed, q.pieceLength);
      if q.pieceLength > 0 && q.numPieces <= 1 && done != q.done
      then q.(done := done, bits := Drawn(q.total, q.completed, q.pieceLength))
      else q
  }

  ghost function Rollback(p: Progress, n: int64): Progress
  {
    if n <= 0 then p
    else
      var rest := Wrap(p.completed as int - n as int);
      p.(completed := if rest < 0 then 0 else rest)
  }

  ghost function Mark(p: Progress, index: int): Progress
  {
    if index < 0 || index >= p.numPieces as int || index >= |p.bits| || p.bits[index] then p
    else p.(bits := p.bits[index := true], done := Wrap(p.done as int + 1))
  }

  /** The number of finished pieces is the number of set bits. */
  ghost predicate Counted(p: Progress)
  {
    |p.bits| <= 0x7fff_ffff_ffff_ffff && (p.bits != [] ==> p.done as int == CountSet(p.bits))
  }

  lemma CountedStart(total: int64, chunks: seq<Range>)
    ensures Counted(Reset(total, chunks))
  {
    var p := Reset(total, chunks);
    if Drawable(p.total, p.pieceLength) {
      CountPrefix(p.bits, 0);
    }
  }

  lemma {:induction false} CountBound(bits: seq<bool>)
    ensures CountSet(bits) <= |bits|
  {
    if bits != [] {
      CountBound(bits[..|bits| - 1]);
    }
  }

  /** Every update of the progress fields keeps the count of finished pieces right. */
  lemma CountedSteps(p: Progress, n: int64, index: int)
    requires Counted(p)
    ensures Counted(Add(p, n)) && Counted(Rollback(p, n)) && Counted(Mark(p, index))
  {
    var q := Add(p, n);
    if q.done != p.done && q.bits != [] {
      CountPrefix(q.bits, CompletedPieces(q.total, q.completed, q.pieceLength) as int);
    }
    if Mark(p, index) != p {
      CountAfterSet(p.bits, index);
      CountBound(Mark(p, index).bits);
    }
  }

  /** Bytes are added up to a known total and taken back down to zero, as long as the sum is a 64-bit number. */
  lemma BytesCount(p: Progress, n: int64)
    requires 0 <= p.completed && 0 <= n && p.completed as int + n as int <= MAX as int
    ensures var sum, q := p.completed as int + n as int, Add(p, n);
            q.completed as int == if 0 < p.total as int < sum && 0 < n then p.total as int else sum
    ensures Rollback(p, n).completed as int == if p.completed < n then 0 else p.completed as int - n as int
  {
  }

  // ----- downloads of one piece -----

  /** One piece as long as the whole, and a bit that agrees with the count of finished pieces. */
  ghost predicate OnePiece(p: Progress)
  {
    0 < p.total == p.pieceLength && p.numPieces == 1 && 0 <= p.done <= 1 && p.bits == Prefix(p.done as int, 8)
  }

  /** The piece is shown as finished exactly when all bytes are there. */
  ghost predicate ShownRight(p: Progress)
  {
    OnePiece(p) && (p.done == 1 <==> p.completed >= p.total) && (p.bits[0] <==> p.completed >= p.total)
  }

  lemma OnePieceDrawn(total: int64, completed: int64)
    requires 0 < total
    ensures CompletedPieces(total, completed, total) == (if completed >= total then 1 else 0)
    ensures Drawn(total, completed, total) == Prefix(if completed >= total then 1 else 0, 8)
  {
    assert CeilDiv(total, total) == 1;
    if 0 < completed < total {
      var r := CompletedPieces(total, completed, total);
      if r != 0 {
        ProductOrder(1, r as int, total as int);
      }
    }
  }

  /** A single stream shows its piece right from the start, wherever it resumes; without a length only the bytes are known. */
  lemma OnePieceStarts(p: Progress, total: int64, completed: int64)
    ensures 0 < total ==> ShownRight(ResetSingle(p, total, completed)) && ShownRight(Reset(total, []))
    ensures var q := ResetSingle(p, total, completed);
            && q.completed as int == (if completed < 0 then 0 else completed as int)
            && q.total as int == (if total < 0 then 0 else total as int)
            && (total <= 0 ==> q == p.(total := q.total, completed := q.completed))
  {
    if 0 < total {
      OnePieceDrawn(total, NonNegative(completed));
      OnePieceDrawn(total, 0);
    }
  }

  /** And shows it right again after every byte that arrives, even if bytes were taken back before. */
  lemma OnePieceSteps(p: Progress, n: int64, index: int)
    requires OnePiece(p)
    ensures 0 < n ==> ShownRight(Add(p, n))
    ensures OnePiece(Add(p, n)) && OnePiece(Rollback(p, n)) && OnePiece(Mark(p, index))
    ensures Mark(p, 0).done == 1 && Mark(p, 0).bits[0]
  {
    if 0 < n {
      OnePieceDrawn(p.total, Add(p, n).completed);
    }
    assert p.bits[0] <==> p.done == 1;
    assert p.done == 0 ==> p.bits[0 := true] == Prefix(1, 8);
  }

  class DownloadProgress {
    var totalLength: int64
    var completedLen: int64
    var pieceLength: int64
    var numPieces: int64
    var donePieces: int64
    var bitfield: string

    ghost predicate Valid()
      reads this
    {
      forall i :: 0 <= i < |bitfield| ==> DecodeHexNibble(bitfield[i]).Some?
    }

    ghost function View(): Progress
      reads this
    {
      Progress(totalLength, completedLen, pieceLength, numPieces, donePieces, Bits(bitfield))
    }

    method ResetProgress(total: int64, chunks: seq<Range>)
      modifies this
      ensures Valid() && View() == Reset(total, chunks)
    {
      totalLength := NonNegative(total);
      completedLen := 0;
      if |chunks| > 0 {
        pieceLength := Wrap(chunks[0].end as int - chunks[0].start as int + 1);
        numPieces := Wrap(|chunks|);
      } else {
        pieceLength := totalLength;
        numPieces := 1;
      }
      donePieces := CompletedPieces(totalLength, completedLen, pieceLength);
      bitfield := BitfieldFor(totalLength, completedLen, pieceLength);
    }

    method ResetSingleProgress(total: int64, completed: int64)
      requires Valid()
      modifies this
      ensures Valid() && View() == ResetSingle(old(View()), total, completed)
    {
      totalLength := NonNegative(total);
      completedLen := NonNegative(completed);
      if totalLength > 0 {
        pieceLength := totalLength;
        numPieces := 1;
        donePieces := CompletedPieces(totalLength, completedLen, totalLength);
        bitfield := BitfieldFor(totalLength, completedLen, totalLength);
      }
    }

    method AddCompleted(n: int64)
      requires Valid()
      modifies this
      ensures Valid() && View() == Add(old(View()), n)
    {
      if n <= 0 {
        return;
      }
      completedLen := Wrap(completedLen as int + n as int);
      if totalLength > 0 && completedLen > totalLength {
        completedLen := totalLength;
      }
      if pieceLength > 0 && numPieces <= 1 {
        var done := CompletedPieces(totalLength, completedLen, pieceLength);
        if done != donePieces {
          donePieces := done;
          bitfield := BitfieldFor(totalLength, completedLen, pieceLength);
        }
      }
    }

    method RollbackCompleted(n: int64)
      requires Valid()
      modifies this
      ensures Valid() && View() == Rollback(old(View()), n)
    {
      if n <= 0 {
        return;
      }
      completedLen := Wrap(completedLen as int - n as int);
      if completedLen < 0 {
        completedLen := 0;
      }
    }

    method MarkPieceComplete(index: int)
      requires Valid()
      modifies this
      ensures Valid() && View() == Mark(old(View()), index)
    {
      if index < 0 || index >= numPieces as int || bitfield == "" {
        return;
      }
      var edited := SetPiece(bitfield, index);
      if edited.None? {
        return;
      }
      bitfield := edited.value;
      donePieces := Wrap(donePieces as int + 1);
    }
  }
}
