/** How a transfer of known length is cut into ranges. */
module Chunks {
  import opened Machine

  const DEFAULT_SEGMENT_SIZE: int64 := 50 * 1024 * 1024
  const MAX_SEGMENTS: int64 := 64 * 1024

  /** A range of bytes, both ends included. */
  datatype Range = Range(start: int64, end: int64)

  ghost function Length(r: Range): int
  {
    r.end as int - r.start as int + 1
  }

  /** The least `r` with `n <= r * d`, and 0 for an empty total or a meaningless divisor. */
  function CeilDiv(n: int64, d: int64): (r: int64)
    ensures n <= 0 || d <= 0 ==> r == 0
    ensures n > 0 && d > 0 ==> 1 <= r <= n && (r as int - 1) * d as int < n as int <= r as int * d as int
  {
    if n <= 0 || d <= 0 then 0
    else
      DivisionBounds(n as int - 1, d as int);
      1 + (n - 1) / d
  }

  lemma ProductOrder(a: int, b: int, d: int)
    requires a <= b && 0 <= d
    ensures a * d <= b * d
  {
    assert (b - a) * d >= 0;
  }

  lemma DivisionBounds(n: int, d: int)
    requires 0 <= n && 0 < d
    ensures 0 <= n / d <= n && (n / d) * d <= n < (n / d + 1) * d
  {
    var q, rest := n / d, n % d;
    assert n == q * d + rest && 0 <= rest < d;
    assert (q + 1) * d == q * d + d;
    if q < 0 {
      ProductOrder(q, -1, d);
    }
    if q > 0 {
      ProductOrder(1, d, q);
    }
  }

  /** Quotients are pinned down by the multiples around the dividend. */
  lemma QuotientIs(n: int, d: int, q: int)
    requires 0 < d && 0 <= n && q * d <= n < (q + 1) * d
    ensures n / d == q
  {
    DivisionBounds(n, d);
    if n / d < q {
      ProductOrder(n / d + 1, q, d);
    }
    if n / d > q {
      ProductOrder(q + 1, n / d, d);
    }
  }

  /** The ranges lie end to end from 0, all of `size` bytes but a possibly shorter last one. */
  ghost predicate Cut(chunks: seq<Range>, total: int, size: int)
  {
    && chunks != [] && 0 < size
    && chunks[0].start == 0 && chunks[|chunks| - 1].end as int == total - 1
    && (forall i :: 0 <= i < |chunks| ==> 1 <= Length(chunks[i]) <= size)
    && (forall i :: 0 <= i < |chunks| - 1 ==> chunks[i].end as int + 1 == chunks[i + 1].start as int)
    && (forall i :: 0 <= i < |chunks| - 1 ==> Length(chunks[i]) == size)
  }

  /** The range length in force: a default for none, and never so small that there are too many ranges. */
  function EffectiveSize(total: int64, chunkSize: int64): (size: int64)
    requires 0 < total
    ensures 0 < size && total as int <= MAX_SEGMENTS as int * size as int
    ensures size == chunkSize || size == DEFAULT_SEGMENT_SIZE || size == CeilDiv(total, MAX_SEGMENTS)
    ensures 0 < chunkSize && total as int <= MAX_SEGMENTS as int * chunkSize as int ==> size == chunkSize
  {
    var wanted := if chunkSize <= 0 then DEFAULT_SEGMENT_SIZE else chunkSize;
    var least := CeilDiv(total, MAX_SEGMENTS);
    assert wanted >= least ==> MAX_SEGMENTS as int * wanted as int >= MAX_SEGMENTS as int * least as int;
    if wanted < least then least else wanted
  }

  /** Any positive total is cut into at most 65536 ranges, without leaving 64 bits. */
  method MakeChunks(total: int64, chunkSize: int64) returns (chunks: seq<Range>)
    ensures total <= 0 ==> chunks == []
    ensures total > 0 ==>
      var size := EffectiveSize(total, chunkSize);
      && Cut(chunks, total as int, size as int)
      && |chunks| == CeilDiv(total, size) as int <= MAX_SEGMENTS as int
      && |chunks| == CeilDiv(total, (chunks[0].end - chunks[0].start) + 1) as int
  {
    chunks := [];
    if total <= 0 {
      return;
    }
    var size := EffectiveSize(total, chunkSize);
    var start: int64 := 0;
    while start < total
      invariant 0 <= start <= total
      invariant chunks == [] <==> start == 0
      invariant chunks != [] ==> Cut(chunks, start as int, size as int)
      invariant start < total && chunks != [] ==> Length(chunks[|chunks| - 1]) == size as int
      decreases total - start
    {
      var length := size;
      if length > total - start {
        length := total - start;
      }
      var end := start + (length - 1);
      chunks := chunks + [Range(start, end)];
      start := end + 1;
    }
    CutCount(chunks, total, size);
    CutSmall(chunks, total as int, size as int);
    CutFirst(chunks, total, size);
  }

  lemma {:induction false} CutStart(chunks: seq<Range>, total: int, size: int, i: nat)
    requires Cut(chunks, total, size) && i < |chunks|
    ensures chunks[i].start as int == i * size
  {
    if i > 0 {
      CutStart(chunks, total, size, i - 1);
      assert (i - 1) * size + size == i * size;
    }
  }

  lemma CutCount(chunks: seq<Range>, total: int64, size: int64)
    requires Cut(chunks, total as int, size as int) && 0 < total
    ensures |chunks| == CeilDiv(total, size) as int
  {
    var n, s := |chunks|, size as int;
    CutStart(chunks, total as int, s, n - 1);
    assert (n - 1) * s + s == n * s;
    QuotientIs(total as int - 1, s, n - 1);
  }

  /** A size that covers the total in 65536 ranges needs no more. */
  lemma CutSmall(chunks: seq<Range>, total: int, size: int)
    requires Cut(chunks, total, size) && total <= MAX_SEGMENTS as int * size
    ensures |chunks| <= MAX_SEGMENTS as int
  {
    var n := |chunks|;
    CutStart(chunks, total, size, n - 1);
    if n > MAX_SEGMENTS as int {
      ProductOrder(MAX_SEGMENTS as int, n - 1, size);
      assert false;
    }
  }

  /** The first range's own length gives the same count, even when it is the short one. */
  lemma CutFirst(chunks: seq<Range>, total: int64, size: int64)
    requires Cut(chunks, total as int, size as int) && 0 < total && |chunks| == CeilDiv(total, size) as int
    ensures |chunks| == CeilDiv(total, (chunks[0].end - chunks[0].start) + 1) as int
  {
    if |chunks| == 1 {
      OneChunk(total);
      assert chunks[0] == Range(0, total - 1);
      assert (chunks[0].end - chunks[0].start) + 1 == total;
    } else {
      assert Length(chunks[0]) == size as int;
      assert (chunks[0].end - chunks[0].start) + 1 == size;
    }
  }

  lemma OneChunk(total: int64)
    requires 0 < total
    ensures CeilDiv(total, total) == 1
  {
    QuotientIs(total as int - 1, total as int, 0);
  }

  /** Every byte of the file belongs to exactly one range. */
  lemma ByteInOneChunk(chunks: seq<Range>, total: int, size: int, b: int)
    requires Cut(chunks, total, size) && 0 <= b < total
    ensures 0 <= b / size < |chunks|
    ensures forall i :: 0 <= i < |chunks| ==>
              (chunks[i].start as int <= b <= chunks[i].end as int <==> i == b / size)
  {
    var q := b / size;
    DivisionBounds(b, size);
    WithinCount(chunks, total, size, b, q);
    ChunkHolds(chunks, total, size, b, q);
    forall i | 0 <= i < |chunks| && chunks[i].start as int <= b <= chunks[i].end as int
      ensures i == q
    {
      HolderIs(chunks, total, size, b, i);
    }
  }

  lemma WithinCount(chunks: seq<Range>, total: int, size: int, b: int, q: int)
    requires Cut(chunks, total, size) && b < total && q * size <= b
    ensures q < |chunks|
  {
    var n := |chunks|;
    CutStart(chunks, total, size, n - 1);
    assert (n - 1) * size + size == n * size;
    if n <= q {
      ProductOrder(n, q, size);
    }
  }

  lemma ChunkHolds(chunks: seq<Range>, total: int, size: int, b: int, q: int)
    requires Cut(chunks, total, size) && b < total && 0 <= q < |chunks| && q * size <= b < (q + 1) * size
    ensures chunks[q].start as int <= b <= chunks[q].end as int
  {
    CutStart(chunks, total, size, q);
    assert (q + 1) * size == q * size + size;
  }

  lemma HolderIs(chunks: seq<Range>, total: int, size: int, b: int, i: int)
    requires Cut(chunks, total, size) && 0 <= b && 0 <= i < |chunks|
    requires chunks[i].start as int <= b <= chunks[i].end as int
    ensures i == b / size
  {
    CutStart(chunks, total, size, i);
    assert (i + 1) * size == i * size + size;
    QuotientIs(b, size, i);
  }

  /** The number of whole pieces in the first `completed` bytes; the last piece may be short. */
  function CompletedPieces(total: int64, completed: int64, pieceLength: int64): (r: int64)
    ensures total <= 0 || completed <= 0 || pieceLength <= 0 ==> r == 0
    ensures total > 0 && completed > 0 && pieceLength > 0 ==>
      && 0 <= r <= CeilDiv(total, pieceLength)
      && (completed >= total ==> r == CeilDiv(total, pieceLength))
      && (completed < total ==> r as int * pieceLength as int <= completed as int < (r as int + 1) * pieceLength as int)
  {
    if total <= 0 || completed <= 0 || pieceLength <= 0 then 0
    else
      var pieces := CeilDiv(total, pieceLength);
      var done := completed / pieceLength;
      DivisionBounds(completed as int, pieceLength as int);
      if completed >= total then pieces
      else if done > pieces then
        ProductOrder(pieces as int, done as int, pieceLength as int);
        assert false;
        pieces
      else done
  }

  /** A piece counts as done exactly when its last byte is among the first `completed` ones. */
  lemma PieceDone(total: int64, completed: int64, pieceLength: int64, piece: int)
    requires 0 < total && 0 < pieceLength && 0 <= piece < CeilDiv(total, pieceLength) as int
    ensures piece < CompletedPieces(total, completed, pieceLength) as int <==>
            completed as int >= (if (piece + 1) * pieceLength as int < total as int
                                 then (piece + 1) * pieceLength as int else total as int)
  {
    var r, p := CompletedPieces(total, completed, pieceLength) as int, pieceLength as int;
    if 0 < completed < total {
      if piece < r {
        ProductOrder(piece + 1, r, p);
      } else {
        ProductOrder(r + 1, piece + 1, p);
      }
    } else if completed <= 0 {
      ProductOrder(1, piece + 1, p);
    }
  }
}
