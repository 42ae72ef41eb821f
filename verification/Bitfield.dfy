/**
 The hexadecimal piece bitfield. Three routines write it: a prefix fill, an edit
 of one hexadecimal digit in place, and the expansion of run-length piece states.
 All are proved against one view, the sequence of its bits.
 */
module Bitfield {
  import opened Collections
  import opened Machine
  import opened Chunks

  const MAX_PIECES: int64 := 1024 * 1024

  // ----- bits of bytes -----

  /** The mask `1 << (7 - k)`. */
  function Mask(k: int): bv8
    requires 0 <= k < 8
  {
    if k == 0 then 0x80 else if k == 1 then 0x40 else if k == 2 then 0x20 else if k == 3 then 0x10
    else if k == 4 then 8 else if k == 5 then 4 else if k == 6 then 2 else 1
  }

  predicate BitAt(b: bv8, k: int)
    requires 0 <= k < 8
  {
    b & Mask(k) != 0
  }

  lemma SetBit(b: bv8, k: int, m: int)
    requires 0 <= k < 8 && 0 <= m < 8
    ensures BitAt(b | Mask(k), m) <==> m == k || BitAt(b, m)
  {
  }

  ghost function ByteBits(bytes: seq<bv8>): seq<bool>
  {
    seq(8 * |bytes|, i requires 0 <= i < 8 * |bytes| => BitAt(bytes[i / 8], i % 8))
  }

  lemma SetByteBit(bytes: seq<bv8>, j: int)
    requires 0 <= j < 8 * |bytes|
    ensures ByteBits(bytes[j / 8 := bytes[j / 8] | Mask(j % 8)]) == ByteBits(bytes)[j := true]
  {
    var after := bytes[j / 8 := bytes[j / 8] | Mask(j % 8)];
    forall i | 0 <= i < 8 * |bytes|
      ensures ByteBits(after)[i] == ByteBits(bytes)[j := true][i]
    {
      SetBit(bytes[j / 8], j % 8, i % 8);
    }
  }

  // ----- hexadecimal digits -----

  function HexDigit(n: bv8): char
    requires n < 16
  {
    if n == 0 then '0' else if n == 1 then '1' else if n == 2 then '2' else if n == 3 then '3'
    else if n == 4 then '4' else if n == 5 then '5' else if n == 6 then '6' else if n == 7 then '7'
    else if n == 8 then '8' else if n == 9 then '9' else if n == 10 then 'a' else if n == 11 then 'b'
    else if n == 12 then 'c' else if n == 13 then 'd' else if n == 14 then 'e' else 'f'
  }

  /** Digits of either case are read; only lower case is written. */
  function DecodeHexNibble(c: char): (r: Option<bv8>)
    ensures r.Some? ==> r.value < 16
    ensures r.Some? <==> '0' <= c <= '9' || 'a' <= c <= 'f' || 'A' <= c <= 'F'
  {
    match c
    case '0' => Some(0) case '1' => Some(1) case '2' => Some(2) case '3' => Some(3) case '4' => Some(4)
    case '5' => Some(5) case '6' => Some(6) case '7' => Some(7) case '8' => Some(8) case '9' => Some(9)
    case 'a' => Some(10) case 'b' => Some(11) case 'c' => Some(12)
    case 'd' => Some(13) case 'e' => Some(14) case 'f' => Some(15)
    case 'A' => Some(10) case 'B' => Some(11) case 'C' => Some(12)
    case 'D' => Some(13) case 'E' => Some(14) case 'F' => Some(15)
    case _ => None
  }

  lemma DigitReadsBack(n: bv8)
    requires n < 16
    ensures DecodeHexNibble(HexDigit(n)) == Some(n)
  {
  }

  /** Bit `k` of a digit, the most significant first. */
  predicate DigitBit(c: char, k: int)
    requires 0 <= k < 4
  {
    DecodeHexNibble(c).Some? && BitAt(DecodeHexNibble(c).value, k + 4)
  }

  /** The bits a hexadecimal string stands for. */
  ghost function Bits(hex: string): seq<bool>
  {
    seq(4 * |hex|, i requires 0 <= i < 4 * |hex| => DigitBit(hex[i / 4], i % 4))
  }

  /** The standard hexadecimal encoding: two digits a byte. */
  function EncodeHex(bytes: seq<bv8>): string
  {
    seq(2 * |bytes|, i requires 0 <= i < 2 * |bytes| => if i % 2 == 0 then HighDigit(bytes[i / 2]) else LowDigit(bytes[i / 2]))
  }

  function HighDigit(b: bv8): char
  {
    HexDigit(b >> 4)
  }

  function LowDigit(b: bv8): char
  {
    HexDigit(b & 15)
  }

  lemma NibbleBit(b: bv8, k: int)
    requires 0 <= k < 8
    ensures k < 4 ==> BitAt(b, k) == DigitBit(HighDigit(b), k)
    ensures k >= 4 ==> BitAt(b, k) == DigitBit(LowDigit(b), k - 4)
  {
    DigitReadsBack(b >> 4);
    DigitReadsBack(b & 15);
  }

  lemma HexKeepsBits(bytes: seq<bv8>)
    ensures Bits(EncodeHex(bytes)) == ByteBits(bytes)
    ensures forall i :: 0 <= i < 2 * |bytes| ==> DecodeHexNibble(EncodeHex(bytes)[i]).Some?
  {
    var hex := EncodeHex(bytes);
    forall i | 0 <= i < 8 * |bytes|
      ensures Bits(hex)[i] == ByteBits(bytes)[i]
    {
      NibbleBit(bytes[i / 8], i % 8);
      if i % 8 < 4 {
        assert i / 4 == 2 * (i / 8);
      } else {
        assert i / 4 == 2 * (i / 8) + 1;
      }
    }
  }

  // ----- counting -----

  ghost function CountSet(bits: seq<bool>): nat
  {
    if bits == [] then 0 else CountSet(bits[..|bits| - 1]) + if bits[|bits| - 1] then 1 else 0
  }

  lemma {:induction false} CountAfterSet(bits: seq<bool>, j: nat)
    requires j < |bits| && !bits[j]
    ensures CountSet(bits[j := true]) == CountSet(bits) + 1
  {
    var after := bits[j := true];
    if j < |bits| - 1 {
      CountAfterSet(bits[..|bits| - 1], j);
      assert after[..|bits| - 1] == bits[..|bits| - 1][j := true];
    } else {
      assert after[..|bits| - 1] == bits[..|bits| - 1];
    }
  }

  lemma {:induction false} CountPrefix(bits: seq<bool>, n: nat)
    requires n <= |bits| && forall i :: 0 <= i < |bits| ==> (bits[i] <==> i < n)
    ensures CountSet(bits) == n
  {
    if bits != [] {
      CountPrefix(bits[..|bits| - 1], if n == |bits| then n - 1 else n);
    }
  }

  /** `n` set bits followed by clear ones, `length` in all. */
  ghost function Prefix(n: int, length: nat): seq<bool>
  {
    seq(length, i requires 0 <= i < length => i < n)
  }

  // ----- prefix fill -----

  predicate Drawable(total: int64, pieceLength: int64)
  {
    total > 0 && pieceLength > 0 && CeilDiv(total, pieceLength) <= MAX_PIECES
  }

  /** The number of bits of a bitfield: the pieces, rounded up to whole bytes. */
  ghost function Padded(pieces: int): nat
    requires 0 <= pieces
  {
    8 * ((pieces + 7) / 8)
  }

  method ZeroBytes(n: nat) returns (bits: array<bv8>)
    ensures fresh(bits) && bits.Length == n && ByteBits(bits[..]) == Prefix(0, 8 * n)
  {
    bits := new bv8[n](_ => 0);
    NoBits(bits[..]);
  }

  /** Set one bit of a byte buffer. */
  method SetBitOf(bits: array<bv8>, i: nat)
    requires i < 8 * bits.Length
    modifies bits
    ensures ByteBits(bits[..]) == ByteBits(old(bits[..]))[i := true]
  {
    SetByteBit(bits[..], i);
    bits[i / 8] := bits[i / 8] | Mask(i % 8);
    assert bits[..] == old(bits[..])[i / 8 := old(bits[..])[i / 8] | Mask(i % 8)];
  }

  method BitfieldFor(total: int64, completed: int64, pieceLength: int64) returns (hex: string)
    ensures !Drawable(total, pieceLength) ==> hex == ""
    ensures Drawable(total, pieceLength) ==>
      && Bits(hex) == Prefix(CompletedPieces(total, completed, pieceLength) as int, Padded(CeilDiv(total, pieceLength) as int))
      && (forall i :: 0 <= i < |hex| ==> DecodeHexNibble(hex[i]).Some?)
  {
    if !Drawable(total, pieceLength) {
      return "";
    }
    var pieces := CeilDiv(total, pieceLength) as int;
    var bits := ZeroBytes((pieces + 7) / 8);
    var done := CompletedPieces(total, completed, pieceLength) as int;
    for i := 0 to done
      invariant ByteBits(bits[..]) == Prefix(i, 8 * bits.Length)
    {
      SetBitOf(bits, i);
    }
    HexKeepsBits(bits[..]);
    return EncodeHex(bits[..]);
  }

  lemma NoBits(bytes: seq<bv8>)
    requires forall i :: 0 <= i < |bytes| ==> bytes[i] == 0
    ensures ByteBits(bytes) == Prefix(0, 8 * |bytes|)
  {
  }

  // ----- one digit in place -----

  /** Set bit `index` of a bitfield by editing one digit; `None` when there is nothing to change. */
  method SetPiece(hex: string, index: nat) returns (r: Option<string>)
    ensures r.Some? <==> index < 4 * |hex| && DecodeHexNibble(hex[index / 4]).Some? && !Bits(hex)[index]
    ensures r.Some? ==> |r.value| == |hex| && Bits(r.value) == Bits(hex)[index := true]
    ensures r.Some? ==> forall i :: 0 <= i < |hex| ==>
              (DecodeHexNibble(r.value[i]).Some? <==> DecodeHexNibble(hex[i]).Some?)
  {
    var hexIndex := index / 4;
    if hexIndex >= |hex| {
      return None;
    }
    var decoded := DecodeHexNibble(hex[hexIndex]);
    if decoded.None? {
      return None;
    }
    var nibble, mask := decoded.value, Mask(4 + index % 4);
    if nibble & mask != 0 {
      return None;
    }
    MaskFits(nibble, 4 + index % 4);
    EditedDigit(hex, index, nibble | mask);
    return Some(hex[hexIndex := HexDigit(nibble | mask)]);
  }

  lemma MaskFits(nibble: bv8, k: int)
    requires nibble < 16 && 4 <= k < 8
    ensures nibble | Mask(k) < 16
  {
  }

  lemma EditedDigit(hex: string, index: nat, next: bv8)
    requires index < 4 * |hex| && DecodeHexNibble(hex[index / 4]).Some?
    requires next < 16 && next == DecodeHexNibble(hex[index / 4]).value | Mask(4 + index % 4)
    ensures Bits(hex[index / 4 := HexDigit(next)]) == Bits(hex)[index := true]
    ensures DecodeHexNibble(HexDigit(next)).Some?
  {
    DigitReadsBack(next);
    var after := hex[index / 4 := HexDigit(next)];
    forall i | 0 <= i < 4 * |hex|
      ensures Bits(after)[i] == Bits(hex)[index := true][i]
    {
      if i / 4 == index / 4 {
        SetBit(DecodeHexNibble(hex[index / 4]).value, 4 + index % 4, 4 + i % 4);
      }
    }
  }

  // ----- runs of pieces -----

  datatype PieceRun = PieceRun(length: int, ok: bool, complete: bool)

  /** One bit a piece: whether its run is verified and complete. */
  ghost function Expand(runs: seq<PieceRun>): seq<bool>
  {
    if runs == [] then []
    else Expand(runs[..|runs| - 1]) + RunBits(runs[|runs| - 1])
  }

  ghost function RunBits(run: PieceRun): seq<bool>
  {
    if run.length <= 0 then [] else seq(run.length, _ => run.ok && run.complete)
  }

  lemma {:induction false} ExpandPrefix(runs: seq<PieceRun>, n: nat)
    requires n <= |runs|
    ensures |Expand(runs[..n])| <= |Expand(runs)|
  {
    if n < |runs| {
      ExpandPrefix(runs[..|runs| - 1], n);
      assert runs[..|runs| - 1][..n] == runs[..n];
    } else {
      assert runs[..n] == runs;
    }
  }

  lemma ExpandOne(runs: seq<PieceRun>, i: nat)
    requires i < |runs|
    ensures Expand(runs[..i + 1]) == Expand(runs[..i]) + RunBits(runs[i])
    ensures |Expand(runs[..i])| + |RunBits(runs[i])| <= |Expand(runs)|
  {
    assert runs[..i + 1][..i] == runs[..i];
    ExpandPrefix(runs, i + 1);
  }

  lemma NothingDrawn(length: nat)
    ensures PaddedTo([], length) == Prefix(0, length)
  {
  }

  /** `bits` with clear bits added up to `length`. */
  ghost function PaddedTo(bits: seq<bool>, length: nat): seq<bool>
    requires |bits| <= length
  {
    bits + seq(length - |bits|, _ => false)
  }

  /** The count and the bitfield show exactly the pieces of the runs, if there are some and not too many. */
  ghost predicate Shows(done: int, hex: string, runs: seq<PieceRun>)
  {
    var pieces := Expand(runs);
    if pieces == [] || |pieces| > MAX_PIECES as int then done == 0 && hex == ""
    else Bits(hex) == PaddedTo(pieces, Padded(|pieces|)) && done == CountSet(pieces)
  }

  /** A bitfield with no piece set, for a torrent whose piece state is not known. */
  function UnknownBitfield(numPieces: int64): (hex: string)
    ensures numPieces <= 0 ==> hex == ""
    ensures numPieces > 0 ==> Bits(hex) == Prefix(0, 8 * CeilDiv(numPieces, 8) as int)
  {
    var hex := seq(2 * CeilDiv(numPieces, 8) as int, _ => '0');
    assert numPieces <= 0 ==> hex == "";
    assert forall k :: 0 <= k < 4 ==> !DigitBit('0', k);
    assert numPieces > 0 ==> Bits(hex) == Prefix(0, 8 * CeilDiv(numPieces, 8) as int);
    hex
  }

  method TorrentPieceProgress(runs: seq<PieceRun>) returns (done: int, hex: string)
    ensures Shows(done, hex, runs)
  {
    var pieces := 0;
    for i := 0 to |runs|
      invariant pieces == |Expand(runs[..i])| <= MAX_PIECES as int
    {
      assert runs[..i + 1][..i] == runs[..i];
      if runs[i].length > 0 {
        if runs[i].length > MAX_PIECES as int - pieces {
          ExpandPrefix(runs, i + 1);
          return 0, "";
        }
        pieces := pieces + runs[i].length;
      }
    }
    assert runs[..|runs|] == runs;
    if pieces == 0 {
      return 0, "";
    }
    done, hex := DrawRuns(runs, pieces);
  }

  method DrawRuns(runs: seq<PieceRun>, pieces: nat) returns (done: int, hex: string)
    requires pieces == |Expand(runs)|
    ensures Bits(hex) == PaddedTo(Expand(runs), Padded(pieces)) && done == CountSet(Expand(runs))
  {
    var bits := ZeroBytes((pieces + 7) / 8);
    NothingDrawn(8 * bits.Length);
    done := DrawInto(bits, runs);
    HexKeepsBits(bits[..]);
    hex := EncodeHex(bits[..]);
  }

  /** The buffer shows these pieces and nothing after them. */
  ghost predicate Holding(bytes: seq<bv8>, pieces: seq<bool>)
  {
    |pieces| <= 8 * |bytes| && ByteBits(bytes) == PaddedTo(pieces, 8 * |bytes|)
  }

  /** Draw all runs into a cleared buffer that is large enough. */
  method DrawInto(bits: array<bv8>, runs: seq<PieceRun>) returns (done: int)
    requires |Expand(runs)| <= 8 * bits.Length && Holding(bits[..], [])
    modifies bits
    ensures Holding(bits[..], Expand(runs)) && done == CountSet(Expand(runs))
  {
    var index := 0;
    done := 0;
    ghost var pieces: seq<bool> := [];
    for i := 0 to |runs|
      invariant pieces == Expand(runs[..i]) && index == |pieces|
      invariant Holding(bits[..], pieces) && done == CountSet(pieces)
    {
      ExpandOne(runs, i);
      var drawn := DrawRun(bits, runs[i], index, pieces);
      pieces := pieces + RunBits(runs[i]);
      index := index + if runs[i].length > 0 then runs[i].length else 0;
      done := done + drawn;
    }
    assert runs[..|runs|] == runs;
  }

  method DrawRun(bits: array<bv8>, run: PieceRun, index: nat, ghost before: seq<bool>) returns (drawn: nat)
    requires index == |before| && index + |RunBits(run)| <= 8 * bits.Length && Holding(bits[..], before)
    modifies bits
    ensures Holding(bits[..], before + RunBits(run))
    ensures CountSet(before + RunBits(run)) == CountSet(before) + drawn
  {
    if run.length <= 0 {
      assert before + RunBits(run) == before;
      return 0;
    }
    if run.ok && run.complete {
      FillRun(bits, index, run.length, before);
      assert RunBits(run) == seq(run.length, _ => true);
      return run.length;
    }
    SkipRun(before, run.length, 8 * bits.Length);
    assert RunBits(run) == seq(run.length, _ => false);
    return 0;
  }

  method FillRun(bits: array<bv8>, start: nat, length: nat, ghost before: seq<bool>)
    requires start == |before| && start + length <= 8 * bits.Length
    requires ByteBits(bits[..]) == PaddedTo(before, 8 * bits.Length)
    modifies bits
    ensures ByteBits(bits[..]) == PaddedTo(before + seq(length, _ => true), 8 * bits.Length)
    ensures CountSet(before + seq(length, _ => true)) == CountSet(before) + length
  {
    assert before + seq(0, _ => true) == before;
    for i := 0 to length
      invariant ByteBits(bits[..]) == PaddedTo(before + seq(i, _ => true), 8 * bits.Length)
      invariant CountSet(before + seq(i, _ => true)) == CountSet(before) + i
    {
      ghost var filled := before + seq(i, _ => true);
      SetBitOf(bits, start + i);
      assert before + seq(i + 1, _ => true) == filled + [true];
      assert (filled + [true])[..|filled|] == filled;
    }
  }

  lemma {:induction false} SkipRun(before: seq<bool>, length: nat, width: nat)
    requires |before| + length <= width
    ensures PaddedTo(before, width) == PaddedTo(before + seq(length, _ => false), width)
    ensures CountSet(before + seq(length, _ => false)) == CountSet(before)
  {
    if length == 0 {
      assert before + seq(0, _ => false) == before;
    } else {
      SkipRun(before, length - 1, width);
      assert (before + seq(length, _ => false))[..|before| + length - 1] == before + seq(length - 1, _ => false);
    }
  }
}
