/** The Content-Range header of section 14.4 of RFC 9110, and when a partial response is taken. */
module ContentRange {
  import opened Collections
  import opened Machine
  import opened Strings
  import Decimal

  datatype ContentRange = ContentRange(start: int64, end: int64, total: int64, totalKnown: bool, unsatisfied: bool)

  // ----- reading -----

  /** Case folding against a lower-case letter, with the two letters that fold from outside ASCII. */
  predicate Folds(c: char, lower: char)
  {
    || c == lower
    || ('a' <= lower <= 'z' && c as int == lower as int - 32)
    || (lower == 's' && c == '\U{17F}') || (lower == 'k' && c == '\U{212A}')
  }

  predicate EqualFold(s: string, lower: string)
  {
    |s| == |lower| && forall i :: 0 <= i < |s| ==> Folds(s[i], lower[i])
  }

  function ParseDecimal(s: string): Option<int64>
  {
    if s == "" || !Decimal.AllDigits(s) || Decimal.Value(s) > MAX as int then None else Some(Decimal.Value(s) as int64)
  }

  function Parse(s: string): Option<ContentRange>
  {
    var fields := Fields(Trim(s));
    if |fields| != 2 || !EqualFold(fields[0], "bytes") then None else
    var slash := IndexOf(fields[1], '/');
    if slash == |fields[1]| then None
    else ParseParts(fields[1][..slash], fields[1][slash + 1..])
  }

  function ParseParts(rangePart: string, totalPart: string): Option<ContentRange>
  {
    var totalKnown := totalPart != "*";
    var total := if totalKnown then ParseDecimal(totalPart) else Some(-1);
    if total.None? then None
    else if rangePart == "*" then
      if totalKnown then Some(ContentRange(0, 0, total.value, true, true)) else None
    else
      var dash := IndexOf(rangePart, '-');
      if dash == |rangePart| then None else
      var start, end := ParseDecimal(rangePart[..dash]), ParseDecimal(rangePart[dash + 1..]);
      if start.None? || end.None? || end.value < start.value || (totalKnown && end.value >= total.value) then None
      else Some(ContentRange(start.value, end.value, total.value, totalKnown, false))
  }

  /** What the header can say: a range inside the representation, or only the length of one. */
  predicate WellFormed(cr: ContentRange)
  {
    if cr.unsatisfied then cr.totalKnown && cr.start == 0 && cr.end == 0 && 0 <= cr.total
    else 0 <= cr.start <= cr.end && (if cr.totalKnown then cr.end < cr.total else cr.total == -1)
  }

  // ----- writing, as the specification has it -----

  function Header(cr: ContentRange): string
    requires WellFormed(cr)
  {
    "bytes " + Range(cr)
  }

  function Range(cr: ContentRange): string
    requires WellFormed(cr)
  {
    RangePart(cr) + "/" + TotalPart(cr)
  }

  function RangePart(cr: ContentRange): string
    requires WellFormed(cr)
  {
    if cr.unsatisfied then "*" else Decimal.Print(cr.start as int) + "-" + Decimal.Print(cr.end as int)
  }

  function TotalPart(cr: ContentRange): string
    requires WellFormed(cr)
  {
    if cr.totalKnown then Decimal.Print(cr.total as int) else "*"
  }

  lemma ParseIsSound(s: string)
    ensures Parse(s).Some? ==> WellFormed(Parse(s).value)
  {
  }

  lemma DecimalReads(n: int64)
    requires 0 <= n
    ensures ParseDecimal(Decimal.Print(n as int)) == Some(n) && Decimal.Print(n as int) != "*"
    ensures '-' !in Decimal.Print(n as int) && '/' !in Decimal.Print(n as int) && Word(Decimal.Print(n as int))
  {
    Decimal.PrintThenRead(n as int);
    var s := Decimal.Print(n as int);
    assert forall i :: 0 <= i < |s| ==> Decimal.IsDigit(s[i]);
    assert !Decimal.IsDigit('*');
  }

  lemma CutAt(a: string, c: char, b: string)
    requires c !in a
    ensures IndexOf(a + [c] + b, c) == |a| && (a + [c] + b)[..|a|] == a && (a + [c] + b)[|a| + 1..] == b
  {
    assert (a + [c] + b)[|a|] == c;
    var i := IndexOf(a + [c] + b, c);
    assert i == |a|;
  }

  lemma PartsRead(cr: ContentRange)
    requires WellFormed(cr)
    ensures ParseParts(RangePart(cr), TotalPart(cr)) == Some(cr)
    ensures '/' !in RangePart(cr) && Word(RangePart(cr)) && Word(TotalPart(cr))
  {
    if cr.totalKnown {
      DecimalReads(cr.total);
    }
    if !cr.unsatisfied {
      DecimalReads(cr.start);
      DecimalReads(cr.end);
      var a, b := Decimal.Print(cr.start as int), Decimal.Print(cr.end as int);
      CutAt(a, '-', b);
      assert a + "-" + b == a + ['-'] + b;
      assert (a + "-" + b)[|a|] == '-';
    }
  }

  /** Every well-formed header is read back exactly. */
  lemma HeaderReadsBack(cr: ContentRange)
    requires WellFormed(cr)
    ensures Parse(Header(cr)) == Some(cr)
  {
    var a, b := RangePart(cr), TotalPart(cr);
    PartsRead(cr);
    var word := a + "/" + b;
    assert word == Range(cr) && word == a + ['/'] + b;
    CutAt(a, '/', b);
    assert Word(word) by {
      assert forall i :: 0 <= i < |word| ==> word[i] == (if i < |a| then a[i] else if i == |a| then '/' else b[i - |a| - 1]);
    }
    TwoFields(word);
  }

  lemma TwoFields(word: string)
    requires Word(word)
    ensures Fields(Trim("bytes " + word)) == ["bytes", word] && EqualFold("bytes", "bytes")
  {
    var s := "bytes " + word;
    assert s[0] == 'b' && s[|s| - 1] == word[|word| - 1] && !IsSpace(word[|word| - 1]);
    TrimIsIdentity(s);
    assert s == "bytes" + ([' '] + word);
    assert Word("bytes");
    WordThenSpace("bytes", [' '] + word);
    FieldsAfterSpace(' ', word);
    assert word + "" == word;
    WordThenSpace(word, "");
  }

  // ----- taking a partial response -----

  /** The parts of a partial response that are checked; `encoded` means a content coding other than identity. */
  datatype Response = Response(contentRange: string, contentLength: int64, encoded: bool)

  function Partial(resp: Response): Option<ContentRange>
  {
    if resp.encoded then None
    else
      var cr := Parse(resp.contentRange);
      if cr.None? || cr.value.unsatisfied then None else cr
  }

  predicate LengthAgrees(resp: Response, cr: ContentRange)
  {
    resp.contentLength < 0 || resp.contentLength == Wrap(cr.end as int - cr.start as int + 1)
  }

  function ValidateExact(resp: Response, start: int64, end: int64, total: int64): Option<ContentRange>
  {
    var cr := Partial(resp);
    if cr.None? || cr.value.start != start || cr.value.end != end
       || (total >= 0 && cr.value.totalKnown && cr.value.total != total) || !LengthAgrees(resp, cr.value)
    then None else cr
  }

  function ValidateOpen(resp: Response, start: int64, total: int64): Option<ContentRange>
  {
    var cr := Partial(resp);
    if cr.None? || cr.value.start != start
       || (total >= 0 && cr.value.totalKnown && cr.value.total != total)
       || (total >= 0 && cr.value.end as int != total as int - 1)
       || (cr.value.totalKnown && cr.value.end != cr.value.total - 1) || !LengthAgrees(resp, cr.value)
    then None else cr
  }

  /** A server that announces a range is taken for an exact request exactly when it announces what was asked for. */
  lemma ExactTakes(cr: ContentRange, contentLength: int64, start: int64, end: int64, total: int64)
    requires WellFormed(cr) && 0 <= start <= end < total
    ensures ValidateExact(Response(Header(cr), contentLength, false), start, end, total).Some? <==>
            && !cr.unsatisfied && cr.start == start && cr.end == end && (cr.totalKnown ==> cr.total == total)
            && (contentLength < 0 || contentLength as int == end as int - start as int + 1)
  {
    HeaderReadsBack(cr);
  }

  /** An open range is taken only when it reaches the end of the representation. */
  lemma OpenReachesEnd(resp: Response, start: int64, total: int64)
    requires ValidateOpen(resp, start, total).Some?
    ensures var cr := ValidateOpen(resp, start, total).value;
            && cr.start == start && (total >= 0 ==> cr.end as int + 1 == total as int)
            && (cr.totalKnown ==> cr.end as int + 1 == cr.total as int)
            && (resp.contentLength >= 0 && total >= 0 ==> start as int + resp.contentLength as int == total as int)
  {
    ParseIsSound(resp.contentRange);
  }
}
