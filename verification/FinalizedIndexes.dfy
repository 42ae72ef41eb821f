/** The session's list of finalized torrent files: one-based numbers in decimal, separated by commas. */
module FinalizedIndexes {
  import opened Collections
  import opened Machine
  import opened Strings
  import Decimal

  // ----- writing -----

  function JoinCommas(items: seq<string>): string
  {
    if items == [] then "" else if |items| == 1 then items[0] else items[0] + "," + JoinCommas(items[1..])
  }

  function Numerals(indexes: seq<int>): seq<string>
    requires forall i :: 0 <= i < |indexes| ==> 0 <= indexes[i]
  {
    seq(|indexes|, i requires 0 <= i < |indexes| => Decimal.Print(indexes[i]))
  }

  /** The text of a set of numbers, listed in some order. */
  function Encoded(indexes: seq<int>): string
    requires forall i :: 0 <= i < |indexes| ==> 0 <= indexes[i]
  {
    JoinCommas(Numerals(indexes))
  }

  // ----- reading -----

  /** A decimal number with an optional sign, within 64 bits. */
  function Atoi(s: string): Option<int>
  {
    var signed := s != "" && (s[0] == '+' || s[0] == '-');
    var digits := if signed then s[1..] else s;
    if digits == "" || !Decimal.AllDigits(digits) then None
    else
      var v: int := if signed && s[0] == '-' then 0 - Decimal.Value(digits) else Decimal.Value(digits);
      if -(MAX as int) - 1 <= v <= MAX as int then Some(v) else None
  }

  function Item(s: string): Option<int>
  {
    var v := Atoi(Trim(s));
    if v.None? || v.value < 1 then None else v
  }

  /** All items, or nothing if one of them is not a positive number. */
  ghost function Items(items: seq<string>): Option<set<int>>
  {
    if items == [] then Some({})
    else
      var n := |items| - 1;
      var rest, last := Items(items[..n]), Item(items[n]);
      if rest.None? || last.None? then None else Some(rest.value + {last.value})
  }

  ghost function Decoded(raw: string): Option<set<int>>
  {
    if Trim(raw) == "" then Some({}) else Items(Split(Trim(raw), ','))
  }

  lemma {:induction false} ItemsNeedAll(items: seq<string>, i: nat)
    requires i < |items| && Item(items[i]).None?
    ensures Items(items).None?
  {
    if i < |items| - 1 {
      ItemsNeedAll(items[..|items| - 1], i);
    }
  }

  method ParseFinalized(raw: string) returns (r: Option<set<int>>)
    ensures r == Decoded(raw)
  {
    var text := Trim(raw);
    if text == "" {
      return Some({});
    }
    var items := Split(text, ',');
    var indexes: set<int> := {};
    for i := 0 to |items|
      invariant Items(items[..i]) == Some(indexes)
    {
      assert items[..i + 1][..i] == items[..i];
      var index := Atoi(Trim(items[i]));
      if index.None? || index.value < 1 {
        ItemsNeedAll(items, i);
        return None;
      }
      indexes := indexes + {index.value};
    }
    assert items[..|items|] == items;
    return Some(indexes);
  }

  // ----- round trip -----

  lemma NumeralReads(n: int)
    requires 1 <= n <= MAX as int
    ensures Item(Decimal.Print(n)) == Some(n) && ',' !in Decimal.Print(n) && Word(Decimal.Print(n))
  {
    Decimal.PrintThenRead(n);
    DigitsAreWords(Decimal.Print(n));
    DigitsRead(Decimal.Print(n));
  }

  lemma DigitsRead(s: string)
    requires s != "" && Decimal.AllDigits(s) && 1 <= Decimal.Value(s) <= MAX as int
    ensures Item(s) == Some(Decimal.Value(s))
  {
    assert Decimal.IsDigit(s[0]) && Decimal.IsDigit(s[|s| - 1]);
    TrimIsIdentity(s);
  }

  lemma DigitsAreWords(s: string)
    requires s != "" && Decimal.AllDigits(s)
    ensures ',' !in s && Word(s)
  {
    assert forall i :: 0 <= i < |s| ==> Decimal.IsDigit(s[i]);
  }

  ghost predicate Numeral(s: string)
  {
    Word(s) && ',' !in s
  }

  lemma {:induction false} JoinedIsTrimmed(items: seq<string>)
    requires items != [] && forall i :: 0 <= i < |items| ==> Numeral(items[i])
    ensures JoinCommas(items) != "" && Trimmed(JoinCommas(items))
  {
    var first := items[0];
    assert Numeral(first) && !IsSpace(first[0]) && !IsSpace(first[|first| - 1]);
    if |items| > 1 {
      var rest := JoinCommas(items[1..]);
      JoinedIsTrimmed(items[1..]);
      assert (first + "," + rest)[|first + "," + rest| - 1] == rest[|rest| - 1];
    }
  }

  lemma {:induction false} SplitOfJoined(items: seq<string>)
    requires items != [] && forall i :: 0 <= i < |items| ==> ',' !in items[i]
    ensures Split(JoinCommas(items), ',') == items
  {
    if |items| == 1 {
      assert IndexOf(items[0], ',') == |items[0]|;
      assert items == [items[0]];
    } else {
      SplitOfJoined(items[1..]);
      SplitAt(items[0], ',', JoinCommas(items[1..]));
      assert items[0] + "," + JoinCommas(items[1..]) == items[0] + [','] + JoinCommas(items[1..]);
      assert items == [items[0]] + items[1..];
    }
  }

  lemma {:induction false} ItemsOfNumerals(indexes: seq<int>)
    requires forall i :: 0 <= i < |indexes| ==> 1 <= indexes[i] <= MAX as int
    ensures Items(Numerals(indexes)) == Some(Elements(indexes))
  {
    if indexes == [] {
      assert Elements(indexes) == {};
    } else {
      var n := |indexes| - 1;
      ItemsOfNumerals(indexes[..n]);
      NumeralReads(indexes[n]);
      NumeralsFront(indexes);
      ElementsFront(indexes);
    }
  }

  lemma NumeralsFront(indexes: seq<int>)
    requires indexes != [] && forall i :: 0 <= i < |indexes| ==> 0 <= indexes[i]
    ensures var n := |indexes| - 1;
            Numerals(indexes)[..n] == Numerals(indexes[..n]) && Numerals(indexes)[n] == Decimal.Print(indexes[n])
  {
  }

  lemma ElementsFront(indexes: seq<int>)
    requires indexes != []
    ensures Elements(indexes) == Elements(indexes[..|indexes| - 1]) + {indexes[|indexes| - 1]}
  {
    assert indexes == indexes[..|indexes| - 1] + [indexes[|indexes| - 1]];
  }

  /** Any set of file numbers is read back from its text, in whatever order it was listed. */
  lemma ReadsBack(indexes: seq<int>)
    requires forall i :: 0 <= i < |indexes| ==> 1 <= indexes[i] <= MAX as int
    ensures Decoded(Encoded(indexes)) == Some(Elements(indexes))
  {
    var items := Numerals(indexes);
    if indexes == [] {
      assert Elements(indexes) == {};
    } else {
      forall i | 0 <= i < |items|
        ensures Numeral(items[i])
      {
        NumeralReads(indexes[i]);
      }
      SplitOfJoined(items);
      JoinedIsTrimmed(items);
      TrimIsIdentity(JoinCommas(items));
      ItemsOfNumerals(indexes);
    }
  }
}
