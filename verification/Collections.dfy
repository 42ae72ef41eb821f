/** Sequence helpers shared by the engine, transfer and session models. */
module Collections {

  datatype Option<+T> = None | Some(value: T)

  ghost predicate NoDuplicates<T>(s: seq<T>)
  {
    forall i, j :: 0 <= i < j < |s| ==> s[i] != s[j]
  }

  function Elements<T(==)>(s: seq<T>): set<T>
  {
    set x | x in s
  }

  lemma ElementsCons<T>(x: T, s: seq<T>)
    ensures Elements([x] + s) == {x} + Elements(s)
  {
  }

  /** The subsequence of `s` whose elements are not in `gone`. */
  function Drop<T(==, !new)>(s: seq<T>, gone: set<T>): (r: seq<T>)
    ensures forall x :: x in r <==> x in s && x !in gone
    ensures |r| <= |s|
    ensures NoDuplicates(s) ==> NoDuplicates(r)
  {
    if s == [] then [] else
    if s[0] in gone then
      assert NoDuplicates(s) ==> NoDuplicates(s[1..]);
      Drop(s[1..], gone)
    else
      assert NoDuplicates(s) ==> NoDuplicates(s[1..]);
      assert s == [s[0]] + s[1..];
      [s[0]] + Drop(s[1..], gone)
  }

  lemma {:induction false} DropConcat<T(!new)>(a: seq<T>, b: seq<T>, gone: set<T>)
    ensures Drop(a + b, gone) == Drop(a, gone) + Drop(b, gone)
  {
    if a == [] {
      assert a + b == b;
    } else {
      assert (a + b)[1..] == a[1..] + b;
      DropConcat(a[1..], b, gone);
    }
  }

  lemma {:induction false} DropNothing<T(!new)>(s: seq<T>, gone: set<T>)
    requires forall x :: x in s ==> x !in gone
    ensures Drop(s, gone) == s
  {
    if s != [] {
      DropNothing(s[1..], gone);
    }
  }

  lemma {:induction false} DropEverything<T(!new)>(s: seq<T>, gone: set<T>)
    requires forall x :: x in s ==> x in gone
    ensures Drop(s, gone) == []
  {
    if s != [] {
      DropEverything(s[1..], gone);
    }
  }

  /** `s` with `x` put at index `at`. */
  function Insert<T(==, !new)>(s: seq<T>, at: nat, x: T): (r: seq<T>)
    requires at <= |s|
    ensures |r| == |s| + 1 && r[at] == x
    ensures forall y :: y in r <==> y in s || y == x
    ensures NoDuplicates(s) && x !in s ==> NoDuplicates(r)
  {
    s[..at] + [x] + s[at..]
  }

  lemma {:induction false} DropBetween<T(!new)>(a: seq<T>, x: T, b: seq<T>)
    ensures Drop(a + [x] + b, {x}) == Drop(a + b, {x})
  {
    if a == [] {
      assert a + b == b && (a + [x] + b)[0] == x && (a + [x] + b)[1..] == b;
    } else {
      assert (a + [x] + b)[1..] == a[1..] + [x] + b && (a + b)[1..] == a[1..] + b;
      DropBetween(a[1..], x, b);
    }
  }

  lemma {:induction false} DropInserted<T(!new)>(s: seq<T>, at: nat, x: T)
    requires at <= |s|
    ensures Drop(Insert(s, at, x), {x}) == Drop(s, {x})
  {
    DropBetween(s[..at], x, s[at..]);
    assert s[..at] + s[at..] == s;
  }

  /** Moving an element leaves the others in their order. */
  lemma {:induction false} DropMoved<T(!new)>(s: seq<T>, i: nat, at: nat)
    requires i < |s| && at < |s|
    ensures Drop(Insert(s[..i] + s[i + 1..], at, s[i]), {s[i]}) == Drop(s, {s[i]})
  {
    var rest := s[..i] + s[i + 1..];
    DropInserted(rest, at, s[i]);
    DropInserted(rest, i, s[i]);
    assert Insert(rest, i, s[i]) == s;
  }

  /** Taking out the element at `i` of a duplicate-free sequence. */
  lemma RemoveAt<T(!new)>(s: seq<T>, i: nat)
    requires NoDuplicates(s) && i < |s|
    ensures NoDuplicates(s[..i] + s[i + 1..])
    ensures forall x :: x in s[..i] + s[i + 1..] <==> x in s && x != s[i]
  {
    var rest := s[..i] + s[i + 1..];
    forall x | x in s && x != s[i]
      ensures x in rest
    {
      var j :| 0 <= j < |s| && s[j] == x;
      assert x == rest[if j < i then j else j - 1];
    }
  }

  /** The first index of `x` in `s`, or `|s|` when it does not occur. */
  function IndexOf<T(==)>(s: seq<T>, x: T): (i: nat)
    ensures i <= |s|
    ensures i == |s| <==> x !in s
    ensures i < |s| ==> s[i] == x
    ensures forall j :: 0 <= j < i ==> s[j] != x
  {
    if s == [] then 0 else
    if s[0] == x then 0 else 1 + IndexOf(s[1..], x)
  }

  lemma DuplicateFreeAppend<T>(s: seq<T>, x: T)
    requires NoDuplicates(s) && x !in s
    ensures NoDuplicates(s + [x])
  {
  }

  ghost function Sum(xs: seq<int>): int
  {
    if xs == [] then 0 else Sum(xs[..|xs| - 1]) + xs[|xs| - 1]
  }

  lemma {:induction false} SumUpdate(xs: seq<int>, i: nat, x: int)
    requires i < |xs|
    ensures Sum(xs[i := x]) == Sum(xs) - xs[i] + x
  {
    var last := |xs| - 1;
    if i < last {
      SumUpdate(xs[..last], i, x);
      assert xs[i := x][..last] == xs[..last][i := x];
    } else {
      assert xs[i := x][..last] == xs[..last];
    }
  }

  lemma {:induction false} SumOrder(xs: seq<int>, ys: seq<int>)
    requires |xs| == |ys| && forall i :: 0 <= i < |xs| ==> xs[i] <= ys[i]
    ensures Sum(xs) <= Sum(ys)
  {
    if xs != [] {
      SumOrder(xs[..|xs| - 1], ys[..|ys| - 1]);
    }
  }

  lemma {:induction false} SumConstant(xs: seq<int>, x: int)
    requires forall i :: 0 <= i < |xs| ==> xs[i] == x
    ensures Sum(xs) == |xs| * x
  {
    if xs != [] {
      SumConstant(xs[..|xs| - 1], x);
    }
  }
}
