/** Output paths as the program computes them from the directory and name options, for slash-separated paths. */
module Paths {
  import opened Strings
  import Decimal

  /** The options that say where a download goes. */
  datatype Place = Place(dir: string, out: string)

  // ----- the path library -----

  predicate IsAbs(path: string)
  {
    path != "" && path[0] == '/'
  }

  /** The elements that remain when empty ones, dots and double dots are worked off from the left. */
  function Walk(parts: seq<string>, rooted: bool): (r: seq<string>)
  {
    if parts == [] then []
    else
      var done, last := Walk(parts[..|parts| - 1], rooted), parts[|parts| - 1];
      if last == "" || last == "." then done
      else if last != ".." then done + [last]
      else if done != [] && done[|done| - 1] != ".." then done[..|done| - 1]
      else if rooted then done
      else done + [last]
  }

  function JoinSlashes(parts: seq<string>): string
  {
    if parts == [] then "" else if |parts| == 1 then parts[0] else parts[0] + "/" + JoinSlashes(parts[1..])
  }

  function Clean(path: string): string
  {
    var body := JoinSlashes(Walk(Split(path, '/'), IsAbs(path)));
    if IsAbs(path) then "/" + body else if body == "" then "." else body
  }

  /** The length of the path up to and with its last slash. */
  function HeadLength(path: string): (n: nat)
    ensures n <= |path|
    ensures forall i :: n <= i < |path| ==> path[i] != '/'
    ensures n > 0 ==> path[n - 1] == '/'
  {
    if path == "" then 0 else if path[|path| - 1] == '/' then |path| else HeadLength(path[..|path| - 1])
  }

  function DirOf(path: string): string
  {
    Clean(path[..HeadLength(path)])
  }

  function DropSlashes(path: string): string
  {
    if path != "" && path[|path| - 1] == '/' then DropSlashes(path[..|path| - 1]) else path
  }

  function BaseOf(path: string): string
  {
    var trimmed := DropSlashes(path);
    if path == "" then "." else if trimmed == "" then "/" else trimmed[HeadLength(trimmed)..]
  }

  // ----- where a download goes -----

  predicate IsSimple(name: string)
  {
    name != "" && name != "." && name != ".." && '/' !in name && '\\' !in name
  }

  /** `name` is what the server or the URI suggests; it counts only without a name option. */
  function Resolve(place: Place, name: string): string
  {
    var dir := if place.dir == "" then "." else place.dir;
    var out := if place.out == "" then name else place.out;
    if IsAbs(out) then Clean(out)
    else if IsSimple(out) && dir != "." then dir + "/" + out
    else Clean(dir + "/" + Clean(out))
  }

  /** What automatic renaming appends: a dot and a number each time. */
  function Suffix(renames: seq<nat>): string
  {
    if renames == [] then "" else Suffix(renames[..|renames| - 1]) + "." + Decimal.Print(renames[|renames| - 1])
  }

  /** An output path by its origin: the options it was chosen for, the suggested name and the renamings. */
  datatype Chosen = Chosen(from: Place, name: string, renames: seq<nat>)

  function PathOf(c: Chosen): string
  {
    Resolve(c.from, c.name) + Suffix(c.renames)
  }

  lemma NotRenamed(place: Place, name: string)
    ensures PathOf(Chosen(place, name, [])) == Resolve(place, name)
  {
    assert Suffix([]) == "";
  }

  /** A path that these options can lead to. */
  ghost predicate Names(place: Place, path: string)
  {
    exists name, renames :: path == PathOf(Chosen(place, name, renames))
  }

  lemma {:induction false} SuffixHasNoSlash(renames: seq<nat>)
    ensures '/' !in Suffix(renames)
  {
    if renames != [] {
      SuffixHasNoSlash(renames[..|renames| - 1]);
      assert Decimal.AllDigits(Decimal.Print(renames[|renames| - 1]));
    }
  }

  // ----- a name set to what is shown -----

  /** A path that is its shown directory, a slash and its shown name. */
  predicate Ordinary(path: string)
  {
    path == DirOf(path) + "/" + BaseOf(path) && IsSimple(BaseOf(path))
  }

  /** Two paths that end in a slash and a name agree in both parts. */
  lemma SameParts(a: string, x: string, b: string, y: string)
    requires '/' !in x && '/' !in y && a + "/" + x == b + "/" + y
    ensures a == b && x == y
  {
    var p, q := a + "/" + x, b + "/" + y;
    assert p[|a|] == '/' && q[|b|] == '/';
    assert |a| == |b|;
    assert p[..|a|] == a && q[..|b|] == b && p[|a| + 1..] == x && q[|b| + 1..] == y;
  }

  /**
   With the name option set to the name shown and another directory option in
   force, the options lead to the published path exactly when that directory is
   the one shown.
   */
  lemma ShownNameLeadsBack(dir: string, path: string)
    requires Ordinary(path) && dir != "" && dir != "."
    ensures Names(Place(dir, BaseOf(path)), path) <==> dir == DirOf(path)
  {
    var base := BaseOf(path);
    if Names(Place(dir, base), path) {
      var name, renames :| path == PathOf(Chosen(Place(dir, base), name, renames));
      SimpleResolves(dir, base, name, renames);
      SuffixHasNoSlash(renames);
      SameParts(DirOf(path), base, dir, base + Suffix(renames));
    }
    if dir == DirOf(path) {
      SimpleResolves(dir, base, "", []);
      assert base + Suffix([]) == base;
      assert path == PathOf(Chosen(Place(dir, base), "", []));
    }
  }

  lemma SimpleResolves(dir: string, base: string, name: string, renames: seq<nat>)
    requires dir != "" && dir != "." && IsSimple(base)
    ensures PathOf(Chosen(Place(dir, base), name, renames)) == dir + "/" + (base + Suffix(renames))
  {
    assert base[0] in base;
    assert Resolve(Place(dir, base), name) == dir + "/" + base;
  }

  // ----- paths of plain elements -----

  lemma HeadIs(head: string, base: string)
    requires head != "" && head[|head| - 1] == '/' && '/' !in base
    ensures HeadLength(head + base) == |head|
  {
    var path, n := head + base, HeadLength(head + base);
    assert path[|head| - 1] == '/';
    assert n >= |head|;
    assert forall i :: |head| <= i < |path| ==> path[i] in base;
  }

  lemma PartsOf(head: string, base: string)
    requires head != "" && head[|head| - 1] == '/' && IsSimple(base)
    ensures DirOf(head + base) == Clean(head) && BaseOf(head + base) == base
  {
    var path := head + base;
    HeadIs(head, base);
    assert path[|path| - 1] == base[|base| - 1] && base[|base| - 1] in base;
    assert DropSlashes(path) == path && path[..|head|] == head && path[|head|..] == base;
  }

  /** An empty element is dropped by the walk, and a simple one is kept. */
  lemma WalkOne(front: seq<string>, last: string, rooted: bool)
    ensures last == "" ==> Walk(front + [last], rooted) == Walk(front, rooted)
    ensures IsSimple(last) ==> Walk(front + [last], rooted) == Walk(front, rooted) + [last]
  {
    assert (front + [last])[..|front|] == front;
  }

  lemma RootedSplit(y: string, z: string)
    requires '/' !in y && '/' !in z
    ensures Split(['/'] + (y + ['/'] + z), '/') == ["", y, z]
  {
    var yz := y + ['/'] + z;
    assert ['/'] + yz == "" + ['/'] + yz;
    SplitAt("", '/', yz);
    SplitAt(y, '/', z);
    SplitWhole(z, '/');
  }

  lemma RootedWalk(y: string, z: string)
    requires IsSimple(y) && (IsSimple(z) || z == "")
    ensures Walk(["", y, z], true) == if z == "" then [y] else [y, z]
  {
    WalkOne([], "", true);
    WalkOne([""], y, true);
    WalkOne(["", y], z, true);
    assert [] + [""] == [""] && [""] + [y] == ["", y] && ["", y] + [z] == ["", y, z];
  }

  lemma CleanRooted(y: string, z: string)
    requires IsSimple(y) && (IsSimple(z) || z == "")
    ensures Clean(['/'] + (y + ['/'] + z)) == if z == "" then ['/'] + y else ['/'] + (y + ['/'] + z)
  {
    RootedSplit(y, z);
    RootedWalk(y, z);
    assert [y, z][1..] == [z];
    assert JoinSlashes([y, z]) == y + "/" + z;
  }

  /** An absolute name option: where it leads, whatever the directory, and what is then shown. */
  lemma AbsoluteName(dir: string, y: string, z: string, name: string)
    requires IsSimple(y) && IsSimple(z)
    ensures var path := ['/'] + (y + ['/'] + z);
            Resolve(Place(dir, path), name) == path && DirOf(path) == ['/'] + y && BaseOf(path) == z
  {
    var path, head := ['/'] + (y + ['/'] + z), ['/'] + (y + ['/'] + "");
    CleanRooted(y, z);
    CleanRooted(y, "");
    assert path == head + z;
    PartsOf(head, z);
  }
}
