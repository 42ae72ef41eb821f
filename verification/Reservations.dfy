/**
 Output-path reservations of one engine: a two-way index between the canonical
 key of a destination and the gid that may write to it.

 Canonicalising a path (absolute form, symlinks) is a parameter `keyOf`, fixed
 for the life of the table; a failed canonicalisation is `None`.
 */
module Reservations {
  import opened Collections
  import Decimal

  type Gid = string
  type Key = string
  type Path = string

  datatype Failure = BadPath | SharedPath | InUse | StatFailed | NoCandidate
  datatype Outcome<+T> = Done(value: T) | Failed(reason: Failure)

  /** What the filesystem says about a candidate destination. */
  datatype Stat = Exists | Absent | Unknown

  // ----- the table as one map from key to owner -----

  ghost function Owned(owner: map<Key, Gid>, gid: Gid): set<Key>
  {
    set k | k in owner && owner[k] == gid
  }

  /** A batch is accepted iff its keys are distinct and none belongs to another gid. */
  ghost predicate Reservable(owner: map<Key, Gid>, keys: seq<Key>, gid: Gid)
  {
    && NoDuplicates(keys)
    && (forall k :: k in keys && k in owner ==> owner[k] == gid)
  }

  ghost function Release(owner: map<Key, Gid>, gid: Gid): (r: map<Key, Gid>)
    ensures Owned(r, gid) == {}
    ensures forall other :: other != gid ==> Owned(r, other) == Owned(owner, other)
  {
    map k | k in owner && owner[k] != gid :: owner[k]
  }

  ghost function Grant(owner: map<Key, Gid>, keys: seq<Key>, gid: Gid): map<Key, Gid>
  {
    map k | k in owner.Keys + (set key | key in keys) :: if k in keys then gid else owner[k]
  }

  /** The whole effect of a batch update; `None` is a rejected batch. */
  ghost function Update(owner: map<Key, Gid>, keys: seq<Key>, gid: Gid, replace: bool): (r: Option<map<Key, Gid>>)
    ensures r.Some? <==> Reservable(owner, keys, gid)
    ensures r.Some? ==> Owned(r.value, gid) ==
                        (if replace then {} else Owned(owner, gid)) + (set k | k in keys)
    ensures r.Some? ==> forall other :: other != gid ==> Owned(r.value, other) == Owned(owner, other)
  {
    if !Reservable(owner, keys, gid) then None
    else Some(Grant(if replace then Release(owner, gid) else owner, keys, gid))
  }

  /**
   The hand-over of a torrent restart: the new set is added to the old one while
   the old run may still write, other gids reserve and release what they can in
   between, and the table then collapses to the new set. If the gid has kept
   what the first batch gave it, the collapse cannot be refused and leaves
   exactly the new set.
   */
  lemma UnionThenCollapse(before: map<Key, Gid>, during: map<Key, Gid>, keys: seq<Key>, gid: Gid)
    requires Update(before, keys, gid, false).Some?
    requires Owned(Update(before, keys, gid, false).value, gid) <= Owned(during, gid)
    ensures Update(during, keys, gid, true).Some?
    ensures Owned(Update(during, keys, gid, true).value, gid) == set k | k in keys
  {
    var granted := Update(before, keys, gid, false).value;
    forall k | k in keys
      ensures k in during && during[k] == gid
    {
      assert k in Owned(granted, gid);
      assert k in Owned(during, gid);
    }
  }

  /** Adding keys the gid already owns is granted and changes nothing. */
  lemma UnionKeepsTable(owner: map<Key, Gid>, keys: seq<Key>, gid: Gid)
    requires NoDuplicates(keys) && forall k :: k in keys ==> k in owner && owner[k] == gid
    ensures Update(owner, keys, gid, false) == Some(owner)
  {
    assert Grant(owner, keys, gid) == owner;
  }

  ghost predicate Inverse(owner: map<Key, Gid>, byGid: map<Gid, set<Key>>)
  {
    && (forall k :: k in owner ==> owner[k] in byGid && k in byGid[owner[k]])
    && (forall g, k :: g in byGid && k in byGid[g] ==> k in owner && owner[k] == g)
  }

  /** The candidate `path.i` of the automatic renaming. */
  function Renamed(path: Path, i: nat): Path
  {
    path + "." + Decimal.Print(i)
  }

  // ----- the table as the engine keeps it -----

  class PathReservations {
    var pathReservations: map<Key, Gid>
    var reservedPathsByGid: map<Gid, set<Key>>
    const keyOf: Path -> Option<Key>

    ghost predicate Valid()
      reads this
    {
      Inverse(pathReservations, reservedPathsByGid)
    }

    constructor (keyOf: Path -> Option<Key>)
      ensures Valid() && pathReservations == map[] && this.keyOf == keyOf
    {
      this.keyOf := keyOf;
      pathReservations := map[];
      reservedPathsByGid := map[];
    }

    method Record(key: Key, gid: Gid)
      requires Valid()
      requires key in pathReservations ==> pathReservations[key] == gid
      modifies this
      ensures Valid()
      ensures pathReservations == old(pathReservations)[key := gid]
    {
      pathReservations := pathReservations[key := gid];
      var paths := if gid in reservedPathsByGid then reservedPathsByGid[gid] else {};
      reservedPathsByGid := reservedPathsByGid[gid := paths + {key}];
    }

    /**
     Reserve one destination, renaming it when another gid holds it. A refusal
     changes nothing; a success takes exactly one key, which nobody else held.
     The first candidate that is neither reserved nor present on disk decides: it
     is taken if its absence is certain, and its own failure is reported if not;
     candidates run out only when all of them are skipped.
     */
    method ReserveOutputPath(path: Path, gid: Gid, autoRename: bool, stat: Path -> Stat)
      returns (r: Outcome<Path>)
      requires Valid()
      modifies this
      ensures Valid()
      ensures r.Failed? ==> pathReservations == old(pathReservations)
      ensures r.Done? ==>
                && keyOf(r.value).Some?
                && pathReservations == old(pathReservations)[keyOf(r.value).value := gid]
                && Reservable(old(pathReservations), [keyOf(r.value).value], gid)
      ensures keyOf(path).Some? && Reservable(old(pathReservations), [keyOf(path).value], gid) ==>
                r == Done(path)
      ensures keyOf(path).None? ==> r == Failed(BadPath)
      ensures keyOf(path).Some? && !Reservable(old(pathReservations), [keyOf(path).value], gid) ==>
                && (!autoRename ==> r == Failed(InUse))
                && (autoRename ==> (r == Failed(NoCandidate) <==> SkippedBelow(old(pathReservations), stat, path, 10000)))
                && (autoRename ==> forall i :: 1 <= i < 10000 && IsFirst(old(pathReservations), stat, path, i) ==>
                      && (keyOf(Renamed(path, i)).None? <==> r == Failed(BadPath))
                      && (keyOf(Renamed(path, i)).Some? && stat(Renamed(path, i)) == Unknown <==> r == Failed(StatFailed))
                      && (keyOf(Renamed(path, i)).Some? && stat(Renamed(path, i)) == Absent <==> r == Done(Renamed(path, i))))
    {
      var key := keyOf(path);
      if key.None? {
        return Failed(BadPath);
      }
      if key.value !in pathReservations || pathReservations[key.value] == gid {
        Record(key.value, gid);
        return Done(path);
      }
      assert !Reservable(pathReservations, [key.value], gid) by {
        assert key.value in [key.value];
      }
      if !autoRename {
        return Failed(InUse);
      }
      for i := 1 to 10000
        invariant pathReservations == old(pathReservations) && Valid()
        invariant SkippedBelow(old(pathReservations), stat, path, i)
      {
        var candidate := Renamed(path, i);
        var candidateKey := keyOf(candidate);
        if candidateKey.None? {
          return Failed(BadPath);
        }
        if candidateKey.value in pathReservations {
          continue;
        }
        if stat(candidate) == Exists {
          continue;
        }
        if stat(candidate) == Unknown {
          return Failed(StatFailed);
        }
        Record(candidateKey.value, gid);
        return Done(candidate);
      }
      return Failed(NoCandidate);
    }

    /** Every candidate before `i` is skipped. */
    ghost predicate SkippedBelow(owner: map<Key, Gid>, stat: Path -> Stat, path: Path, i: nat)
    {
      forall j :: 1 <= j < i ==> Occupied(owner, stat, Renamed(path, j))
    }

    /** Candidate `i` is the first one that is not skipped. */
    ghost predicate IsFirst(owner: map<Key, Gid>, stat: Path -> Stat, path: Path, i: nat)
    {
      SkippedBelow(owner, stat, path, i) && !Occupied(owner, stat, Renamed(path, i))
    }

    /** The candidate is skipped: its key is taken or the file is there. */
    ghost predicate Occupied(owner: map<Key, Gid>, stat: Path -> Stat, candidate: Path)
    {
      && keyOf(candidate).Some?
      && (keyOf(candidate).value in owner || stat(candidate) == Exists)
    }

    /**
     Reserve a batch as one operation, adding to the gid's set or replacing it.
     Accepted exactly when every path has a key, the keys are distinct and none
     belongs to another gid; a rejected batch leaves the table unchanged, and the
     first path without a key or with the key of an earlier one is what is reported.
     */
    method UpdateOutputPathReservations(paths: seq<Path>, gid: Gid, replace: bool)
      returns (r: Outcome<()>)
      requires Valid()
      modifies this
      ensures Valid()
      ensures r.Failed? ==>
                pathReservations == old(pathReservations) && reservedPathsByGid == old(reservedPathsByGid)
      ensures r.Done? <==> (forall i :: 0 <= i < |paths| ==> keyOf(paths[i]).Some?)
                           && Reservable(old(pathReservations), KeysOf(paths), gid)
      ensures r.Done? ==> Update(old(pathReservations), KeysOf(paths), gid, replace) == Some(pathReservations)
      ensures r == Failed(InUse) <==> (forall i :: 0 <= i < |paths| ==> Fits(paths, i))
                                      && !Reservable(old(pathReservations), KeysOf(paths), gid)
      ensures forall i :: 0 <= i < |paths| && FirstUnfit(paths, i) ==>
                          r == Failed(if keyOf(paths[i]).None? then BadPath else SharedPath)
    {
      var resolved := ResolveKeys(paths);
      if resolved.Failed? {
        return Failed(resolved.reason);
      }
      var ok := UpdateKeys(resolved.value, gid, replace);
      r := if ok then Done(()) else Failed(InUse);
    }

    /** The update proper, on keys already known to be distinct. */
    method UpdateKeys(keys: seq<Key>, gid: Gid, replace: bool) returns (ok: bool)
      requires Valid() && NoDuplicates(keys)
      modifies this
      ensures Valid()
      ensures ok <==> Reservable(old(pathReservations), keys, gid)
      ensures ok ==> Update(old(pathReservations), keys, gid, replace) == Some(pathReservations)
      ensures !ok ==> pathReservations == old(pathReservations) && reservedPathsByGid == old(reservedPathsByGid)
    {
      ok := AllFree(keys, gid);
      if ok {
        ghost var start := pathReservations;
        if replace && gid in reservedPathsByGid {
          DropStale(gid, set k | k in keys);
        }
        assert !replace ==> pathReservations == start;
        assert replace ==> pathReservations == Retained(start, gid, set k | k in keys);
        GrantAll(keys, gid);
        RetainThenGrant(start, keys, gid);
      }
    }

    method AllFree(keys: seq<Key>, gid: Gid) returns (ok: bool)
      requires NoDuplicates(keys)
      ensures ok <==> Reservable(pathReservations, keys, gid)
    {
      for i := 0 to |keys|
        invariant forall j :: 0 <= j < i ==> keys[j] in pathReservations ==> pathReservations[keys[j]] == gid
      {
        if keys[i] in pathReservations && pathReservations[keys[i]] != gid {
          return false;
        }
      }
      return true;
    }

    /** The insertions of a batch update. */
    method GrantAll(keys: seq<Key>, gid: Gid)
      requires Valid() && Reservable(pathReservations, keys, gid)
      modifies this
      ensures Valid() && pathReservations == Grant(old(pathReservations), keys, gid)
    {
      for i := 0 to |keys|
        invariant Valid()
        invariant pathReservations == Grant(old(pathReservations), keys[..i], gid)
      {
        Record(keys[i], gid);
        GrantOne(old(pathReservations), keys[..i], keys[i], gid);
        assert keys[..i + 1] == keys[..i] + [keys[i]];
      }
      assert keys[..|keys|] == keys;
    }

    /** The path has a key that no earlier path of the batch has. */
    ghost predicate Fits(paths: seq<Path>, i: nat)
      requires i < |paths|
    {
      keyOf(paths[i]).Some? && forall j :: 0 <= j < i ==> keyOf(paths[j]) != keyOf(paths[i])
    }

    ghost predicate FirstUnfit(paths: seq<Path>, i: nat)
      requires i < |paths|
    {
      !Fits(paths, i) && forall j :: 0 <= j < i ==> Fits(paths, j)
    }

    /** The keys of a batch, if every path has one and they are distinct. */
    method ResolveKeys(paths: seq<Path>) returns (r: Outcome<seq<Key>>)
      ensures r.Done? <==> (forall i :: 0 <= i < |paths| ==> keyOf(paths[i]).Some?) && NoDuplicates(KeysOf(paths))
      ensures r.Done? ==> r.value == KeysOf(paths)
      ensures r.Done? <==> forall i :: 0 <= i < |paths| ==> Fits(paths, i)
      ensures r == Failed(BadPath) || r == Failed(SharedPath) || r.Done?
      ensures forall i :: 0 <= i < |paths| && FirstUnfit(paths, i) ==>
                          r == Failed(if keyOf(paths[i]).None? then BadPath else SharedPath)
    {
      var keys, seen := [], {};
      for i := 0 to |paths|
        invariant |keys| == i
        invariant forall j :: 0 <= j < i ==> keyOf(paths[j]).Some? && keys[j] == KeysOf(paths)[j]
        invariant NoDuplicates(keys)
        invariant forall j :: 0 <= j < i ==> Fits(paths, j)
        invariant forall k :: k in seen <==> k in keys
      {
        var key := keyOf(paths[i]);
        if key.None? {
          assert !Fits(paths, i);
          return Failed(BadPath);
        }
        if key.value in seen {
          var j :| 0 <= j < i && keys[j] == key.value;
          assert KeysOf(paths)[j] == KeysOf(paths)[i];
          assert keyOf(paths[j]) == keyOf(paths[i]) && !Fits(paths, i);
          return Failed(SharedPath);
        }
        DuplicateFreeAppend(keys, key.value);
        seen := seen + {key.value};
        keys := keys + [key.value];
      }
      assert keys == KeysOf(paths);
      return Done(keys);
    }

    /** The keys of a batch; a path without a key stands for the empty key. */
    ghost function KeysOf(paths: seq<Path>): (r: seq<Key>)
      ensures |r| == |paths|
    {
      seq(|paths|, i requires 0 <= i < |paths| => if keyOf(paths[i]).Some? then keyOf(paths[i]).value else "")
    }

    ghost static function Retained(owner: map<Key, Gid>, gid: Gid, keep: set<Key>): map<Key, Gid>
    {
      map k | k in owner && (owner[k] == gid ==> k in keep) :: owner[k]
    }

    static lemma GrantOne(owner: map<Key, Gid>, keys: seq<Key>, key: Key, gid: Gid)
      ensures Grant(owner, keys + [key], gid) == Grant(owner, keys, gid)[key := gid]
    {
    }

    static lemma RetainThenGrant(owner: map<Key, Gid>, keys: seq<Key>, gid: Gid)
      ensures Grant(Retained(owner, gid, set k | k in keys), keys, gid) == Grant(Release(owner, gid), keys, gid)
    {
    }

    /** The deletions of a replacing update: the gid's keys outside `keep` go. */
    method DropStale(gid: Gid, keep: set<Key>)
      requires Valid() && gid in reservedPathsByGid
      modifies this
      ensures Valid()
      ensures pathReservations == Retained(old(pathReservations), gid, keep)
    {
      var todo := reservedPathsByGid[gid];
      while todo != {}
        invariant Valid() && gid in reservedPathsByGid
        invariant todo <= old(reservedPathsByGid[gid])
        invariant forall k :: k in pathReservations <==>
                    k in old(pathReservations) && (old(pathReservations[k]) == gid ==> k in keep || k in todo)
        invariant forall k :: k in pathReservations ==> pathReservations[k] == old(pathReservations[k])
        decreases todo
      {
        var existing :| existing in todo;
        todo := todo - {existing};
        if existing !in keep {
          pathReservations := pathReservations - {existing};
          reservedPathsByGid := reservedPathsByGid[gid := reservedPathsByGid[gid] - {existing}];
        }
      }
    }

    /**
     Drop everything the gid holds. The loop tests the owner of each key before
     deleting it; that test never fails, so what disappears is exactly the gid's
     own set and nothing else moves.
     */
    method ReleaseOutputPaths(gid: Gid)
      requires Valid()
      modifies this
      ensures Valid()
      ensures pathReservations == Release(old(pathReservations), gid)
      ensures gid in old(reservedPathsByGid) ==>
                pathReservations == old(pathReservations) - old(reservedPathsByGid[gid])
    {
      if gid in reservedPathsByGid {
        var todo := reservedPathsByGid[gid];
        ghost var all, owner, byGid := todo, pathReservations, reservedPathsByGid;
        assert Inverse(owner, byGid) && forall k :: k in all ==> k in owner && owner[k] == gid;
        while todo != {}
          invariant todo <= all
          invariant reservedPathsByGid == byGid
          invariant pathReservations == owner - (all - todo)
          decreases todo
        {
          var path :| path in todo;
          todo := todo - {path};
          if path in pathReservations && pathReservations[path] == gid {
            pathReservations := pathReservations - {path};
          } else {
            assert false;
          }
        }
        reservedPathsByGid := reservedPathsByGid - {gid};
      }
    }
  }
}
