/**
 Option maps with a base layer, and how they survive a session: the file holds one
 flat map and the set of explicit keys, and loading splits it into layers again.
 */
module OptionLayers {
  import opened Collections
  import opened Strings
  import opened Session
  import opened SessionRoundTrip

  const BASE_KEY := "\U{0}goaria.base-options"
  const FINALIZED_KEY := "goaria-internal-torrent-finalized-files"
  const EXPLICIT_KEY := "goaria-internal-explicit-options"
  const MAX_LAYER_KEYS: int := 128
  const MAX_EFFECTIVE_KEYS: int := 128 * 2 + 2

  /** Keys that carry structure and never count as options. */
  function Internal(): set<string>
  {
    {BASE_KEY, FINALIZED_KEY, EXPLICIT_KEY}
  }

  /** Options of its own over those of a base, to any depth. */
  datatype Layers = Layers(own: Options, base: Option<Layers>)

  // ----- looking up -----

  function OptionValue(o: Layers, key: string): Option<Value>
  {
    if key in o.own then Some(o.own[key])
    else if o.base.Some? then OptionValue(o.base.value, key)
    else None
  }

  predicate OptionExplicit(o: Layers, key: string)
  {
    key in o.own
  }

  /** All layers flattened, nearer ones first, without the internal keys. */
  ghost function Effective(o: Layers): Options
  {
    (if o.base.Some? then Effective(o.base.value) else map[]) + (o.own - Internal())
  }

  function Lookup(m: Options, key: string): Option<Value>
  {
    if key in m then Some(m[key]) else None
  }

  /** The flat map answers every lookup the layers answer. */
  lemma {:induction false} EffectiveLooksUp(o: Layers, key: string)
    ensures Lookup(Effective(o), key) == if key in Internal() then None else OptionValue(o, key)
  {
    if o.base.Some? {
      EffectiveLooksUp(o.base.value, key);
    }
  }

  // ----- building layers -----

  /** Copy the options of `from` that are not internal over `into`. */
  method Overlay(into: Options, from: Options) returns (out: Options)
    ensures out == into + (from - Internal())
  {
    out := into;
    var todo := from.Keys;
    while todo != {}
      invariant todo <= from.Keys
      invariant out == into + (from - Internal() - todo)
      decreases todo
    {
      var key :| key in todo;
      todo := todo - {key};
      if key !in Internal() {
        out := out[key := from[key]];
      }
    }
    assert from - Internal() - {} == from - Internal();
  }

  method LayerOptions(base: Layers, overlay: Options) returns (o: Layers)
    ensures o == Layers(overlay - Internal(), Some(base))
  {
    var own := Overlay(map[], overlay);
    assert own == overlay - Internal();
    o := Layers(own, Some(base));
  }

  method MergeOptions(base: Layers, overlay: Options) returns (o: Layers)
    ensures o == base.(own := base.own + (overlay - Internal()))
    ensures forall key :: key !in Internal() ==>
      OptionValue(o, key) == if key in overlay then Some(overlay[key]) else OptionValue(base, key)
  {
    var own := Overlay(base.own, overlay);
    o := base.(own := own);
  }

  method OptionsForRpc(o: Layers) returns (out: Options)
    ensures out == Effective(o)
    decreases o
  {
    out := map[];
    if o.base.Some? {
      out := OptionsForRpc(o.base.value);
    }
    out := Overlay(out, o.own);
  }

  // ----- saving and restoring -----

  /** What is saved of a download's options: the flat map and the explicit keys. */
  datatype Saved = Saved(options: Options, explicit: set<string>)

  function Flag(b: bool): Value
  {
    Text(if b then "true" else "false")
  }

  ghost function Save(o: Layers, gid: string, paused: bool): Saved
  {
    Saved((Effective(o) - {"save-session"})["gid" := Text(gid)]["pause" := Flag(paused)],
          o.own.Keys - Internal() - {"gid", "pause"})
  }

  method Snapshot(o: Layers, gid: string, paused: bool) returns (s: Saved)
    ensures s == Save(o, gid, paused)
  {
    var options := OptionsForRpc(o);
    options := options["gid" := Text(gid)];
    options := options - {"save-session"};
    options := options["pause" := Flag(paused)];
    var explicit: set<string>, todo := {}, o.own.Keys;
    while todo != {}
      invariant todo <= o.own.Keys && explicit == o.own.Keys - todo - Internal() - {"gid", "pause"}
      decreases todo
    {
      var key :| key in todo;
      todo := todo - {key};
      if key !in Internal() && key != "gid" && key != "pause" {
        explicit := explicit + {key};
      }
    }
    assert options == Save(o, gid, paused).options;
    s := Saved(options, explicit);
  }

  ghost predicate IsOverlay(s: Saved, key: string)
  {
    key == "gid" || key == "pause" || key in s.explicit
  }

  ghost function Restored(s: Saved): Layers
  {
    Layers((map key | key in s.options && IsOverlay(s, key) :: s.options[key]) - Internal(),
           Some(Layers(map key | key in s.options && !IsOverlay(s, key) :: s.options[key], None)))
  }

  method RestoreLayers(s: Saved) returns (o: Layers)
    ensures o == Restored(s)
  {
    var base: Options, overlay: Options, todo := map[], map[], s.options.Keys;
    while todo != {}
      invariant todo <= s.options.Keys
      invariant overlay == map key | key in s.options && key !in todo && IsOverlay(s, key) :: s.options[key]
      invariant base == map key | key in s.options && key !in todo && !IsOverlay(s, key) :: s.options[key]
      decreases todo
    {
      var key :| key in todo;
      todo := todo - {key};
      if key == "gid" || key == "pause" || key in s.explicit {
        overlay := overlay[key := s.options[key]];
      } else {
        base := base[key := s.options[key]];
      }
    }
    assert overlay == map key | key in s.options && IsOverlay(s, key) :: s.options[key];
    assert base == map key | key in s.options && !IsOverlay(s, key) :: s.options[key];
    o := LayerOptions(Layers(base, None), overlay);
  }

  /** The keys a session sets itself or leaves out. */
  function Rewritten(): set<string>
  {
    {"gid", "pause", "save-session"}
  }

  /** Saving and restoring keeps every other key's value and whether it was explicit. */
  lemma SaveRestoreKeeps(o: Layers, gid: string, paused: bool, key: string)
    requires key !in Rewritten() && key !in Internal()
    ensures OptionValue(Restored(Save(o, gid, paused)), key) == OptionValue(o, key)
    ensures OptionExplicit(Restored(Save(o, gid, paused)), key) <==> OptionExplicit(o, key)
  {
    EffectiveLooksUp(o, key);
    var s := Save(o, gid, paused);
    assert Lookup(s.options, key) == Lookup(Effective(o), key);
    RestoredLooksUp(s, key);
    assert key in o.own ==> key in Effective(o);
  }

  lemma RestoredLooksUp(s: Saved, key: string)
    requires key !in Internal()
    ensures OptionValue(Restored(s), key) == Lookup(s.options, key)
    ensures OptionExplicit(Restored(s), key) <==> key in s.options && IsOverlay(s, key)
  {
  }

  /** The restored options say what the session says about gid and pause, and nothing about save-session. */
  lemma SaveRestoreSets(o: Layers, gid: string, paused: bool)
    ensures OptionValue(Restored(Save(o, gid, paused)), "gid") == Some(Text(gid))
    ensures OptionValue(Restored(Save(o, gid, paused)), "pause") == Some(Text(if paused then "true" else "false"))
    ensures OptionValue(Restored(Save(o, gid, paused)), "save-session") == None
  {
    var s := Save(o, gid, paused);
    RestoredLooksUp(s, "gid");
    RestoredLooksUp(s, "pause");
    RestoredLooksUp(s, "save-session");
  }

  lemma RestoredEffective(s: Saved)
    requires s.options.Keys !! Internal()
    ensures Effective(Restored(s)) == s.options
  {
    var r := Restored(s);
    assert Effective(r.base.value) == r.base.value.own;
    assert Effective(r) == s.options;
  }

  lemma SavedHasNoInternal(o: Layers, gid: string, paused: bool)
    ensures Save(o, gid, paused).options.Keys !! Internal()
  {
    forall key | key in Internal()
      ensures key !in Save(o, gid, paused).options
    {
      EffectiveLooksUp(o, key);
    }
  }

  /** Saving again writes the same options; the explicit keys lose save-session, which was not written. */
  lemma SaveAgain(o: Layers, gid: string, paused: bool)
    ensures var again := Save(Restored(Save(o, gid, paused)), gid, paused);
            && again.options == Save(o, gid, paused).options
            && again.explicit == Save(o, gid, paused).explicit - {"save-session"}
  {
    var s := Save(o, gid, paused);
    SavedHasNoInternal(o, gid, paused);
    RestoredEffective(s);
    assert Save(Restored(s), gid, paused).options == s.options;
    forall key | key in s.explicit && key != "save-session"
      ensures key in s.options
    {
      assert key in Effective(o);
    }
    assert Restored(s).own.Keys - Internal() - {"gid", "pause"} == s.explicit - {"save-session"};
  }

  /** So a session saved again is the same entry exactly when save-session was not an explicit option. */
  lemma SaveAgainIff(o: Layers, gid: string, paused: bool)
    ensures Save(Restored(Save(o, gid, paused)), gid, paused) == Save(o, gid, paused) <==> "save-session" !in o.own
  {
    SaveAgain(o, gid, paused);
  }

  /** Options with an explicit save-session: the second save names fewer explicit keys than the first. */
  lemma SecondSaveDiffers(o: Layers, gid: string, paused: bool)
    requires o == Layers(map["save-session" := Text("f")], None)
    ensures "save-session" in Save(o, gid, paused).explicit
    ensures "save-session" !in Save(Restored(Save(o, gid, paused)), gid, paused).explicit
  {
    SaveAgain(o, gid, paused);
  }

  // ----- limits -----

  /** The keys of a layer that its size limit counts. */
  ghost function CountedKeys(m: Options): set<string>
  {
    m.Keys - Internal() - {"gid", "pause"}
  }

  ghost predicate LayersSmall(o: Layers)
  {
    |CountedKeys(o.own)| <= MAX_LAYER_KEYS && (o.base.Some? ==> |CountedKeys(o.base.value.own)| <= MAX_LAYER_KEYS)
  }

  method ValidateOptionLayerSize(m: Options) returns (ok: bool)
    ensures ok <==> |CountedKeys(m)| <= MAX_LAYER_KEYS
  {
    var count, todo := 0, m.Keys;
    ghost var counted: set<string> := {};
    while todo != {}
      invariant todo <= m.Keys && counted == CountedKeys(m) - todo && count == |counted|
      decreases todo
    {
      var key :| key in todo;
      todo := todo - {key};
      if key !in Internal() && key != "gid" && key != "pause" {
        counted := counted + {key};
        count := count + 1;
      }
    }
    assert counted == CountedKeys(m);
    ok := count <= MAX_LAYER_KEYS;
  }

  ghost predicate TwoLayers(o: Layers)
  {
    o.base.Some? ==> o.base.value.base.None?
  }

  ghost function BaseKeys(o: Layers): set<string>
  {
    if o.base.Some? then CountedKeys(o.base.value.own) else {}
  }

  lemma SavedKey(o: Layers, gid: string, paused: bool, key: string)
    requires TwoLayers(o) && key in Save(o, gid, paused).options && key != "gid" && key != "pause"
    ensures key in CountedKeys(o.own) || key in BaseKeys(o)
  {
    EffectiveLooksUp(o, key);
    assert key in Effective(o) && key !in Internal();
  }

  lemma UnionSize(a: set<string>, b: set<string>, c: set<string>)
    ensures |a + b + c| <= |a| + |b| + |c|
  {
  }

  /** Two layers within their limit save to few enough keys for the loader and the file. */
  lemma SavedFits(o: Layers, gid: string, paused: bool)
    requires LayersSmall(o) && TwoLayers(o)
    ensures |Save(o, gid, paused).options| <= MAX_EFFECTIVE_KEYS
    ensures |Save(o, gid, paused).options| + 2 <= MAX_OPTION_KEYS
    ensures |Save(o, gid, paused).explicit| <= MAX_LAYER_KEYS
  {
    var s := Save(o, gid, paused);
    var a, b, c := CountedKeys(o.own), BaseKeys(o), {"gid", "pause"};
    forall key | key in s.options.Keys
      ensures key in a + b + c
    {
      if key != "gid" && key != "pause" {
        SavedKey(o, gid, paused, key);
      }
    }
    SubsetSize(s.options.Keys, a + b + c);
    UnionSize(a, b, c);
    assert |s.options| == |s.options.Keys|;
  }

  /** And what is restored from them is within the limit again. */
  lemma RestoredFits(o: Layers, gid: string, paused: bool)
    requires LayersSmall(o) && TwoLayers(o)
    ensures LayersSmall(Restored(Save(o, gid, paused)))
  {
    var s := Save(o, gid, paused);
    var r := Restored(s);
    forall key | key in CountedKeys(r.own)
      ensures key in CountedKeys(o.own)
    {
      RestoredLooksUp(s, key);
    }
    forall key | key in CountedKeys(r.base.value.own)
      ensures key in BaseKeys(o)
    {
      SavedKey(o, gid, paused, key);
    }
    SubsetSize(CountedKeys(r.own), CountedKeys(o.own));
    SubsetSize(CountedKeys(r.base.value.own), BaseKeys(o));
  }

  // ----- through the file -----

  type Encode = set<string> -> string
  type Decode = string -> Option<set<string>>

  /** The options a snapshot writes; `finalized` is the text of the finalized torrent files, if there are any. */
  ghost function EntryOptions(o: Layers, gid: string, paused: bool, encode: Encode, finalized: Option<string>): Options
  {
    var s := Save(o, gid, paused);
    var options := s.options[EXPLICIT_KEY := Text(encode(s.explicit))];
    if finalized.Some? then options[FINALIZED_KEY := Text(finalized.value)] else options
  }

  function OptionText(v: Value): string
  {
    match v case Text(text) => text case List(items) => if items == [] then "" else JoinLines(items)
  }

  function JoinLines(items: seq<string>): string
    requires items != []
  {
    if |items| == 1 then items[0] else items[0] + "\n" + JoinLines(items[1..])
  }

  predicate ExplicitAccepted(explicit: set<string>)
  {
    |explicit| <= MAX_LAYER_KEYS && forall key :: key in explicit ==> KeyAccepted(key) && key !in Internal()
  }

  predicate OptionsAccepted(options: Options, limit: int)
  {
    |options| <= limit && forall key :: key in options ==> KeyAccepted(key) && key !in Internal()
  }

  /** What loading makes of an item's options: an error, layers over the global options, or the saved layers. */
  ghost function Load(options: Options, global: Layers, decode: Decode): Option<Layers>
  {
    var rest := options - {FINALIZED_KEY, EXPLICIT_KEY};
    if EXPLICIT_KEY !in options then
      if OptionsAccepted(rest, MAX_LAYER_KEYS) then Some(Layers(rest - Internal(), Some(global))) else None
    else
      var explicit := decode(OptionText(options[EXPLICIT_KEY]));
      if explicit.None? || !ExplicitAccepted(explicit.value) || !OptionsAccepted(rest, MAX_EFFECTIVE_KEYS) then None
      else
        var restored := Restored(Saved(rest, explicit.value));
        if LayersSmall(restored) then Some(restored) else None
  }

  /** Every key of a saved map other than save-session is among the keys of the entry, and so an accepted one. */
  lemma ExplicitIsAccepted(o: Layers, gid: string, paused: bool)
    requires LayersSmall(o) && forall key :: key in Save(o, gid, paused).options ==> KeyAccepted(key)
    ensures ExplicitAccepted(Save(o, gid, paused).explicit)
  {
    var s := Save(o, gid, paused);
    forall key | key in s.explicit
      ensures KeyAccepted(key) && key !in Internal()
    {
      if key == "save-session" {
        SaveSessionAccepted();
      } else {
        assert key in Effective(o) && key in s.options;
      }
    }
  }

  lemma PlainKeyAccepted(key: string)
    requires 0 < |key| <= 64 && forall c :: c in key ==> c == '-' || 'a' <= c <= 'z'
    ensures KeyAccepted(key)
  {
    SmallSize(key);
    assert forall i :: 0 <= i < |key| ==> key[i] in key;
  }

  lemma SaveSessionAccepted()
    ensures KeyAccepted("save-session")
  {
    var key := "save-session";
    assert key == ['s', 'a', 'v', 'e', '-', 's', 'e', 's', 's', 'i', 'o', 'n'];
    PlainKeyAccepted(key);
  }

  lemma {:induction false} LoadsSaved(o: Layers, gid: string, paused: bool, encode: Encode, decode: Decode,
                                      finalized: Option<string>, global: Layers)
    requires LayersSmall(o) && TwoLayers(o)
    requires decode(encode(Save(o, gid, paused).explicit)) == Some(Save(o, gid, paused).explicit)
    requires forall key :: key in Save(o, gid, paused).options ==> KeyAccepted(key)
    ensures Load(EntryOptions(o, gid, paused, encode, finalized), global, decode) == Some(Restored(Save(o, gid, paused)))
  {
    var s := Save(o, gid, paused);
    RestIsSaved(o, gid, paused, encode, finalized);
    ExplicitIsAccepted(o, gid, paused);
    SavedIsAccepted(o, gid, paused);
    RestoredFits(o, gid, paused);
    LoadIs(EntryOptions(o, gid, paused, encode, finalized), global, decode, s);
  }

  lemma {:induction false} LoadIs(options: Options, global: Layers, decode: Decode, s: Saved)
    requires options - {FINALIZED_KEY, EXPLICIT_KEY} == s.options && EXPLICIT_KEY in options
    requires decode(OptionText(options[EXPLICIT_KEY])) == Some(s.explicit) && ExplicitAccepted(s.explicit)
    requires OptionsAccepted(s.options, MAX_EFFECTIVE_KEYS) && LayersSmall(Restored(s))
    ensures Load(options, global, decode) == Some(Restored(s))
  {
    assert Saved(s.options, s.explicit) == s;
  }

  lemma {:induction false} RestIsSaved(o: Layers, gid: string, paused: bool, encode: Encode, finalized: Option<string>)
    ensures var options := EntryOptions(o, gid, paused, encode, finalized);
            && options - {FINALIZED_KEY, EXPLICIT_KEY} == Save(o, gid, paused).options
            && EXPLICIT_KEY in options && options[EXPLICIT_KEY] == Text(encode(Save(o, gid, paused).explicit))
  {
    SavedHasNoInternal(o, gid, paused);
    assert FINALIZED_KEY[16] != EXPLICIT_KEY[16];
  }

  lemma SavedIsAccepted(o: Layers, gid: string, paused: bool)
    requires LayersSmall(o) && TwoLayers(o) && forall key :: key in Save(o, gid, paused).options ==> KeyAccepted(key)
    ensures OptionsAccepted(Save(o, gid, paused).options, MAX_EFFECTIVE_KEYS)
  {
    SavedHasNoInternal(o, gid, paused);
    SavedFits(o, gid, paused);
  }

  /**
   The whole way round: the options of any download of a session that is saved,
   written, parsed and loaded have the same values and the same explicit keys,
   and no limit on the way refuses them. The encoding of the explicit keys is
   any that decodes what it encoded.
   */
  lemma {:induction false} ThroughTheFile(
      o: Layers, gid: string, paused: bool, encode: Encode, decode: Decode, finalized: Option<string>,
      entries: seq<Entry>, orders: seq<seq<string>>, i: nat, global: Layers, key: string)
    requires Ordered(entries, orders) && Written(entries, orders).Some? && AllFit(entries)
    requires i < |entries| && entries[i].uris != [] && entries[i].options == EntryOptions(o, gid, paused, encode, finalized)
    requires forall k :: k in entries[i].options ==> k != "" && Plain(k, entries[i].options[k])
    requires LayersSmall(o) && TwoLayers(o)
    requires decode(encode(Save(o, gid, paused).explicit)) == Some(Save(o, gid, paused).explicit)
    requires key !in Rewritten() && key !in Internal()
    ensures var items, j := Parse(Written(entries, orders).value), |Serializable(entries[..i])|;
            && items.Some? && j < |items.value| && items.value[j].uris == entries[i].uris
            && var loaded := Load(items.value[j].options, global, decode);
               && loaded.Some? && LayersSmall(loaded.value)
               && OptionValue(loaded.value, key) == OptionValue(o, key)
               && (OptionExplicit(loaded.value, key) <==> OptionExplicit(o, key))
  {
    var e := entries[i];
    ReadsBack(entries, orders);
    SerializableAt(entries, i);
    UnchangedIff(e);
    SavedKeysAccepted(o, gid, paused, encode, finalized, e);
    LoadsSaved(o, gid, paused, encode, decode, finalized, global);
    RestoredFits(o, gid, paused);
    SaveRestoreKeeps(o, gid, paused, key);
  }

  lemma {:induction false} SavedKeysAccepted(o: Layers, gid: string, paused: bool, encode: Encode, finalized: Option<string>, e: Entry)
    requires EntryAccepted(e) && e.options == EntryOptions(o, gid, paused, encode, finalized)
    ensures forall key :: key in Save(o, gid, paused).options ==> KeyAccepted(key)
  {
    assert forall key :: key in Save(o, gid, paused).options ==> key in e.options;
  }
}
