/** What the parser reads back of a session the writer accepted. */
module SessionRoundTrip {
  import opened Collections
  import opened Strings
  import opened Session

  // ----- what comes back -----

  /** A list of one item comes back as a text, and an empty one not at all. */
  function ReadValue(v: Value): Option<Value>
  {
    var items := Items(v);
    if items == [] then None else if |items| == 1 then Some(Text(items[0])) else Some(List(items))
  }

  /** A key that looks like a comment does not come back. */
  predicate Comes(key: string, v: Value)
  {
    key != "" && key[0] != '#' && ReadValue(v).Some?
  }

  function ReadOptions(options: Options, keys: set<string>): Options
  {
    map key | key in keys && key in options && Comes(key, options[key]) :: ReadValue(options[key]).value
  }

  function ReadBack(e: Entry): Item
  {
    Item(e.uris, ReadOptions(e.options, e.options.Keys))
  }

  function AllReadBack(entries: seq<Entry>): (items: seq<Item>)
    ensures |items| == |entries| && forall i :: 0 <= i < |entries| ==> items[i] == ReadBack(entries[i])
  {
    seq(|entries|, i requires 0 <= i < |entries| => ReadBack(entries[i]))
  }

  /** Not taken for a comment, and not a list that is too short to be read as one. */
  predicate Plain(key: string, v: Value)
    requires key != ""
  {
    key[0] != '#' && (v.List? ==> |v.items| >= 2)
  }

  /** The options come back unchanged exactly when no key looks like a comment and every list has two items or more. */
  lemma UnchangedIff(e: Entry)
    requires "" !in e.options
    ensures ReadBack(e) == Item(e.uris, e.options) <==> forall key :: key in e.options ==> Plain(key, e.options[key])
  {
    var back := ReadOptions(e.options, e.options.Keys);
    if forall key :: key in e.options ==> Plain(key, e.options[key]) {
      assert back == e.options;
    } else {
      var key :| key in e.options && !Plain(key, e.options[key]);
      assert key !in back || back[key] != e.options[key];
    }
  }

  // ----- feeding lines -----

  lemma {:induction false} FeedConcat(f: Feeder, r: Reader, a: seq<string>, b: seq<string>)
    ensures FeedAll(f, r, a + b) == if FeedAll(f, r, a).None? then None else FeedAll(f, FeedAll(f, r, a).value, b)
    decreases |a|
  {
    if a == [] {
      assert a + b == b;
    } else {
      assert (a + b)[0] == a[0] && (a + b)[1..] == a[1..] + b;
      var next := f(r, a[0]);
      if next.Some? {
        FeedConcat(f, next.value, a[1..], b);
      }
    }
  }

  lemma {:induction false} Chain(f: Feeder, r: Reader, a: seq<string>, s: Reader, b: seq<string>)
    requires FeedAll(f, r, a) == Some(s)
    ensures FeedAll(f, r, a + b) == FeedAll(f, s, b)
  {
    FeedConcat(f, r, a, b);
  }

  lemma {:induction false} FeedOne(f: Feeder, r: Reader, line: string)
    ensures FeedAll(f, r, [line]) == f(r, line)
  {
    var next := f(r, line);
    if next.Some? {
      assert [line][1..] == [];
      assert FeedAll(f, next.value, []) == next;
    }
  }

  /** The bytes of the lines with their line feeds. */
  ghost function Weight(lines: seq<string>): nat
  {
    if lines == [] then 0 else Size(lines[0]) + 1 + Weight(lines[1..])
  }

  lemma {:induction false} WeightIsSize(lines: seq<string>)
    ensures Size(Unlines(lines)) == Weight(lines)
  {
    if lines != [] {
      WeightIsSize(lines[1..]);
      SizeConcat(lines[0] + "\n", Unlines(lines[1..]));
      SizeConcat(lines[0], "\n");
      SizeOne("\n");
    }
  }

  lemma WeightOne(line: string, lines: seq<string>)
    ensures Weight([line] + lines) == Size(line) + 1 + Weight(lines)
  {
    assert ([line] + lines)[1..] == lines;
  }

  lemma SizeOne(s: string)
    requires |s| == 1 && s[0] < '\U{80}'
    ensures Size(s) == 1
  {
  }

  lemma {:induction false} WeightConcat(a: seq<string>, b: seq<string>)
    ensures Weight(a + b) == Weight(a) + Weight(b)
  {
    if a == [] {
      assert a + b == b;
    } else {
      assert (a + b)[1..] == a[1..] + b;
      WeightConcat(a[1..], b);
    }
  }

  // ----- option lines -----

  lemma OptionLineTrims(key: string, text: string)
    requires KeyAccepted(key) && TextAccepted(text)
    ensures var line := OptionLine(key, text);
            && line[0] == ' ' && DropReturn(line) == line && Trim(line) == key + "=" + text && OneLine(line)
  {
    var line, t := OptionLine(key, text), key + "=" + text;
    TrimIsIdentity(text);
    assert line == [' '] + ([' '] + t);
    assert line[1..] == [' '] + t && line[1..][1..] == t;
    assert t[0] == key[0] && !IsSpace(key[0]);
    assert TrimLeft([' '] + t) == t;
    assert t[|t| - 1] == if text == "" then '=' else text[|text| - 1];
    assert TrimRight(t) == t;
    assert line[|line| - 1] == t[|t| - 1];
  }

  lemma OptionLineSize(key: string, text: string)
    requires KeyAccepted(key) && TextAccepted(text)
    ensures Size(OptionLine(key, text)) == Size(key) + Size(text) + 3 < MaxLineSize()
  {
    SizeConcat("  " + key + "=", text);
    SizeConcat("  " + key, "=");
    SizeConcat("  ", key);
    assert "  "[1..] == " ";
    SizeOne(" ");
    SizeOne("=");
  }

  lemma KeyTrims(key: string)
    requires KeyAccepted(key)
    ensures Trim(key) == key
  {
    TrimIsIdentity(key);
    assert !IsSpace(key[0]) && !IsSpace(key[|key| - 1]);
  }

  lemma CutAtEquals(key: string, text: string)
    requires '=' !in key
    ensures var t := key + "=" + text;
            IndexOf(t, '=') == |key| && t[..|key|] == key && t[|key| + 1..] == text
  {
    var t := key + "=" + text;
    assert t[|key|] == '=';
    var i := IndexOf(t, '=');
    assert i == |key|;
  }

  ghost predicate OptionCase(r: Reader, key: string, text: string)
  {
    && KeyAccepted(key) && TextAccepted(text) && r.current.Some?
    && r.bytes + Size(OptionLine(key, text)) + 1 <= MAX_FILE_SIZE
  }

  ghost function OptionResult(r: Reader, key: string, text: string): Option<Reader>
    requires OptionCase(r, key, text)
  {
    var s := r.(bytes := r.bytes + Size(OptionLine(key, text)) + 1);
    var item := AddOption(r.current.value, key, text);
    if key[0] == '#' then Some(s) else if item.None? then None else Some(s.(current := item))
  }

  lemma OptionLineFeeds(r: Reader, key: string, text: string)
    requires OptionCase(r, key, text)
    ensures Feed(r, OptionLine(key, text)) == OptionResult(r, key, text)
  {
    var line := OptionLine(key, text);
    OptionLineTrims(key, text);
    OptionLineSize(key, text);
    KeyTrims(key);
    CutAtEquals(key, text);
    assert (key + "=" + text)[0] == key[0];
  }

  /** A rule for one line that treats accepted option lines and URI lines as the parser does. */
  ghost predicate ParserLike(f: Feeder)
  {
    && (forall r, key, text :: OptionCase(r, key, text) ==> f(r, OptionLine(key, text)) == OptionResult(r, key, text))
    && (forall r, e :: UriCase(r, e) ==> f(r, JoinTabs(e.uris)) == UriResult(r, e))
  }

  lemma FeedIsParserLike()
    ensures ParserLike(Feed)
  {
    forall r, key, text | OptionCase(r, key, text)
      ensures Feed(r, OptionLine(key, text)) == OptionResult(r, key, text)
    {
      OptionLineFeeds(r, key, text);
    }
    forall r, e | UriCase(r, e)
      ensures Feed(r, JoinTabs(e.uris)) == UriResult(r, e)
    {
      UriLineFeeds(r, e);
    }
  }

  /** What an option holds after the first of its lines. */
  function Gathered(base: Options, key: string, items: seq<string>): Options
  {
    if items == [] || key == "" || key[0] == '#' then base
    else base[key := if |items| == 1 then Text(items[0]) else List(items)]
  }

  lemma GatherOne(item: Item, base: Options, key: string, items: seq<string>, text: string)
    requires KeyAccepted(key) && key[0] != '#' && Size(text) <= MAX_VALUE_SIZE
    requires key !in base && |base| < MAX_OPTION_KEYS && |items| < MAX_OPTION_VALUES
    requires item.options == Gathered(base, key, items)
    ensures AddOption(item, key, text) == Some(item.(options := Gathered(base, key, items + [text])))
  {
    var next := Gathered(base, key, items + [text]);
    if |items| == 1 {
      assert items + [text] == [items[0], text];
      assert item.options[key := List([items[0], text])] == next;
    } else if |items| > 1 {
      assert item.options[key := List(items + [text])] == next;
    } else {
      assert items + [text] == [text];
    }
  }

  ghost predicate Reading(r: Reader, uris: seq<string>, options: Options)
  {
    r.current == Some(Item(uris, options))
  }

  /** The reader after more lines of the current item. */
  ghost function Later(r: Reader, uris: seq<string>, options: Options, lines: seq<string>): Reader
  {
    r.(current := Some(Item(uris, options)), bytes := r.bytes + Weight(lines))
  }

  lemma {:induction false} JoinLater(f: Feeder, r: Reader, a: seq<string>, s: Reader, b: seq<string>, uris: seq<string>, mid: Options, last: Options)
    requires s == Later(r, uris, mid, a) && FeedAll(f, r, a) == Some(s) && FeedAll(f, s, b) == Some(Later(s, uris, last, b))
    ensures FeedAll(f, r, a + b) == Some(Later(r, uris, last, a + b))
  {
    Chain(f, r, a, s, b);
    WeightConcat(a, b);
  }

  /** The lines of one option gather its items. */
  lemma {:induction false} ListFeeds(f: Feeder, r: Reader, uris: seq<string>, base: Options, key: string, items: seq<string>)
    requires ParserLike(f) && KeyAccepted(key) && |items| <= MAX_OPTION_VALUES
    requires forall i :: 0 <= i < |items| ==> TextAccepted(items[i])
    requires key !in base && |base| < MAX_OPTION_KEYS && Reading(r, uris, base)
    requires r.bytes + Weight(ListLines(key, items)) <= MAX_FILE_SIZE
    ensures FeedAll(f, r, ListLines(key, items)) == Some(Later(r, uris, Gathered(base, key, items), ListLines(key, items)))
    decreases |items|
  {
    if items == [] {
      assert ListLines(key, items) == [];
    } else {
      var front, text := items[..|items| - 1], items[|items| - 1];
      assert items == front + [text];
      var before, line := ListLines(key, front), OptionLine(key, text);
      assert ListLines(key, items) == before + [line];
      WeightConcat(before, [line]);
      WeightOne(line, []);
      assert [line] + [] == [line];
      ListFeeds(f, r, uris, base, key, front);
      var s := Later(r, uris, Gathered(base, key, front), before);
      LineFeeds(f, s, uris, base, key, front, text);
      JoinLater(f, r, before, s, [line], uris, Gathered(base, key, front), Gathered(base, key, items));
    }
  }

  lemma {:induction false} LineFeeds(f: Feeder, s: Reader, uris: seq<string>, base: Options, key: string, front: seq<string>, text: string)
    requires ParserLike(f) && KeyAccepted(key) && |front| < MAX_OPTION_VALUES && TextAccepted(text)
    requires key !in base && |base| < MAX_OPTION_KEYS && Reading(s, uris, Gathered(base, key, front))
    requires s.bytes + Weight([OptionLine(key, text)]) <= MAX_FILE_SIZE
    ensures FeedAll(f, s, [OptionLine(key, text)]) ==
            Some(Later(s, uris, Gathered(base, key, front + [text]), [OptionLine(key, text)]))
  {
    var line := OptionLine(key, text);
    WeightOne(line, []);
    assert [line] + [] == [line];
    FeedOne(f, s, line);
    assert OptionCase(s, key, text);
    if key[0] != '#' {
      GatherOne(s.current.value, base, key, front, text);
    }
  }

  ghost predicate AllAccepted(options: Options)
  {
    |options| <= MAX_OPTION_KEYS && forall key :: key in options ==> KeyAccepted(key) && ValueAccepted(options[key])
  }

  ghost predicate OneOptionCase(r: Reader, uris: seq<string>, options: Options, done: set<string>, key: string)
  {
    && AllAccepted(options) && key in options && key !in done && Reading(r, uris, ReadOptions(options, done))
    && r.bytes + Weight(ListLines(key, Items(options[key]))) <= MAX_FILE_SIZE
  }

  /** A rule that reads the lines of any one accepted option as the parser does. */
  ghost predicate ReadsOptions(f: Feeder)
  {
    forall r, uris, options, done, key :: OneOptionCase(r, uris, options, done, key) ==>
      FeedAll(f, r, ListLines(key, Items(options[key]))) ==
      Some(Later(r, uris, ReadOptions(options, done + {key}), ListLines(key, Items(options[key]))))
  }

  /** One more option: its lines turn what came of `done` into what comes of `done` and the key. */
  lemma {:induction false} OptionFeeds(f: Feeder, r: Reader, uris: seq<string>, options: Options, done: set<string>, key: string)
    requires ParserLike(f) && OneOptionCase(r, uris, options, done, key)
    ensures FeedAll(f, r, ListLines(key, Items(options[key]))) ==
            Some(Later(r, uris, ReadOptions(options, done + {key}), ListLines(key, Items(options[key]))))
  {
    var base, items := ReadOptions(options, done), Items(options[key]);
    ItemsAccepted(options, key);
    FewerKeys(base, options, key);
    ListFeeds(f, r, uris, base, key, items);
    GatheredIsRead(options, done, key);
  }

  lemma ItemsAccepted(options: Options, key: string)
    requires AllAccepted(options) && key in options
    ensures KeyAccepted(key) && |options| <= MAX_OPTION_KEYS && |Items(options[key])| <= MAX_OPTION_VALUES
    ensures forall i :: 0 <= i < |Items(options[key])| ==> TextAccepted(Items(options[key])[i])
  {
    assert ValueAccepted(options[key]);
  }

  lemma {:induction false} ParserReadsOptions(f: Feeder)
    requires ParserLike(f)
    ensures ReadsOptions(f)
  {
    forall r, uris, options, done, key | OneOptionCase(r, uris, options, done, key)
      ensures FeedAll(f, r, ListLines(key, Items(options[key]))) ==
              Some(Later(r, uris, ReadOptions(options, done + {key}), ListLines(key, Items(options[key]))))
    {
      OptionFeeds(f, r, uris, options, done, key);
    }
  }

  lemma FewerKeys(base: Options, options: Options, key: string)
    requires base.Keys <= options.Keys && key in options && key !in base
    ensures |base| < |options|
  {
    SubsetSize(base.Keys, options.Keys - {key});
    assert |options.Keys - {key}| == |options.Keys| - 1;
  }

  lemma {:induction false} SubsetSize(a: set<string>, b: set<string>)
    requires a <= b
    ensures |a| <= |b|
  {
    if a != {} {
      var x :| x in a;
      SubsetSize(a - {x}, b - {x});
    }
  }

  lemma GatheredIsRead(options: Options, done: set<string>, key: string)
    requires key in options && key !in done && key != ""
    ensures Gathered(ReadOptions(options, done), key, Items(options[key])) == ReadOptions(options, done + {key})
  {
  }

  lemma {:induction false} OptionsFeed(f: Feeder, r: Reader, uris: seq<string>, options: Options,
                                       done: set<string>, keys: seq<string>, all: set<string>)
    requires ReadsOptions(f) && AllAccepted(options) && all == done + Elements(keys)
    requires NoDuplicates(keys) && Elements(keys) <= options.Keys && done !! Elements(keys)
    requires Reading(r, uris, ReadOptions(options, done))
    requires r.bytes + Weight(OptionLines(options, keys)) <= MAX_FILE_SIZE
    ensures FeedAll(f, r, OptionLines(options, keys)) ==
            Some(Later(r, uris, ReadOptions(options, all), OptionLines(options, keys)))
    decreases |keys|
  {
    if keys == [] {
      assert all == done;
      NoOptions(f, r, uris, options, done);
    } else {
      KeysSplit(keys, done);
      var lines, rest := SplitLines(options, keys);
      var s := FirstOption(f, r, uris, options, done, keys[0]);
      OptionsFeed(f, s, uris, options, done + {keys[0]}, keys[1..], all);
      JoinLater(f, r, lines, s, rest, uris, ReadOptions(options, done + {keys[0]}), ReadOptions(options, all));
    }
  }

  lemma SplitLines(options: Options, keys: seq<string>) returns (lines: seq<string>, rest: seq<string>)
    requires keys != [] && Elements(keys) <= options.Keys && keys[0] in options && Elements(keys[1..]) <= options.Keys
    ensures lines == ListLines(keys[0], Items(options[keys[0]])) && rest == OptionLines(options, keys[1..])
    ensures OptionLines(options, keys) == lines + rest && Weight(OptionLines(options, keys)) == Weight(lines) + Weight(rest)
  {
    lines, rest := ListLines(keys[0], Items(options[keys[0]])), OptionLines(options, keys[1..]);
    WeightConcat(lines, rest);
  }

  lemma {:induction false} FirstOption(f: Feeder, r: Reader, uris: seq<string>, options: Options, done: set<string>, key: string) returns (s: Reader)
    requires ReadsOptions(f) && OneOptionCase(r, uris, options, done, key)
    ensures FeedAll(f, r, ListLines(key, Items(options[key]))) == Some(s)
    ensures s == Later(r, uris, ReadOptions(options, done + {key}), ListLines(key, Items(options[key])))
  {
    s := Later(r, uris, ReadOptions(options, done + {key}), ListLines(key, Items(options[key])));
  }

  lemma {:induction false} NoOptions(f: Feeder, r: Reader, uris: seq<string>, options: Options, done: set<string>)
    requires Reading(r, uris, ReadOptions(options, done))
    ensures FeedAll(f, r, []) == Some(Later(r, uris, ReadOptions(options, done), []))
  {
    assert Weight([]) == 0;
  }

  lemma KeysSplit(keys: seq<string>, done: set<string>)
    requires keys != [] && NoDuplicates(keys) && done !! Elements(keys)
    ensures keys[0] in Elements(keys) && keys[0] !in done
    ensures NoDuplicates(keys[1..]) && Elements(keys[1..]) <= Elements(keys) && done + {keys[0]} !! Elements(keys[1..])
    ensures done + {keys[0]} + Elements(keys[1..]) == done + Elements(keys)
  {
    assert keys == [keys[0]] + keys[1..];
    ElementsCons(keys[0], keys[1..]);
    assert keys[0] !in keys[1..];
  }

  // ----- entries -----

  /** The scanner takes the line of URIs. */
  predicate Fits(e: Entry)
  {
    e.uris != [] ==> Size(JoinTabs(e.uris)) < MaxLineSize()
  }

  ghost predicate UriCase(r: Reader, e: Entry)
  {
    && EntryAccepted(e) && e.uris != [] && |Keep(r)| < MAX_DOWNLOADS
    && r.bytes + Size(JoinTabs(e.uris)) + 1 <= MAX_FILE_SIZE
  }

  ghost function UriResult(r: Reader, e: Entry): Option<Reader>
    requires UriCase(r, e)
  {
    if Fits(e) then Some(Reader(Keep(r), Some(Item(e.uris, map[])), r.bytes + Size(JoinTabs(e.uris)) + 1)) else None
  }

  lemma UriLineShape(e: Entry)
    requires EntryAccepted(e) && e.uris != []
    ensures var line := JoinTabs(e.uris);
            && line != "" && line[0] != '#' && line[0] != ' ' && line[0] != '\t' && OneLine(line)
            && Trim(line) == line && Fields(line) == e.uris
  {
    forall i | 0 <= i < |e.uris|
      ensures Word(e.uris[i])
    {
      assert UriAccepted(e.uris, i);
    }
    JoinedEnds(e.uris);
    FieldsOfJoined(e.uris);
    TrimIsIdentity(JoinTabs(e.uris));
    assert UriAccepted(e.uris, 0);
  }

  lemma UriLineFeeds(r: Reader, e: Entry)
    requires UriCase(r, e)
    ensures Feed(r, JoinTabs(e.uris)) == UriResult(r, e)
  {
    UriLineShape(e);
  }

  ghost predicate EntryCase(r: Reader, e: Entry, keys: seq<string>)
  {
    && EntryAccepted(e) && e.uris != [] && Orders(keys, e.options) && |Keep(r)| < MAX_DOWNLOADS
    && r.bytes + Weight(EntryLines(e, keys)) <= MAX_FILE_SIZE
  }

  ghost function EntryResult(r: Reader, e: Entry, keys: seq<string>): Option<Reader>
    requires EntryCase(r, e, keys)
  {
    if Fits(e) then Some(Reader(Keep(r), Some(ReadBack(e)), r.bytes + Weight(EntryLines(e, keys)))) else None
  }

  /** A rule that reads any one accepted entry as the parser does. */
  ghost predicate ReadsEntries(f: Feeder)
  {
    forall r, e, keys :: EntryCase(r, e, keys) ==> FeedAll(f, r, EntryLines(e, keys)) == EntryResult(r, e, keys)
  }

  lemma {:induction false} EntryFeeds(f: Feeder, r: Reader, e: Entry, keys: seq<string>)
    requires ParserLike(f) && ReadsOptions(f) && EntryCase(r, e, keys)
    ensures FeedAll(f, r, EntryLines(e, keys)) == EntryResult(r, e, keys)
  {
    EntryIsUriCase(r, e, keys);
    UriFeeds(f, r, e);
    EntryTail(f, r, e, keys);
    EntryFeedsOn(f, r, e, keys);
  }

  lemma EntryIsUriCase(r: Reader, e: Entry, keys: seq<string>)
    requires EntryCase(r, e, keys)
    ensures UriCase(r, e)
    ensures Fits(e) ==> UriResult(r, e).value.bytes + Weight(OptionLines(e.options, keys)) == r.bytes + Weight(EntryLines(e, keys))
  {
    WeightOne(JoinTabs(e.uris), OptionLines(e.options, keys));
  }

  lemma {:induction false} UriFeeds(f: Feeder, r: Reader, e: Entry)
    requires ParserLike(f) && UriCase(r, e)
    ensures f(r, JoinTabs(e.uris)) == UriResult(r, e)
  {
  }

  lemma {:induction false} EntryTail(f: Feeder, r: Reader, e: Entry, keys: seq<string>)
    requires ReadsOptions(f) && EntryCase(r, e, keys) && UriCase(r, e)
    ensures Fits(e) ==>
      FeedAll(f, UriResult(r, e).value, OptionLines(e.options, keys))
      == Some(Later(UriResult(r, e).value, e.uris, ReadBack(e).options, OptionLines(e.options, keys)))
  {
    EntryIsUriCase(r, e, keys);
    if Fits(e) {
      EntryOptions(f, UriResult(r, e).value, e, keys);
    }
  }

  lemma {:induction false} EntryFeedsOn(f: Feeder, r: Reader, e: Entry, keys: seq<string>)
    requires EntryCase(r, e, keys) && UriCase(r, e) && f(r, JoinTabs(e.uris)) == UriResult(r, e)
    requires Fits(e) ==>
      FeedAll(f, UriResult(r, e).value, OptionLines(e.options, keys))
      == Some(Later(UriResult(r, e).value, e.uris, ReadBack(e).options, OptionLines(e.options, keys)))
    ensures FeedAll(f, r, EntryLines(e, keys)) == EntryResult(r, e, keys)
  {
    var line, rest := JoinTabs(e.uris), OptionLines(e.options, keys);
    if Fits(e) {
      LineThen(f, r, line, UriResult(r, e).value, rest, e.uris, ReadBack(e).options);
    } else {
      LineRefused(f, r, line, rest);
    }
  }

  lemma {:induction false} LineThen(f: Feeder, r: Reader, line: string, s: Reader, rest: seq<string>, uris: seq<string>, options: Options)
    requires f(r, line) == Some(s) && s.bytes == r.bytes + Size(line) + 1
    requires FeedAll(f, s, rest) == Some(Later(s, uris, options, rest))
    ensures FeedAll(f, r, [line] + rest) == Some(Reader(s.items, Some(Item(uris, options)), r.bytes + Weight([line] + rest)))
  {
    WeightOne(line, rest);
    FeedOne(f, r, line);
    Chain(f, r, [line], s, rest);
  }

  lemma {:induction false} LineRefused(f: Feeder, r: Reader, line: string, rest: seq<string>)
    requires f(r, line) == None
    ensures FeedAll(f, r, [line] + rest) == None
  {
    assert ([line] + rest)[0] == line;
  }

  lemma {:induction false} EntryOptions(f: Feeder, s: Reader, e: Entry, keys: seq<string>)
    requires ReadsOptions(f) && EntryAccepted(e) && Orders(keys, e.options) && Reading(s, e.uris, map[])
    requires s.bytes + Weight(OptionLines(e.options, keys)) <= MAX_FILE_SIZE
    ensures FeedAll(f, s, OptionLines(e.options, keys)) ==
            Some(Later(s, e.uris, ReadOptions(e.options, e.options.Keys), OptionLines(e.options, keys)))
  {
    assert ReadOptions(e.options, {}) == map[];
    OptionsFeed(f, s, e.uris, e.options, {}, keys, e.options.Keys);
  }

  // ----- whole files -----

  lemma ParserReadsEntries()
    ensures ReadsEntries(Feed)
  {
    FeedIsParserLike();
    var f: Feeder := Feed;
    LikeReadsEntries(f);
  }

  lemma {:induction false} LikeReadsEntries(f: Feeder)
    requires ParserLike(f)
    ensures ReadsEntries(f)
  {
    ParserReadsOptions(f);
    forall r, e, keys | EntryCase(r, e, keys)
      ensures FeedAll(f, r, EntryLines(e, keys)) == EntryResult(r, e, keys)
    {
      EntryFeeds(f, r, e, keys);
    }
  }

  ghost predicate AllFit(entries: seq<Entry>)
  {
    forall i :: 0 <= i < |entries| ==> Fits(entries[i])
  }

  ghost predicate Took(r: Option<Reader>, entries: seq<Entry>, lines: seq<string>)
  {
    && (r.Some? <==> AllFit(entries))
    && (r.Some? ==> Keep(r.value) == AllReadBack(Serializable(entries)) && r.value.bytes == Weight(lines))
  }

  lemma {:induction false} FileFeeds(f: Feeder, entries: seq<Entry>, orders: seq<seq<string>>)
    requires ReadsEntries(f) && Ordered(entries, orders) && Accepted(entries) && Weight(FileLines(entries, orders)) <= MAX_FILE_SIZE
    ensures Took(FeedAll(f, Reader([], None, 0), FileLines(entries, orders)), entries, FileLines(entries, orders))
  {
    var start := Reader([], None, 0);
    if entries == [] {
      assert FeedAll(f, start, []) == Some(start);
    } else {
      var n := |entries| - 1;
      var before, lines := FileLines(entries[..n], orders[..n]), EntryLines(entries[n], orders[n]);
      WeightConcat(before, lines);
      SerializableFewer(entries, n);
      FileFeeds(f, entries[..n], orders[..n]);
      FileGrows(f, FeedAll(f, start, before), entries, orders[n], before, lines);
      FeedConcat(f, start, before, lines);
    }
  }

  lemma {:induction false} FileGrows(f: Feeder, r: Option<Reader>, entries: seq<Entry>, keys: seq<string>, before: seq<string>, lines: seq<string>)
    requires ReadsEntries(f) && entries != [] && Accepted(entries)
    requires Orders(keys, entries[|entries| - 1].options) && lines == EntryLines(entries[|entries| - 1], keys)
    requires Took(r, entries[..|entries| - 1], before) && Weight(before) + Weight(lines) <= MAX_FILE_SIZE
    ensures Took(if r.None? then None else FeedAll(f, r.value, lines), entries, before + lines)
  {
    AllFitSplits(entries);
    WeightConcat(before, lines);
    if r.Some? {
      LastFeeds(f, r.value, entries, keys);
    }
  }

  lemma AllFitSplits(entries: seq<Entry>)
    requires entries != []
    ensures AllFit(entries) <==> AllFit(entries[..|entries| - 1]) && Fits(entries[|entries| - 1])
  {
    var n := |entries| - 1;
    if AllFit(entries[..n]) && Fits(entries[n]) {
      forall i | 0 <= i < |entries|
        ensures Fits(entries[i])
      {
        assert i < n ==> Fits(entries[..n][i]);
      }
    }
  }

  lemma {:induction false} LastFeeds(f: Feeder, r: Reader, entries: seq<Entry>, keys: seq<string>)
    requires ReadsEntries(f) && entries != [] && Accepted(entries) && Orders(keys, entries[|entries| - 1].options)
    requires Keep(r) == AllReadBack(Serializable(entries[..|entries| - 1]))
    requires r.bytes + Weight(EntryLines(entries[|entries| - 1], keys)) <= MAX_FILE_SIZE
    ensures var e := entries[|entries| - 1];
            var s := FeedAll(f, r, EntryLines(e, keys));
            && (s.Some? <==> Fits(e))
            && (s.Some? ==> Keep(s.value) == AllReadBack(Serializable(entries))
                            && s.value.bytes == r.bytes + Weight(EntryLines(e, keys)))
  {
    var e := entries[|entries| - 1];
    if e.uris == [] {
      assert FeedAll(f, r, []) == Some(r);
      assert Serializable(entries) == Serializable(entries[..|entries| - 1]);
    } else {
      assert EntryCase(r, e, keys);
      assert Serializable(entries) == Serializable(entries[..|entries| - 1]) + [e];
    }
  }

  lemma {:induction false} ListOneLine(key: string, items: seq<string>)
    requires KeyAccepted(key) && forall i :: 0 <= i < |items| ==> TextAccepted(items[i])
    ensures forall i :: 0 <= i < |items| ==> OneLine(ListLines(key, items)[i])
  {
    forall i | 0 <= i < |items|
      ensures OneLine(ListLines(key, items)[i])
    {
      OptionLineTrims(key, items[i]);
    }
  }

  lemma {:induction false} OptionsOneLine(options: Options, keys: seq<string>)
    requires Elements(keys) <= options.Keys
    requires forall key :: key in options ==> KeyAccepted(key) && ValueAccepted(options[key])
    ensures forall line :: line in OptionLines(options, keys) ==> OneLine(line)
  {
    if keys != [] {
      assert keys[0] in Elements(keys) && Elements(keys[1..]) <= Elements(keys);
      ListOneLine(keys[0], Items(options[keys[0]]));
      OptionsOneLine(options, keys[1..]);
    }
  }

  lemma {:induction false} FileOneLine(entries: seq<Entry>, orders: seq<seq<string>>)
    requires Ordered(entries, orders) && forall i :: 0 <= i < |entries| && entries[i].uris != [] ==> EntryAccepted(entries[i])
    ensures forall line :: line in FileLines(entries, orders) ==> OneLine(line)
  {
    if entries != [] {
      var n := |entries| - 1;
      FileOneLine(entries[..n], orders[..n]);
      if entries[n].uris != [] {
        EntryOneLine(entries[n], orders[n]);
      }
    }
  }

  lemma EntryOneLine(e: Entry, keys: seq<string>)
    requires EntryAccepted(e) && e.uris != [] && Elements(keys) <= e.options.Keys
    ensures forall line :: line in EntryLines(e, keys) ==> OneLine(line)
  {
    UriLineShape(e);
    OptionsOneLine(e.options, keys);
  }

  /**
   For every list of entries the writer accepts, in whatever order it writes the
   keys: the parser takes the text exactly when every line of URIs is below the
   scanner's limit, and then returns the written entries in order, with their
   URIs and with the options that `ReadBack` describes.
   */
  lemma ReadsBack(entries: seq<Entry>, orders: seq<seq<string>>)
    requires Ordered(entries, orders) && Written(entries, orders).Some?
    ensures var parsed := Parse(Written(entries, orders).value);
            && (parsed.Some? <==> AllFit(entries))
            && (parsed.Some? ==> parsed.value == AllReadBack(Serializable(entries)))
  {
    var lines := FileLines(entries, orders);
    FileOneLine(entries, orders);
    assert forall i :: 0 <= i < |lines| ==> lines[i] in lines;
    LinesOfUnlines(lines);
    ParserReadsEntries();
    WeightIsSize(lines);
    FileFeeds(Feed, entries, orders);
  }

  /** Where an entry of the list is found among the written ones. */
  lemma {:induction false} SerializableAt(entries: seq<Entry>, i: nat)
    requires i < |entries| && entries[i].uris != []
    ensures var j := |Serializable(entries[..i])|;
            j < |Serializable(entries)| && Serializable(entries)[j] == entries[i]
    decreases |entries|
  {
    var n := |entries| - 1;
    if i < n {
      SerializableAt(entries[..n], i);
      assert entries[..n][..i] == entries[..i];
    }
  }

  /** A session without such keys and lists comes back as it was. */
  lemma RoundTrip(entries: seq<Entry>, orders: seq<seq<string>>)
    requires Ordered(entries, orders) && Written(entries, orders).Some? && AllFit(entries)
    requires forall i, key :: 0 <= i < |entries| && key in entries[i].options ==> key != "" && Plain(key, entries[i].options[key])
    requires forall i :: 0 <= i < |entries| ==> entries[i].uris != []
    ensures Parse(Written(entries, orders).value).Some?
    ensures var items := Parse(Written(entries, orders).value).value;
            && |items| == |entries|
            && forall i :: 0 <= i < |entries| ==> items[i] == Item(entries[i].uris, entries[i].options)
  {
    ReadsBack(entries, orders);
    AllSerializable(entries);
    forall i | 0 <= i < |entries|
      ensures ReadBack(entries[i]) == Item(entries[i].uris, entries[i].options)
    {
      UnchangedIff(entries[i]);
    }
  }

  lemma {:induction false} AllSerializable(entries: seq<Entry>)
    requires forall i :: 0 <= i < |entries| ==> entries[i].uris != []
    ensures Serializable(entries) == entries
  {
    if entries != [] {
      var n := |entries| - 1;
      AllSerializable(entries[..n]);
      assert entries == entries[..n] + [entries[n]];
    }
  }

  // ----- what does not come back, at inputs -----

  /** A session of one accepted entry: written if it is not too long, and parsed to what `ReadBack` says if it fits. */
  lemma OneEntry(e: Entry, keys: seq<string>)
    requires EntryAccepted(e) && e.uris != [] && Orders(keys, e.options) && Weight(EntryLines(e, keys)) <= MAX_FILE_SIZE
    ensures Ordered([e], [keys]) && Written([e], [keys]).Some?
    ensures Parse(Written([e], [keys]).value) == if Fits(e) then Some([ReadBack(e)]) else None
  {
    OneFile(e, keys);
    WeightIsSize(EntryLines(e, keys));
    ReadsBack([e], [keys]);
    assert AllReadBack([e]) == [ReadBack(e)];
  }

  lemma OneFile(e: Entry, keys: seq<string>)
    requires e.uris != [] && Orders(keys, e.options)
    ensures Ordered([e], [keys]) && FileLines([e], [keys]) == EntryLines(e, keys) && Serializable([e]) == [e]
    ensures AllFit([e]) <==> Fits(e)
  {
    assert [e][..0] == [] && [keys][..0] == [];
    assert FileLines([e], [keys]) == [] + EntryLines(e, keys);
    assert Serializable([e]) == [] + [e];
    assert [e][0] == e;
  }

  /** The lines of an entry with one URI and one option. */
  lemma TwoLines(uri: string, key: string, v: Value, magnet: bool)
    ensures var e := Entry([uri], map[key := v], magnet);
            Orders([key], e.options) && EntryLines(e, [key]) == [uri] + ListLines(key, Items(v))
  {
    var e := Entry([uri], map[key := v], magnet);
    assert Elements([key]) == {key} == e.options.Keys;
    assert OptionLines(e.options, [key]) == ListLines(key, Items(v)) + OptionLines(e.options, []);
    assert JoinTabs([uri]) == uri;
  }

  /** A URI the writer takes and that is not long, as every URI of an ordinary download. */
  predicate OrdinaryUri(uri: string)
  {
    Word(uri) && uri[0] != '#' && Size(uri) <= 4096
  }

  lemma LettersAreOrdinary(uri: string)
    requires 0 < |uri| <= 64 && forall c :: c in uri ==> c == ':' || c == '/' || 'a' <= c <= 'z'
    ensures OrdinaryUri(uri)
  {
    SmallSize(uri);
    assert forall i :: 0 <= i < |uri| ==> uri[i] in uri;
  }

  lemma HttpIsOrdinary()
    ensures OrdinaryUri("http://h/")
  {
    var uri := "http://h/";
    assert uri == ['h', 't', 't', 'p', ':', '/', '/', 'h', '/'];
    LettersAreOrdinary(uri);
  }

  lemma SmallEntry(uri: string, key: string, v: Value)
    requires OrdinaryUri(uri) && KeyAccepted(key) && ValueAccepted(v)
    ensures EntryAccepted(Entry([uri], map[key := v], false)) && Fits(Entry([uri], map[key := v], false))
  {
    var e := Entry([uri], map[key := v], false);
    assert JoinTabs(e.uris) == uri;
    assert UriAccepted(e.uris, 0);
  }

  lemma SmallWeight(uri: string, key: string, text: string)
    requires OrdinaryUri(uri) && KeyAccepted(key) && TextAccepted(text)
    ensures Weight([uri] + ListLines(key, [text])) <= MAX_FILE_SIZE
  {
    WeightOne(uri, ListLines(key, [text]));
    assert ListLines(key, [text]) == [OptionLine(key, text)] + [];
    WeightOne(OptionLine(key, text), []);
    OptionLineSize(key, text);
  }

  /** A key that starts with `#` is accepted and written, and the parser skips its line. */
  lemma CommentKeyIsLost(uri: string, e: Entry)
    requires OrdinaryUri(uri) && e == Entry([uri], map["#" := Text("")], false)
    ensures Ordered([e], [["#"]]) && Written([e], [["#"]]).Some?
    ensures Parse(Written([e], [["#"]]).value) == Some([Item([uri], map[])])
  {
    assert Size("#") == 1 && KeyAccepted("#") && TextAccepted("");
    SmallEntry(uri, "#", Text(""));
    TwoLines(uri, "#", Text(""), false);
    SmallWeight(uri, "#", "");
    OneEntry(e, ["#"]);
    assert ReadOptions(e.options, e.options.Keys) == map[];
  }

  /** A list of one item is accepted and comes back as a text. */
  lemma ShortListBecomesText(uri: string, e: Entry)
    requires OrdinaryUri(uri) && e == Entry([uri], map["k" := List(["v"])], false)
    ensures Ordered([e], [["k"]]) && Written([e], [["k"]]).Some?
    ensures Parse(Written([e], [["k"]]).value) == Some([Item([uri], map["k" := Text("v")])])
  {
    assert Size("k") == 1 && Size("v") == 1;
    TrimIsIdentity("v");
    assert KeyAccepted("k") && TextAccepted("v");
    SmallEntry(uri, "k", List(["v"]));
    TwoLines(uri, "k", List(["v"]), false);
    SmallWeight(uri, "k", "v");
    OneEntry(e, ["k"]);
    assert ReadOptions(e.options, e.options.Keys) == map["k" := Text("v")];
  }

  /** An empty list is accepted and does not come back at all. */
  lemma EmptyListIsLost(uri: string, e: Entry)
    requires OrdinaryUri(uri) && e == Entry([uri], map["k" := List([])], false)
    ensures Ordered([e], [["k"]]) && Written([e], [["k"]]).Some?
    ensures Parse(Written([e], [["k"]]).value) == Some([Item([uri], map[])])
  {
    assert Size("k") == 1 && KeyAccepted("k");
    SmallEntry(uri, "k", List([]));
    TwoLines(uri, "k", List([]), false);
    assert [uri] + ListLines("k", []) == [uri] + [];
    WeightOne(uri, []);
    OneEntry(e, ["k"]);
    assert ReadOptions(e.options, e.options.Keys) == map[];
  }

  lemma {:induction false} RepeatedSize(n: nat)
    ensures Size(seq(n, _ => 'u')) == n
  {
    if n > 0 {
      RepeatedSize(n - 1);
      assert seq(n, _ => 'u')[1..] == seq(n - 1, _ => 'u');
    }
  }

  /** An ordinary URI made as long as the scanner's limit. */
  ghost function Lengthened(uri: string): string
    requires OrdinaryUri(uri)
  {
    uri + seq(MaxLineSize() - Size(uri), _ => 'u')
  }

  lemma LengthenedIs(uri: string)
    requires OrdinaryUri(uri)
    ensures Size(Lengthened(uri)) == MaxLineSize() && Word(Lengthened(uri)) && Lengthened(uri)[0] == uri[0]
  {
    var tail := seq(MaxLineSize() - Size(uri), _ => 'u');
    RepeatedSize(MaxLineSize() - Size(uri));
    SizeConcat(uri, tail);
    assert forall i :: |uri| <= i < |Lengthened(uri)| ==> Lengthened(uri)[i] == tail[i - |uri|];
    assert forall i :: 0 <= i < |uri| ==> Lengthened(uri)[i] == uri[i];
  }

  /** One URI as long as the scanner's limit is accepted and written, and the session cannot be read any more. */
  lemma LongUriIsUnreadable(uri: string, e: Entry)
    requires OrdinaryUri(uri) && e == Entry([Lengthened(uri)], map[], false)
    ensures Ordered([e], [[]]) && Written([e], [[]]).Some?
    ensures Parse(Written([e], [[]]).value) == None
  {
    var long := e.uris[0];
    LengthenedIs(uri);
    assert UriAccepted(e.uris, 0);
    assert JoinTabs(e.uris) == long;
    assert EntryLines(e, []) == [long] + [];
    WeightOne(long, []);
    OneEntry(e, []);
  }
}
