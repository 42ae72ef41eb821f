/** The session file: what the writer accepts and writes, and how the parser reads it. */
module Session {
  import opened Collections
  import opened Strings

  const MAX_FILE_SIZE: int := 256 * 1024 * 1024
  const MAX_DOWNLOADS: int := 10000
  const MAX_URIS: int := 64
  const MAX_SESSION_URIS: int := 65
  const MAX_OPTION_KEYS: int := 128 * 2 + 4
  const MAX_OPTION_VALUES: int := 64
  const MAX_KEY_SIZE: int := 256
  const MAX_VALUE_SIZE: int := 1024 * 1024
  const TORRENT_DATA_PREFIX := "data:application/x-bittorrent;base64,"
  const MAX_TORRENT_SIZE: int := 64 * 1024 * 1024

  /** The scanner's line limit: an encoded torrent of maximal size, its prefix and one mebibyte. */
  function MaxLineSize(): int
  {
    (MAX_TORRENT_SIZE + 2) / 3 * 4 + |TORRENT_DATA_PREFIX| + 1024 * 1024
  }

  datatype Value = Text(text: string) | List(items: seq<string>)

  type Options = map<string, Value>

  /** One download of the session; `magnet` tells whether the first URI parses as a magnet link. */
  datatype Entry = Entry(uris: seq<string>, options: Options, magnet: bool)

  /** One download as the parser returns it. */
  datatype Item = Item(uris: seq<string>, options: Options)

  // ----- the writer -----

  predicate UriAccepted(uris: seq<string>, i: nat)
    requires i < |uris|
  {
    uris[i] != "" && !HasSpace(uris[i]) && !(i == 0 && uris[0][0] == '#')
  }

  predicate KeyAccepted(key: string)
  {
    key != "" && Size(key) <= MAX_KEY_SIZE && '=' !in key && !HasSpace(key)
  }

  predicate TextAccepted(text: string)
  {
    Size(text) <= MAX_VALUE_SIZE && '\r' !in text && '\n' !in text && Trim(text) == text
  }

  predicate ValueAccepted(v: Value)
  {
    match v
    case Text(text) => TextAccepted(text)
    case List(items) => |items| <= MAX_OPTION_VALUES && forall i :: 0 <= i < |items| ==> TextAccepted(items[i])
  }

  predicate EntryAccepted(e: Entry)
  {
    && |e.uris| <= (if e.uris != [] && (TORRENT_DATA_PREFIX <= e.uris[0] || e.magnet) then MAX_URIS + 1 else MAX_URIS)
    && (forall i :: 0 <= i < |e.uris| ==> UriAccepted(e.uris, i))
    && |e.options| <= MAX_OPTION_KEYS
    && (forall key :: key in e.options ==> KeyAccepted(key) && ValueAccepted(e.options[key]))
  }

  /** The keys of an option map, each once, in some order. */
  ghost predicate Orders(keys: seq<string>, options: Options)
  {
    NoDuplicates(keys) && Elements(keys) == options.Keys
  }

  function OptionLine(key: string, text: string): string
  {
    "  " + key + "=" + text
  }

  function ListLines(key: string, items: seq<string>): (lines: seq<string>)
    ensures |lines| == |items| && forall i :: 0 <= i < |items| ==> lines[i] == OptionLine(key, items[i])
  {
    seq(|items|, i requires 0 <= i < |items| => OptionLine(key, items[i]))
  }

  function Items(v: Value): seq<string>
  {
    match v case Text(text) => [text] case List(items) => items
  }

  function OptionLines(options: Options, keys: seq<string>): seq<string>
    requires Elements(keys) <= options.Keys
  {
    if keys == [] then []
    else
      assert keys[0] in Elements(keys) && Elements(keys[1..]) <= Elements(keys);
      ListLines(keys[0], Items(options[keys[0]])) + OptionLines(options, keys[1..])
  }

  function EntryLines(e: Entry, keys: seq<string>): seq<string>
    requires Elements(keys) <= e.options.Keys
  {
    if e.uris == [] then [] else [JoinTabs(e.uris)] + OptionLines(e.options, keys)
  }

  /** Entries with the order in which the keys of each are written. */
  ghost predicate Ordered(entries: seq<Entry>, orders: seq<seq<string>>)
  {
    |orders| == |entries| && forall i :: 0 <= i < |entries| ==> Orders(orders[i], entries[i].options)
  }

  ghost function FileLines(entries: seq<Entry>, orders: seq<seq<string>>): seq<string>
    requires Ordered(entries, orders)
  {
    if entries == [] then []
    else
      var n := |entries| - 1;
      FileLines(entries[..n], orders[..n]) + EntryLines(entries[n], orders[n])
  }

  /** The entries that are written at all. */
  function Serializable(entries: seq<Entry>): (r: seq<Entry>)
    ensures |r| <= |entries|
  {
    if entries == [] then []
    else
      var n := |entries| - 1;
      Serializable(entries[..n]) + if entries[n].uris == [] then [] else [entries[n]]
  }

  ghost predicate Accepted(entries: seq<Entry>)
  {
    && |Serializable(entries)| <= MAX_DOWNLOADS
    && forall i :: 0 <= i < |entries| && entries[i].uris != [] ==> EntryAccepted(entries[i])
  }

  /** The whole text, when every entry is accepted and it is not too long. */
  ghost function Written(entries: seq<Entry>, orders: seq<seq<string>>): Option<string>
    requires Ordered(entries, orders)
  {
    var text := Unlines(FileLines(entries, orders));
    if Accepted(entries) && Size(text) <= MAX_FILE_SIZE then Some(text) else None
  }

  /** Check every entry, then write them one after the other. */
  method WriteSession(entries: seq<Entry>, orders: seq<seq<string>>) returns (r: Option<string>)
    requires Ordered(entries, orders)
    ensures r == Written(entries, orders)
  {
    var accepted := ValidateEntries(EntryAccepted, entries);
    if !accepted {
      return None;
    }
    var text := "";
    for i := 0 to |entries|
      invariant Ordered(entries[..i], orders[..i]) && text == Unlines(FileLines(entries[..i], orders[..i]))
    {
      var lines := EntryLines(entries[i], orders[i]);
      UnlinesConcat(FileLines(entries[..i], orders[..i]), lines);
      assert entries[..i + 1][..i] == entries[..i] && orders[..i + 1][..i] == orders[..i];
      text := text + Unlines(lines);
    }
    assert entries[..|entries|] == entries && orders[..|orders|] == orders;
    return if Size(text) <= MAX_FILE_SIZE then Some(text) else None;
  }

  /** The check of all entries, for any check of one entry. */
  method ValidateEntries(valid: Entry -> bool, entries: seq<Entry>) returns (accepted: bool)
    ensures accepted <==> |Serializable(entries)| <= MAX_DOWNLOADS
                          && forall i :: 0 <= i < |entries| && entries[i].uris != [] ==> valid(entries[i])
  {
    var count := 0;
    for i := 0 to |entries|
      invariant count == |Serializable(entries[..i])| <= MAX_DOWNLOADS
      invariant forall j :: 0 <= j < i && entries[j].uris != [] ==> valid(entries[j])
    {
      SerializableGrows(entries, i);
      if entries[i].uris != [] {
        if !valid(entries[i]) {
          return false;
        }
        count := count + 1;
        if count > MAX_DOWNLOADS {
          return false;
        }
      }
    }
    assert entries[..|entries|] == entries;
    return true;
  }

  lemma SerializableGrows(entries: seq<Entry>, i: nat)
    requires i < |entries|
    ensures |Serializable(entries[..i + 1])| == |Serializable(entries[..i])| + if entries[i].uris == [] then 0 else 1
    ensures |Serializable(entries[..i + 1])| <= |Serializable(entries)|
  {
    assert entries[..i + 1][..i] == entries[..i];
    SerializableFewer(entries, i + 1);
  }

  lemma {:induction false} SerializableFewer(entries: seq<Entry>, n: nat)
    requires n <= |entries|
    ensures |Serializable(entries[..n])| <= |Serializable(entries)|
    decreases |entries|
  {
    if n == |entries| {
      assert entries[..n] == entries;
    } else {
      SerializableFewer(entries[..|entries| - 1], n);
      assert entries[..|entries| - 1][..n] == entries[..n];
    }
  }

  // ----- the parser -----

  /** The parser between two lines: finished items, the item being read, bytes seen. */
  datatype Reader = Reader(items: seq<Item>, current: Option<Item>, bytes: int)

  /** An item is kept once it has URIs. */
  function Keep(r: Reader): seq<Item>
  {
    if r.current.Some? && r.current.value.uris != [] then r.items + [r.current.value] else r.items
  }

  function AddOption(item: Item, key: string, text: string): Option<Item>
  {
    if key == "" || Size(key) > MAX_KEY_SIZE || '=' in key || HasSpace(key) || Size(text) > MAX_VALUE_SIZE then None
    else if key in item.options then
      match item.options[key]
      case List(items) =>
        if |items| >= MAX_OPTION_VALUES then None
        else Some(item.(options := item.options[key := List(items + [text])]))
      case Text(first) => Some(item.(options := item.options[key := List([first, text])]))
    else if |item.options| >= MAX_OPTION_KEYS then None
    else Some(item.(options := item.options[key := Text(text)]))
  }

  function Feed(r: Reader, raw: string): Option<Reader>
  {
    var line := DropReturn(raw);
    var bytes := r.bytes + Size(line) + 1;
    var trimmed := Trim(line);
    if Size(raw) >= MaxLineSize() || bytes > MAX_FILE_SIZE then None
    else if trimmed == "" || trimmed[0] == '#' then Some(r.(bytes := bytes))
    else if line[0] == ' ' || line[0] == '\t' then FeedOption(r.(bytes := bytes), trimmed)
    else
      var uris := Fields(trimmed);
      if |uris| > MAX_SESSION_URIS || |Keep(r)| >= MAX_DOWNLOADS then None
      else Some(Reader(Keep(r), Some(Item(uris, map[])), bytes))
  }

  function FeedOption(r: Reader, trimmed: string): Option<Reader>
  {
    var i := IndexOf(trimmed, '=');
    if r.current.None? || i == |trimmed| then None
    else
      var item := AddOption(r.current.value, Trim(trimmed[..i]), Trim(trimmed[i + 1..]));
      if item.None? then None else Some(r.(current := item))
  }

  type Feeder = (Reader, string) -> Option<Reader>

  /** All lines in turn, by any rule for one line. */
  function FeedAll(feed: Feeder, r: Reader, lines: seq<string>): Option<Reader>
    decreases |lines|
  {
    if lines == [] then Some(r)
    else
      var next := feed(r, lines[0]);
      if next.None? then None else FeedAll(feed, next.value, lines[1..])
  }

  function Parse(text: string): Option<seq<Item>>
  {
    var r := FeedAll(Feed, Reader([], None, 0), RawLines(text));
    if r.None? then None else Some(Keep(r.value))
  }

  /** The parser as a loop over the lines. */
  method ParseSession(text: string) returns (r: Option<seq<Item>>)
    ensures r == Parse(text)
  {
    var lines := RawLines(text);
    var items: seq<Item> := [];
    var current: Option<Item> := None;
    var bytes := 0;
    for n := 0 to |lines|
      invariant FeedAll(Feed, Reader([], None, 0), lines) == FeedAll(Feed, Reader(items, current, bytes), lines[n..])
    {
      assert lines[n..][0] == lines[n] && lines[n..][1..] == lines[n + 1..];
      var ok;
      ok, items, current, bytes := ReadLine(lines[n], items, current, bytes);
      if !ok {
        return None;
      }
    }
    if current.Some? && current.value.uris != [] {
      items := items + [current.value];
    }
    return Some(items);
  }

  method ReadLine(raw: string, items0: seq<Item>, current0: Option<Item>, bytes0: int)
    returns (ok: bool, items: seq<Item>, current: Option<Item>, bytes: int)
    ensures Feed(Reader(items0, current0, bytes0), raw) == if ok then Some(Reader(items, current, bytes)) else None
  {
    items, current, bytes := items0, current0, bytes0;
    if Size(raw) >= MaxLineSize() {
      return false, items, current, bytes;
    }
    var line := DropReturn(raw);
    bytes := bytes + Size(line) + 1;
    if bytes > MAX_FILE_SIZE {
      return false, items, current, bytes;
    }
    var trimmed := Trim(line);
    if trimmed == "" || trimmed[0] == '#' {
      return true, items, current, bytes;
    }
    if line[0] == ' ' || line[0] == '\t' {
      ok, current := ReadOption(trimmed, current, Reader(items, current, bytes));
      return ok, items, current, bytes;
    }
    if current.Some? && current.value.uris != [] {
      items := items + [current.value];
    }
    var uris := Fields(trimmed);
    if |uris| > MAX_SESSION_URIS || |items| >= MAX_DOWNLOADS {
      return false, items, current, bytes;
    }
    return true, items, Some(Item(uris, map[])), bytes;
  }

  method ReadOption(trimmed: string, current0: Option<Item>, ghost r: Reader) returns (ok: bool, current: Option<Item>)
    requires r.current == current0
    ensures FeedOption(r, trimmed) == if ok then Some(r.(current := current)) else None
  {
    if current0.None? {
      return false, None;
    }
    var i := IndexOf(trimmed, '=');
    if i == |trimmed| {
      return false, None;
    }
    var item := AddOption(current0.value, Trim(trimmed[..i]), Trim(trimmed[i + 1..]));
    return item.Some?, item;
  }
}
