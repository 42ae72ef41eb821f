/** How the session parser reads any line, however it is indented and spaced, and what it never lets through. */
module SessionLines {
  import opened Collections
  import opened Strings
  import opened Session
  import opened SessionRoundTrip

  /** The raw line stands for `line`, with or without a carriage return, and is within the limits. */
  ghost predicate Scanned(r: Reader, raw: string, line: string)
  {
    && (raw == line + "\r" || (raw == line && OneLine(line)))
    && Size(raw) < MaxLineSize() && r.bytes + Size(line) + 1 <= MAX_FILE_SIZE
  }

  ghost function Seen(r: Reader, line: string): Reader
  {
    r.(bytes := r.bytes + Size(line) + 1)
  }

  lemma {:induction false} ScannedIs(r: Reader, raw: string, line: string)
    requires Scanned(r, raw, line)
    ensures DropReturn(raw) == line
  {
    if raw == line + "\r" {
      assert raw[..|raw| - 1] == line;
    }
  }

  /** Blank lines and comments, indented or not, change nothing but the count of bytes. */
  lemma {:induction false} SkippedLine(r: Reader, raw: string, a: string, comment: string)
    requires Scanned(r, raw, a + comment) && Blank(a) && (comment == "" || comment[0] == '#')
    ensures Feed(r, raw) == Some(Seen(r, a + comment))
  {
    ScannedIs(r, raw, a + comment);
    TrimLeftPadded(a, comment);
    if comment != "" {
      TrimRightKeepsFirst(comment);
    }
  }

  /** The line starts as an option line does. */
  predicate Indented(a: string)
  {
    a != "" && Blank(a) && (a[0] == ' ' || a[0] == '\t')
  }

  /** An indented text without an equals sign is refused. */
  lemma {:induction false} NoEqualsSign(r: Reader, raw: string, a: string, text: string, b: string)
    requires Scanned(r, raw, a + text + b) && Indented(a) && Blank(b)
    requires text != "" && Trimmed(text) && text[0] != '#' && '=' !in text
    ensures Feed(r, raw) == None
  {
    ScannedIs(r, raw, a + text + b);
    TrimPadded(a, text, b);
    assert (a + text + b)[0] == a[0];
    assert IndexOf(text, '=') == |text|;
  }

  /**
   An indented `key=text`, with any white space around the key and around the text,
   adds that text to that key of the download being read, and is refused where there
   is none or where it cannot take it.
   */
  lemma {:induction false} OptionLineRead(r: Reader, raw: string, line: string, a: string, key: string, b: string, c: string, text: string, d: string)
    requires line == a + key + b + "=" + c + text + d && Scanned(r, raw, line) && Indented(a) && Blank(b) && Blank(c) && Blank(d)
    requires Trimmed(key) && '=' !in key && (key != "" ==> key[0] != '#') && (key == "" ==> b == "") && Trimmed(text)
    ensures Feed(r, raw) == WithOption(Seen(r, line), key, text)
  {
    var value, core := OptionShape(line, a, key, b, c, text, d);
    IndentedFeeds(r, raw, line, core);
    OptionFed(Seen(r, line), key + b, value, key, text, core);
  }

  /** The reader after this text was added to this key, if it can be. */
  ghost function WithOption(r: Reader, key: string, text: string): Option<Reader>
  {
    var item := if r.current.None? then None else AddOption(r.current.value, key, text);
    if item.None? then None else Some(r.(current := item))
  }

  lemma {:induction false} OptionFed(r: Reader, head: string, value: string, key: string, text: string, core: string)
    requires '=' !in head && Trim(head) == key && Trim(value) == text && core == head + "=" + value
    ensures FeedOption(r, core) == WithOption(r, key, text)
  {
    CutAtEquals(head, value);
  }

  lemma {:induction false} OptionShape(line: string, a: string, key: string, b: string, c: string, text: string, d: string) returns (value: string, core: string)
    requires line == a + key + b + "=" + c + text + d && Indented(a) && Blank(b) && Blank(c) && Blank(d)
    requires Trimmed(key) && '=' !in key && (key != "" ==> key[0] != '#') && (key == "" ==> b == "") && Trimmed(text)
    ensures core == key + b + "=" + value && Trim(line) == core && core[0] != '#' && line != "" && (line[0] == ' ' || line[0] == '\t')
    ensures Trim(value) == text && Trim(key + b) == key && '=' !in key + b
  {
    var tail;
    value, tail := PaddedValue(c, text, d);
    core := key + b + "=" + value;
    TrimTail(key, b);
    var front := a + key + b + "=";
    assert line == front + (c + text + d) by {
      assert line == front + c + text + d;
    }
    assert line == front + (value + tail);
    assert front + value == a + core;
    assert line == a + core + tail;
    CoreTrimmed(key, b, value);
    TrimPadded(a, core, tail);
    assert line[0] == a[0];
  }

  lemma {:induction false} TrimTail(s: string, b: string)
    requires Blank(b) && Trimmed(s)
    ensures Trim(s + b) == s
  {
    TrimPadded(b[..0], s, b);
    assert b[..0] + s + b == s + b;
  }

  lemma {:induction false} IndentedFeeds(r: Reader, raw: string, line: string, trimmed: string)
    requires Scanned(r, raw, line) && line != "" && (line[0] == ' ' || line[0] == '\t')
    requires Trim(line) == trimmed && trimmed != "" && trimmed[0] != '#'
    ensures Feed(r, raw) == FeedOption(Seen(r, line), trimmed)
  {
    ScannedIs(r, raw, line);
  }

  lemma {:induction false} OtherFeeds(r: Reader, raw: string, line: string, trimmed: string)
    requires Scanned(r, raw, line) && line != "" && line[0] != ' ' && line[0] != '\t'
    requires Trim(line) == trimmed && trimmed != "" && trimmed[0] != '#'
    ensures Feed(r, raw) == if |Fields(trimmed)| > MAX_SESSION_URIS || |Keep(r)| >= MAX_DOWNLOADS then None
                            else Some(Seen(r, line).(items := Keep(r), current := Some(Item(Fields(trimmed), map[]))))
  {
    ScannedIs(r, raw, line);
  }

  /** The value as it stands after the line is trimmed, and what is trimmed away. */
  lemma {:induction false} PaddedValue(c: string, text: string, d: string) returns (value: string, tail: string)
    requires Blank(c) && Blank(d) && Trimmed(text)
    ensures c + text + d == value + tail && Blank(tail) && Trim(value) == text
    ensures value == "" || !IsSpace(value[|value| - 1])
  {
    if text == "" {
      value, tail := "", c + d;
    } else {
      value, tail := c + text, d;
      assert c + text == c + text + "";
      TrimPadded(c, text, "");
    }
  }

  lemma {:induction false} CoreTrimmed(key: string, b: string, value: string)
    requires Blank(b) && Trimmed(key) && '=' !in key && (key == "" ==> b == "") && (key != "" ==> key[0] != '#')
    requires value == "" || !IsSpace(value[|value| - 1])
    ensures var core := key + b + "=" + value;
            Trimmed(core) && core != "" && core[0] != '#' && '=' !in key + b
  {
    var core := key + b + "=" + value;
    assert core[0] == if key == "" then '=' else key[0];
    assert core[|core| - 1] == if value == "" then '=' else value[|value| - 1];
    assert forall i :: 0 <= i < |b| ==> b[i] != '=';
  }

  lemma {:induction false} SpacedTrimmed(words: seq<string>, gaps: seq<string>)
    requires GapsOk(words, gaps) && words != [] && gaps[|words|] == ""
    ensures var s := Spaced(words, gaps);
            && s != "" && !IsSpace(s[|s| - 1]) && (gaps[0] == "" ==> words[0] != "" && s[0] == words[0][0] && Trimmed(s))
    decreases |words|
  {
    var rest := Spaced(words[1..], gaps[1..]);
    assert Word(words[0]) && !IsSpace(words[0][0]) && !IsSpace(words[0][|words[0]| - 1]);
    var s := Spaced(words, gaps);
    if |words| > 1 {
      SpacedTrimmed(words[1..], gaps[1..]);
      assert s[|s| - 1] == rest[|rest| - 1];
    } else {
      assert rest == "" && s == gaps[0] + words[0];
    }
  }

  /**
   A line that starts otherwise begins the next download, with the words on it as its
   URIs, whatever white space is between them.
   */
  lemma {:induction false} UriLineRead(r: Reader, raw: string, line: string, a: string, uris: seq<string>, gaps: seq<string>, b: string)
    requires GapsOk(uris, gaps) && uris != [] && gaps[0] == "" && gaps[|uris|] == "" && uris[0] != "" && uris[0][0] != '#'
    requires line == a + Spaced(uris, gaps) + b && Scanned(r, raw, line) && Blank(a) && Blank(b) && !Indented(a)
    ensures Feed(r, raw) == if |uris| > MAX_SESSION_URIS || |Keep(r)| >= MAX_DOWNLOADS then None
                            else Some(Seen(r, line).(items := Keep(r), current := Some(Item(uris, map[]))))
  {
    var trimmed := Spaced(uris, gaps);
    SpacedTrimmed(uris, gaps);
    FieldsOfSpaced(uris, gaps);
    UriLineStarts(line, a, uris[0], trimmed, b);
    OtherFeeds(r, raw, line, trimmed);
  }

  lemma {:induction false} UriLineStarts(line: string, a: string, first: string, trimmed: string, b: string)
    requires line == a + trimmed + b && Blank(a) && Blank(b) && !Indented(a) && Trimmed(trimmed)
    requires trimmed != "" && first != "" && trimmed[0] == first[0]
    ensures Trim(line) == trimmed && line != "" && line[0] != ' ' && line[0] != '\t'
  {
    TrimPadded(a, trimmed, b);
    assert line[0] == if a == "" then trimmed[0] else a[0];
  }

  // ----- what is never let through -----

  ghost predicate ValueRead(v: Value)
  {
    match v
    case Text(text) => Size(text) <= MAX_VALUE_SIZE
    case List(items) => 2 <= |items| <= MAX_OPTION_VALUES && forall i :: 0 <= i < |items| ==> Size(items[i]) <= MAX_VALUE_SIZE
  }

  ghost predicate ItemRead(item: Item)
  {
    && 1 <= |item.uris| <= MAX_SESSION_URIS && |item.options| <= MAX_OPTION_KEYS
    && forall key :: key in item.options ==> KeyAccepted(key) && ValueRead(item.options[key])
  }

  ghost predicate ReaderOk(r: Reader)
  {
    && |Keep(r)| <= MAX_DOWNLOADS && r.bytes <= MAX_FILE_SIZE
    && (forall i :: 0 <= i < |r.items| ==> ItemRead(r.items[i])) && (r.current.Some? ==> ItemRead(r.current.value))
  }

  lemma {:induction false} AddedOk(item: Item, key: string, text: string)
    requires ItemRead(item) && AddOption(item, key, text).Some?
    ensures ItemRead(AddOption(item, key, text).value)
  {
    var v := AddedValue(item.options, key, text);
    assert key in item.options ==> ValueRead(item.options[key]);
    assert AddOption(item, key, text) == Some(item.(options := item.options[key := v]));
    StoredOk(item, key, v);
  }

  /** What the key holds with one more text. */
  function AddedValue(options: Options, key: string, text: string): Value
  {
    if key !in options then Text(text)
    else match options[key] case Text(first) => List([first, text]) case List(items) => List(items + [text])
  }

  lemma {:induction false} StoredOk(item: Item, key: string, v: Value)
    requires ItemRead(item) && KeyAccepted(key) && ValueRead(v) && (key in item.options || |item.options| < MAX_OPTION_KEYS)
    ensures ItemRead(item.(options := item.options[key := v]))
  {
    var next := item.options[key := v];
    assert key !in item.options ==> next.Keys == item.options.Keys + {key};
    assert key in item.options ==> next.Keys == item.options.Keys;
  }

  lemma {:induction false} FieldsExist(s: string)
    requires s != "" && !IsSpace(s[0])
    ensures Fields(s) != []
  {
    assert TrimLeft(s) == s;
  }

  lemma {:induction false} FedOk(r: Reader, raw: string)
    requires ReaderOk(r) && Feed(r, raw).Some?
    ensures ReaderOk(Feed(r, raw).value)
  {
    var line := DropReturn(raw);
    var trimmed := Trim(line);
    if trimmed != "" && trimmed[0] != '#' {
      if line[0] == ' ' || line[0] == '\t' {
        var i := IndexOf(trimmed, '=');
        AddedOk(r.current.value, Trim(trimmed[..i]), Trim(trimmed[i + 1..]));
      } else {
        TrimmedIsTrimmed(line);
        FieldsExist(trimmed);
      }
    }
  }

  lemma {:induction false} TrimmedIsTrimmed(s: string)
    ensures Trim(s) != "" ==> !IsSpace(Trim(s)[0])
  {
    if TrimLeft(s) != "" {
      TrimRightKeepsFirst(TrimLeft(s));
    }
  }

  lemma {:induction false} AllFedOk(r: Reader, lines: seq<string>)
    requires ReaderOk(r) && FeedAll(Feed, r, lines).Some?
    ensures ReaderOk(FeedAll(Feed, r, lines).value)
    decreases |lines|
  {
    if lines != [] {
      FedOk(r, lines[0]);
      AllFedOk(Feed(r, lines[0]).value, lines[1..]);
    }
  }

  /**
   Whatever the text, the downloads the parser returns are within every limit: their
   number, their URIs, and the number, keys and values of their options.
   */
  lemma {:induction false} ParsedIsBounded(text: string)
    requires Parse(text).Some?
    ensures var items := Parse(text).value;
            |items| <= MAX_DOWNLOADS && forall i :: 0 <= i < |items| ==> ItemRead(items[i])
  {
    AllFedOk(Reader([], None, 0), RawLines(text));
  }
}
