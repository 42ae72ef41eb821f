/** Splitting, trimming and measuring strings as the standard library does. */
module Strings {
  import opened Collections

  /** Unicode white space. */
  predicate IsSpace(c: char)
  {
    || '\t' <= c <= '\r' || c == ' ' || c == '\U{85}' || c == '\U{A0}' || c == '\U{1680}'
    || '\U{2000}' <= c <= '\U{200A}' || c == '\U{2028}' || c == '\U{2029}' || c == '\U{202F}'
    || c == '\U{205F}' || c == '\U{3000}'
  }

  predicate HasSpace(s: string)
  {
    exists i :: 0 <= i < |s| && IsSpace(s[i])
  }

  /** The length in bytes of the UTF-8 encoding. */
  function Size(s: string): nat
  {
    if s == "" then 0
    else (if s[0] < '\U{80}' then 1 else if s[0] < '\U{800}' then 2 else if s[0] < '\U{10000}' then 3 else 4) + Size(s[1..])
  }

  lemma {:induction false} SizeConcat(a: string, b: string)
    ensures Size(a + b) == Size(a) + Size(b)
  {
    if a == "" {
      assert a + b == b;
    } else {
      assert (a + b)[1..] == a[1..] + b;
      SizeConcat(a[1..], b);
    }
  }

  // ----- trimming -----

  function TrimLeft(s: string): (r: string)
    ensures |r| <= |s|
    ensures r == "" || !IsSpace(r[0])
  {
    if s == "" then "" else if IsSpace(s[0]) then TrimLeft(s[1..]) else s
  }

  function TrimRight(s: string): (r: string)
    ensures |r| <= |s|
  {
    if s == "" then "" else if IsSpace(s[|s| - 1]) then TrimRight(s[..|s| - 1]) else s
  }

  function Trim(s: string): (r: string)
  {
    TrimRight(TrimLeft(s))
  }

  /** Neither end is white space. */
  predicate Trimmed(s: string)
  {
    s == "" || (!IsSpace(s[0]) && !IsSpace(s[|s| - 1]))
  }

  lemma TrimIsIdentity(s: string)
    ensures Trim(s) == s <==> Trimmed(s)
  {
    var l := TrimLeft(s);
    if s != "" && IsSpace(s[0]) {
      TrimRightShortens(TrimLeft(s[1..]));
      assert |Trim(s)| < |s|;
    } else if s != "" && IsSpace(s[|s| - 1]) {
      assert |TrimRight(s[..|s| - 1])| < |s|;
    }
  }

  lemma TrimRightShortens(s: string)
    ensures |TrimRight(s)| <= |s|
  {
  }

  predicate Blank(s: string)
  {
    forall i :: 0 <= i < |s| ==> IsSpace(s[i])
  }

  lemma {:induction false} TrimLeftPadded(a: string, s: string)
    requires Blank(a) && (s == "" || !IsSpace(s[0]))
    ensures TrimLeft(a + s) == s
  {
    if a == "" {
      assert a + s == s;
    } else {
      assert (a + s)[1..] == a[1..] + s;
      TrimLeftPadded(a[1..], s);
    }
  }

  lemma {:induction false} TrimRightPadded(s: string, b: string)
    requires Blank(b) && (s == "" || !IsSpace(s[|s| - 1]))
    ensures TrimRight(s + b) == s
  {
    if b == "" {
      assert s + b == s;
    } else {
      assert (s + b)[..|s + b| - 1] == s + b[..|b| - 1];
      TrimRightPadded(s, b[..|b| - 1]);
    }
  }

  /** White space around a text is what trimming takes away. */
  lemma TrimPadded(a: string, s: string, b: string)
    requires Blank(a) && Blank(b) && Trimmed(s)
    ensures Trim(a + s + b) == s
  {
    if s == "" {
      assert a + s + b == (a + b) + "";
      TrimLeftPadded(a + b, "");
    } else {
      assert a + s + b == a + (s + b);
      TrimLeftPadded(a, s + b);
      TrimRightPadded(s, b);
    }
  }

  lemma {:induction false} TrimRightKeepsFirst(s: string)
    requires s != "" && !IsSpace(s[0])
    ensures TrimRight(s) != "" && TrimRight(s)[0] == s[0]
  {
    if IsSpace(s[|s| - 1]) {
      TrimRightKeepsFirst(s[..|s| - 1]);
    }
  }

  // ----- fields -----

  /** The first index of white space, or the length. */
  function SpaceIndex(s: string): (i: nat)
    ensures i <= |s|
    ensures i < |s| ==> IsSpace(s[i])
    ensures forall j :: 0 <= j < i ==> !IsSpace(s[j])
  {
    if s == "" then 0 else if IsSpace(s[0]) then 0 else 1 + SpaceIndex(s[1..])
  }

  /** The maximal runs without white space. */
  function Fields(s: string): (r: seq<string>)
    decreases |s|
  {
    var t := TrimLeft(s);
    if t == "" then [] else
    var n := SpaceIndex(t);
    [t[..n]] + Fields(t[n..])
  }

  predicate Word(s: string)
  {
    s != "" && !HasSpace(s)
  }

  function JoinTabs(words: seq<string>): string
    requires words != []
  {
    if |words| == 1 then words[0] else words[0] + "\t" + JoinTabs(words[1..])
  }

  lemma {:induction false} JoinedEnds(words: seq<string>)
    requires words != [] && forall i :: 0 <= i < |words| ==> Word(words[i])
    ensures var joined := JoinTabs(words);
            && joined != "" && words[0] != "" && joined[0] == words[0][0] && Trimmed(joined) && '\n' !in joined
  {
    assert Word(words[0]) && !IsSpace(words[0][0]) && !IsSpace(words[0][|words[0]| - 1]);
    assert '\n' !in words[0];
    if |words| > 1 {
      JoinedEnds(words[1..]);
      var rest := JoinTabs(words[1..]);
      assert JoinTabs(words)[|JoinTabs(words)| - 1] == rest[|rest| - 1];
    }
  }

  lemma FieldsAfterSpace(c: char, s: string)
    requires IsSpace(c)
    ensures Fields([c] + s) == Fields(s)
  {
    assert ([c] + s)[1..] == s;
    assert TrimLeft([c] + s) == TrimLeft(s);
  }

  lemma WordThenSpace(word: string, rest: string)
    requires Word(word) && (rest == "" || IsSpace(rest[0]))
    ensures Fields(word + rest) == [word] + Fields(rest)
  {
    var s := word + rest;
    assert s[0] == word[0] && !IsSpace(word[0]);
    var n := SpaceIndex(s);
    assert rest != "" ==> s[|word|] == rest[0];
    assert s[..n] == word && s[n..] == rest;
  }

  /** Words joined by tabs are read back as the same words. */
  lemma {:induction false} FieldsOfJoined(words: seq<string>)
    requires words != [] && forall i :: 0 <= i < |words| ==> Word(words[i])
    ensures Fields(JoinTabs(words)) == words
  {
    if |words| == 1 {
      assert words[0] + "" == words[0];
      WordThenSpace(words[0], "");
    } else {
      var rest := JoinTabs(words[1..]);
      FieldsOfJoined(words[1..]);
      assert words[0] + "\t" + rest == words[0] + (['\t'] + rest);
      WordThenSpace(words[0], ['\t'] + rest);
      FieldsAfterSpace('\t', rest);
      assert words == [words[0]] + words[1..];
    }
  }

  /** Words with gaps around and between them. */
  function Spaced(words: seq<string>, gaps: seq<string>): string
    requires |gaps| == |words| + 1
  {
    if words == [] then gaps[0] else gaps[0] + words[0] + Spaced(words[1..], gaps[1..])
  }

  ghost predicate GapsOk(words: seq<string>, gaps: seq<string>)
  {
    && |gaps| == |words| + 1 && (forall i :: 0 <= i < |words| ==> Word(words[i]))
    && (forall i :: 0 <= i < |gaps| ==> Blank(gaps[i])) && (forall i :: 0 < i < |words| ==> gaps[i] != "")
  }

  lemma {:induction false} FieldsAfterGap(gap: string, s: string)
    requires Blank(gap)
    ensures Fields(gap + s) == Fields(s)
  {
    if gap == "" {
      assert gap + s == s;
    } else {
      assert gap + s == [gap[0]] + (gap[1..] + s);
      FieldsAfterSpace(gap[0], gap[1..] + s);
      FieldsAfterGap(gap[1..], s);
    }
  }

  /** Words are found again whatever white space stands around and between them. */
  lemma {:induction false} FieldsOfSpaced(words: seq<string>, gaps: seq<string>)
    requires GapsOk(words, gaps)
    ensures Fields(Spaced(words, gaps)) == words
    decreases |words|
  {
    if words == [] {
      assert gaps[0] == gaps[0] + "";
      FieldsAfterGap(gaps[0], "");
    } else {
      var rest := Spaced(words[1..], gaps[1..]);
      FieldsOfSpaced(words[1..], gaps[1..]);
      assert Spaced(words, gaps) == gaps[0] + (words[0] + rest);
      FieldsAfterGap(gaps[0], words[0] + rest);
      assert rest == "" || IsSpace(rest[0]);
      WordThenSpace(words[0], rest);
      assert words == [words[0]] + words[1..];
    }
  }

  // ----- separators -----

  /** The parts between the occurrences of `c`, one more than there are occurrences. */
  function Split(s: string, c: char): seq<string>
    decreases |s|
  {
    var i := IndexOf(s, c);
    if i == |s| then [s] else [s[..i]] + Split(s[i + 1..], c)
  }

  lemma SplitAt(a: string, c: char, b: string)
    requires c !in a
    ensures Split(a + [c] + b, c) == [a] + Split(b, c)
  {
    var s := a + [c] + b;
    assert s[|a|] == c;
    var i := IndexOf(s, c);
    assert i == |a|;
    assert s[..i] == a && s[i + 1..] == b;
  }

  lemma SplitWhole(a: string, c: char)
    requires c !in a
    ensures Split(a, c) == [a]
  {
    assert IndexOf(a, c) == |a|;
  }

  // ----- lines -----

  function DropReturn(line: string): string
  {
    if line != "" && line[|line| - 1] == '\r' then line[..|line| - 1] else line
  }

  /** The lines of a text, each as it stands before its line feed. */
  function RawLines(text: string): seq<string>
    decreases |text|
  {
    if text == "" then [] else
    var i := IndexOf(text, '\n');
    if i == |text| then [text] else [text[..i]] + RawLines(text[i + 1..])
  }

  function Unlines(lines: seq<string>): string
  {
    if lines == [] then "" else lines[0] + "\n" + Unlines(lines[1..])
  }

  predicate OneLine(line: string)
  {
    '\n' !in line && (line == "" || line[|line| - 1] != '\r')
  }

  lemma FirstLine(line: string, rest: string)
    requires '\n' !in line
    ensures RawLines(line + "\n" + rest) == [line] + RawLines(rest)
  {
    var text := line + "\n" + rest;
    var i := IndexOf(text, '\n');
    assert text[|line|] == '\n';
    assert i == |line|;
    assert text[..i] == line && text[i + 1..] == rest;
  }

  lemma {:induction false} LinesOfUnlines(lines: seq<string>)
    requires forall i :: 0 <= i < |lines| ==> OneLine(lines[i])
    ensures RawLines(Unlines(lines)) == lines
  {
    if lines != [] {
      assert OneLine(lines[0]);
      FirstLine(lines[0], Unlines(lines[1..]));
      LinesOfUnlines(lines[1..]);
      assert lines == [lines[0]] + lines[1..];
    }
  }

  lemma {:induction false} UnlinesConcat(a: seq<string>, b: seq<string>)
    ensures Unlines(a + b) == Unlines(a) + Unlines(b)
  {
    if a == [] {
      assert a + b == b;
    } else {
      assert (a + b)[1..] == a[1..] + b;
      UnlinesConcat(a[1..], b);
    }
  }

  lemma {:induction false} SmallSize(s: string)
    ensures Size(s) <= 4 * |s|
  {
    if s != "" {
      SmallSize(s[1..]);
    }
  }
}
