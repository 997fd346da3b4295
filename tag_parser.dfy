/**
 * The tag-line tokenizer of index.js: `parseLine` trims a comment line, splits
 * it into words separated by the space character, and turns a line whose first
 * word starts with `@` into a token; the scan applies it to every line of one
 * comment body and keeps the tokens in order.
 */
module TagParser {
  import opened Wrappers
  import opened EcmaString

  /** A tag line `@key word word ...`: the key without its `@`, and the words after it. */
  datatype Token = Token(key: string, prop: seq<string>)

  /** What the character loop collects: non-empty and free of the space character. */
  predicate IsWord(w: string) {
    w != [] && ' ' !in w
  }

  predicate AllWords(ws: seq<string>) {
    forall k :: 0 <= k < |ws| ==> IsWord(ws[k])
  }

  // ---------------------------------------------------------------------------
  // Reference definitions: words of a line, joining, collapsing runs of spaces
  // ---------------------------------------------------------------------------

  /** Where the first word of `s` ends: the first space, or the end of `s`. */
  function WordEnd(s: string): (n: nat)
    ensures n <= |s| && ' ' !in s[..n]
    ensures n == |s| || s[n] == ' '
    ensures n == 0 <==> (s == [] || s[0] == ' ')
  {
    if s == [] || s[0] == ' ' then 0
    else
      var n := 1 + WordEnd(s[1..]);
      assert s[..n] == [s[0]] + s[1..][..n - 1];
      n
  }

  /**
   * The words of `s`: the maximal runs of characters other than the space
   * character, left to right. Only ' ' separates; a tab or any other character
   * stays inside its word.
   */
  function SplitOnSpaces(s: string): (ws: seq<string>)
    ensures AllWords(ws)
    decreases |s|
  {
    if s == [] then []
    else if s[0] == ' ' then SplitOnSpaces(s[1..])
    else
      var n := WordEnd(s);
      [s[..n]] + SplitOnSpaces(s[n..])
  }

  /** The words with one space between neighbours (Array.prototype.join(' ')). */
  function JoinWords(ws: seq<string>): string {
    if ws == [] then []
    else if |ws| == 1 then ws[0]
    else ws[0] + " " + JoinWords(ws[1..])
  }

  /** `s` with every run of space characters shortened to a single space. */
  function CollapseSpaces(s: string): string {
    if |s| < 2 then s
    else if s[0] == ' ' && s[1] == ' ' then CollapseSpaces(s[1..])
    else [s[0]] + CollapseSpaces(s[1..])
  }

  /** `s` without its space characters. */
  function RemoveSpaces(s: string): string {
    if s == [] then []
    else (if s[0] == ' ' then [] else [s[0]]) + RemoveSpaces(s[1..])
  }

  /** The words written one after another. */
  function Concat(ws: seq<string>): string {
    if ws == [] then [] else ws[0] + Concat(ws[1..])
  }

  // ---------------------------------------------------------------------------
  // Lemmas about the words of a line
  // ---------------------------------------------------------------------------

  /** A word followed by nothing or by a space is the first word of the line. */
  lemma {:induction false} SplitWordThen(w: string, t: string)
    requires IsWord(w) && (t == [] || t[0] == ' ')
    ensures SplitOnSpaces(w + t) == [w] + SplitOnSpaces(t)
  {
    var s := w + t;
    assert s[..|w|] == w && s[|w|..] == t;
    WordEndAt(s, |w|);
  }

  /** The first word ends at `m` when no space comes before `m` and a space or the end of the line is at `m`. */
  lemma {:induction false} WordEndAt(s: string, m: nat)
    requires m <= |s| && ' ' !in s[..m] && (m == |s| || s[m] == ' ')
    ensures WordEnd(s) == m
  {
    if m > 0 {
      assert s[0] == s[..m][0];
      assert s[1..][..m - 1] == s[..m][1..];
      WordEndAt(s[1..], m - 1);
    }
  }

  /** Splitting words joined by single spaces gives the same words back. */
  lemma {:induction false} SplitJoinWords(ws: seq<string>)
    requires AllWords(ws)
    ensures SplitOnSpaces(JoinWords(ws)) == ws
  {
    if |ws| == 1 {
      SplitWordThen(ws[0], []);
      assert ws[0] + [] == ws[0];
    } else if |ws| > 1 {
      var rest := JoinWords(ws[1..]);
      assert JoinWords(ws) == ws[0] + (" " + rest);
      SplitWordThen(ws[0], " " + rest);
      assert (" " + rest)[1..] == rest;
      SplitJoinWords(ws[1..]);
      assert [ws[0]] + ws[1..] == ws;
    }
  }

  /** Collapsing leaves a leading word untouched. */
  lemma {:induction false} CollapseWordPrefix(w: string, t: string)
    requires ' ' !in w
    ensures CollapseSpaces(w + t) == w + CollapseSpaces(t)
  {
    if w != [] {
      var s := w + t;
      if |s| >= 2 {
        assert s[0] == w[0] && s[1..] == w[1..] + t;
        CollapseWordPrefix(w[1..], t);
        assert [w[0]] + w[1..] == w;
      } else {
        assert w == [w[0]] && t == [];
      }
    } else {
      assert w + t == t;
    }
  }

  /**
   * For a line that neither starts nor ends with a space, joining its words by
   * single spaces gives the line with every run of spaces collapsed to one.
   */
  lemma {:induction false} JoinSplitCollapses(s: string)
    requires s == [] || (s[0] != ' ' && s[|s| - 1] != ' ')
    ensures JoinWords(SplitOnSpaces(s)) == CollapseSpaces(s)
    decreases |s|, 1
  {
    if s != [] {
      var n := WordEnd(s);
      var w, t := s[..n], s[n..];
      assert s == w + t;
      CollapseWordPrefix(w, t);
      if t == [] {
        assert SplitOnSpaces(s) == [w];
        assert w + [] == w;
      } else {
        assert t[|t| - 1] == s[|s| - 1];
        JoinSplitAfterSpace(t);
        var ws := SplitOnSpaces(t);
        assert SplitOnSpaces(s) == [w] + ws;
        assert ([w] + ws)[1..] == ws;
      }
    }
  }

  /** The tail of a line after a word: a run of spaces collapses to one, then the words follow. */
  lemma {:induction false} JoinSplitAfterSpace(s: string)
    requires s != [] && s[0] == ' ' && s[|s| - 1] != ' '
    ensures SplitOnSpaces(s) != []
    ensures CollapseSpaces(s) == " " + JoinWords(SplitOnSpaces(s))
    decreases |s|, 0
  {
    assert |s| >= 2;
    if s[1] == ' ' {
      JoinSplitAfterSpace(s[1..]);
    } else {
      JoinSplitCollapses(s[1..]);
      assert SplitOnSpaces(s[1..]) != [] by {
        assert WordEnd(s[1..]) > 0;
      }
    }
  }

  /** Spaces in front of the line produce no word: runs of spaces never make empty words. */
  lemma {:induction false} SplitSkipsSpaces(sp: string, t: string)
    requires forall k :: 0 <= k < |sp| ==> sp[k] == ' '
    ensures SplitOnSpaces(sp + t) == SplitOnSpaces(t)
  {
    if sp != [] {
      assert (sp + t)[0] == ' ' && (sp + t)[1..] == sp[1..] + t;
      SplitSkipsSpaces(sp[1..], t);
    } else {
      assert sp + t == t;
    }
  }

  /** Spaces are removed independently on each side of a concatenation. */
  lemma {:induction false} RemoveSpacesAppend(a: string, b: string)
    ensures RemoveSpaces(a + b) == RemoveSpaces(a) + RemoveSpaces(b)
  {
    if a == [] {
      assert a + b == b;
    } else {
      assert (a + b)[1..] == a[1..] + b;
      RemoveSpacesAppend(a[1..], b);
    }
  }

  /** A string without spaces loses nothing. */
  lemma {:induction false} RemoveSpacesOfWord(w: string)
    requires ' ' !in w
    ensures RemoveSpaces(w) == w
  {
    if w != [] {
      RemoveSpacesOfWord(w[1..]);
      assert [w[0]] + w[1..] == w;
    }
  }

  /**
   * The words hold every character of the line except the spaces, in the
   * order of the line: no other character is dropped, moved or treated as a
   * separator.
   */
  lemma {:induction false} SplitKeepsNonSpaces(s: string)
    ensures Concat(SplitOnSpaces(s)) == RemoveSpaces(s)
    decreases |s|
  {
    if s != [] {
      if s[0] == ' ' {
        SplitKeepsNonSpaces(s[1..]);
        assert RemoveSpaces(s) == RemoveSpaces(s[1..]);
      } else {
        var n := WordEnd(s);
        var w, t := s[..n], s[n..];
        assert s == w + t;
        SplitKeepsNonSpaces(t);
        RemoveSpacesAppend(w, t);
        RemoveSpacesOfWord(w);
        assert ([w] + SplitOnSpaces(t))[1..] == SplitOnSpaces(t);
      }
    }
  }

  // ---------------------------------------------------------------------------
  // parseLine
  // ---------------------------------------------------------------------------

  /**
   * What parseLine returns for `line`: the words of the trimmed line; a token
   * when the first word starts with `@`, and nothing otherwise. The key and
   * every word of `prop` are free of the space character, and no word is empty.
   */
  function Tokenize(line: string): (r: Option<Token>)
    ensures r.Some? ==> ' ' !in r.value.key && AllWords(r.value.prop)
  {
    var words := SplitOnSpaces(Trim(line));
    if |words| > 0 && words[0][0] == '@' then Some(Token(words[0][1..], words[1..])) else None
  }

  /**
   * One step of the character loop keeps its invariant: a space closes the
   * open word, any other character extends it.
   */
  lemma {:induction false} CollectStep(words: seq<string>, word: string, line: string, i: nat)
    requires i < |line| && ' ' !in word
    requires words + SplitOnSpaces(word + line[i..]) == SplitOnSpaces(line)
    ensures line[i] == ' ' && word != [] ==> (words + [word]) + SplitOnSpaces([] + line[i + 1..]) == SplitOnSpaces(line)
    ensures line[i] == ' ' && word == [] ==> words + SplitOnSpaces(word + line[i + 1..]) == SplitOnSpaces(line)
    ensures line[i] != ' ' ==> words + SplitOnSpaces((word + [line[i]]) + line[i + 1..]) == SplitOnSpaces(line)
  {
    var rest := line[i..];
    assert rest[0] == line[i] && rest[1..] == line[i + 1..] && [] + line[i + 1..] == line[i + 1..];
    if line[i] == ' ' {
      if word == [] {
        assert word + rest == rest;
      } else {
        SplitWordThen(word, rest);
        assert words + ([word] + SplitOnSpaces(rest[1..])) == (words + [word]) + SplitOnSpaces(rest[1..]);
      }
    } else {
      assert word + rest == (word + [line[i]]) + line[i + 1..];
    }
  }

  /**
   * The character loop of parseLine: walks the trimmed line left to right,
   * extending the current word on every character other than a space and
   * closing it on a space; a word still open at the end is closed too.
   */
  method CollectWords(line: string) returns (words: seq<string>)
    ensures words == SplitOnSpaces(line)
  {
    var isWord := false;
    words := [];
    var word: string := "";
    assert word + line[0..] == line;
    for i := 0 to |line|
      invariant isWord <==> word != []
      invariant ' ' !in word
      invariant words + SplitOnSpaces(word + line[i..]) == SplitOnSpaces(line)
    {
      CollectStep(words, word, line, i);
      if line[i] == ' ' {
        if isWord {
          isWord := false;
          words := words + [word];
          word := "";
        }
      } else {
        if !isWord {
          isWord := true;
        }
        word := word + [line[i]];
      }
    }
    assert word + line[|line|..] == word;
    if word != [] {
      SplitWordThen(word, []);
      assert word + [] == word;
      words := words + [word];
    }
  }

  /**
   * parseLine: trims the line, collects its words, and gives a token when the
   * first word starts with `@`.
   */
  method ParseLine(rawLine: string) returns (t: Option<Token>)
    ensures t == Tokenize(rawLine)
  {
    var line := Trim(rawLine);
    var words := CollectWords(line);
    if |words| > 0 && words[0][0] == '@' {
      t := Some(Token(words[0][1..], words[1..]));
    } else {
      t := None;
    }
  }

  /** A line gives a token exactly when, once trimmed, it is not empty and starts with `@`. */
  lemma {:induction false} TokenizeAccepts(line: string)
    ensures Tokenize(line).Some? <==> (Trim(line) != [] && Trim(line)[0] == '@')
  {
    var s := Trim(line);
    if s != [] {
      assert s[0] != ' ';
      var n := WordEnd(s);
      assert SplitOnSpaces(s)[0] == s[..n];
    }
  }

  /**
   * The key is the first word of the trimmed line (up to the first space or
   * the end) without its `@`; `prop` is the words of the rest of the line.
   */
  lemma {:induction false} TokenizeFields(line: string)
    requires Tokenize(line).Some?
    ensures var s := Trim(line); var n := WordEnd(s);
      1 <= n && Tokenize(line).value.key == s[1..n] && Tokenize(line).value.prop == SplitOnSpaces(s[n..])
  {
    var s := Trim(line);
    TokenizeAccepts(line);
    assert s[0] != ' ';
  }

  /** Joining `@key` and the prop words with single spaces rebuilds the trimmed line, runs of spaces collapsed. */
  lemma {:induction false} TokenizeRebuildsLine(line: string)
    requires Tokenize(line).Some?
    ensures var t := Tokenize(line).value;
      JoinWords(["@" + t.key] + t.prop) == CollapseSpaces(Trim(line))
  {
    var s := Trim(line);
    JoinSplitCollapses(s);
    RestoreAt(SplitOnSpaces(s));
  }

  /** Putting the `@` back in front of the key gives the words of the line back. */
  lemma RestoreAt(words: seq<string>)
    requires |words| > 0 && |words[0]| > 0 && words[0][0] == '@'
    ensures JoinWords(["@" + words[0][1..]] + words[1..]) == JoinWords(words)
  {
    assert "@" + words[0][1..] == words[0];
    assert [words[0]] + words[1..] == words;
  }

  /** Joined words start with the first character of the first word and end with the last character of the last word. */
  lemma {:induction false} JoinWordsEnds(ws: seq<string>)
    requires |ws| > 0 && forall k :: 0 <= k < |ws| ==> ws[k] != []
    ensures JoinWords(ws) != [] && JoinWords(ws)[0] == ws[0][0]
    ensures JoinWords(ws)[|JoinWords(ws)| - 1] == ws[|ws| - 1][|ws[|ws| - 1]| - 1]
  {
    if |ws| > 1 {
      JoinWordsEnds(ws[1..]);
      assert JoinWords(ws) == ws[0] + (" " + JoinWords(ws[1..]));
    }
  }

  /**
   * A tag line as the source files lay it out: `@key`, a run of spaces (none
   * when no word follows), the words with one space between neighbours, then
   * trailing whitespace.
   */
  function TagLine(key: string, gap: string, prop: seq<string>, trail: string): string {
    "@" + key + gap + JoinWords(prop) + trail
  }

  /** The conditions under which TagLine lays out a token faithfully. */
  predicate WellLaidOut(key: string, gap: string, prop: seq<string>, trail: string) {
    && ' ' !in key && AllWords(prop)
    && (forall j :: 0 <= j < |gap| ==> gap[j] == ' ') && (gap != [] <==> prop != [])
    && (prop == [] ==> key == [] || !IsWhitespace(key[|key| - 1]))
    && (prop != [] ==> !IsWhitespace(prop[|prop| - 1][|prop[|prop| - 1]| - 1]))
    && AllWhitespace(trail)
  }

  /** Before the trailing whitespace, a well laid-out tag line neither starts nor ends with whitespace. */
  lemma {:induction false} TagLineTrimmed(key: string, gap: string, prop: seq<string>)
    requires WellLaidOut(key, gap, prop, [])
    ensures Trimmed("@" + key + gap + JoinWords(prop))
  {
    var body := "@" + key + gap + JoinWords(prop);
    assert body[0] == '@';
    if prop == [] {
      if key != [] { assert body[|body| - 1] == key[|key| - 1]; }
    } else {
      assert forall k :: 0 <= k < |prop| ==> prop[k] != [] by {
        assert AllWords(prop);
      }
      JoinWordsEnds(prop);
      var last := prop[|prop| - 1];
      assert body[|body| - 1] == JoinWords(prop)[|JoinWords(prop)| - 1] == last[|last| - 1];
    }
  }

  /** The words of a well laid-out tag line: `@key`, then the words of `prop`. */
  lemma {:induction false} TagLineWords(key: string, gap: string, prop: seq<string>)
    requires WellLaidOut(key, gap, prop, [])
    ensures SplitOnSpaces("@" + key + gap + JoinWords(prop)) == ["@" + key] + prop
  {
    var first, rest := "@" + key, gap + JoinWords(prop);
    assert "@" + key + gap + JoinWords(prop) == first + rest;
    assert ' ' !in first by {
      forall j | 0 <= j < |first| ensures first[j] != ' ' {
        if j > 0 { assert first[j] == key[j - 1]; }
      }
    }
    SplitWordThen(first, rest);
    if prop == [] {
      assert rest == [];
    } else {
      SplitSkipsSpaces(gap, JoinWords(prop));
      SplitJoinWords(prop);
    }
  }

  /** A well laid-out tag line gives the token of its key and exactly its words. */
  lemma {:induction false} TokenizeTagLine(key: string, gap: string, prop: seq<string>, trail: string)
    requires WellLaidOut(key, gap, prop, trail)
    ensures Tokenize(TagLine(key, gap, prop, trail)) == Some(Token(key, prop))
  {
    var body := "@" + key + gap + JoinWords(prop);
    TagLineTrimmed(key, gap, prop);
    TagLineWords(key, gap, prop);
    TrimDropsTrailing(body, trail);
    var words := ["@" + key] + prop;
    assert words[0][0] == '@' && words[0][1..] == key && words[1..] == prop;
  }

  /** A line that starts with `@key` and a space: `@key` is its prefix, a space follows, and neither end of `@key` is whitespace. */
  lemma {:induction false} KeyLineHead(line: string, key: string)
    requires ' ' !in key && (key == [] || !IsWhitespace(key[|key| - 1]))
    requires |key| + 2 <= |line| && line[..|key| + 2] == "@" + key + " "
    ensures line[..|key| + 1] == "@" + key && line[|key| + 1] == ' ' && ' ' !in "@" + key
    ensures !IsWhitespace(line[0]) && !IsWhitespace(line[|key|])
  {
    var first, head := "@" + key, line[..|key| + 2];
    assert head == first + " ";
    assert line[..|first|] == head[..|first|] == first by {
      assert (first + " ")[..|first|] == first;
    }
    assert line[|first|] == head[|first|] == ' ';
    assert line[0] == first[0] == '@';
    if key != [] {
      assert line[|first| - 1] == first[|first| - 1] == key[|key| - 1];
    }
    assert ' ' !in first by {
      forall j | 0 <= j < |first| ensures first[j] != ' ' {
        if j > 0 { assert first[j] == key[j - 1]; }
      }
    }
  }

  /** A prefix of the line that is at least as long as the line's first word keeps that word, then a space or nothing. */
  lemma {:induction false} PrefixAfterWord(s: string, line: string, first: string)
    requires |first| <= |s| <= |line| && s == line[..|s|] && line[..|first|] == first
    requires |first| < |line| && line[|first|] == ' '
    ensures s == first + s[|first|..] && (s[|first|..] == [] || s[|first|..][0] == ' ')
  {
    assert s[..|first|] == line[..|first|];
    if |s| > |first| {
      assert s[|first|..][0] == s[|first|] == line[|first|];
    }
  }

  /** The first word of a line that starts with `@key` and a space is `@key`, whatever follows. */
  lemma {:induction false} KeyLineFirstWord(line: string, key: string)
    requires ' ' !in key && (key == [] || !IsWhitespace(key[|key| - 1]))
    requires |key| + 2 <= |line| && line[..|key| + 2] == "@" + key + " "
    ensures var ws := SplitOnSpaces(Trim(line)); |ws| > 0 && ws[0] == "@" + key
  {
    var first := "@" + key;
    KeyLineHead(line, key);
    TrimKeepsHead(line, |first|);
    var s := Trim(line);
    PrefixAfterWord(s, line, first);
    SplitWordThen(first, s[|first|..]);
  }

  /** Whatever follows the first space, the key is what stands between `@` and that space. */
  lemma {:induction false} TokenizeKey(line: string, key: string)
    requires ' ' !in key && (key == [] || !IsWhitespace(key[|key| - 1]))
    requires |key| + 2 <= |line| && line[..|key| + 2] == "@" + key + " "
    ensures Tokenize(line).Some? && Tokenize(line).value.key == key
  {
    KeyLineFirstWord(line, key);
    FirstWordKey(line, key);
  }

  /** A line whose first word is `@key` gives a token with that key. */
  lemma {:induction false} FirstWordKey(line: string, key: string)
    requires var ws := SplitOnSpaces(Trim(line)); |ws| > 0 && ws[0] == "@" + key
    ensures Tokenize(line).Some? && Tokenize(line).value.key == key
  {
    var first := "@" + key;
    assert first[0] == '@' && first[1..] == key;
  }

  /** A line whose first character is neither whitespace nor `@` gives no token. */
  lemma {:induction false} TokenizeSkips(line: string)
    requires line != [] && !IsWhitespace(line[0]) && line[0] != '@'
    ensures Tokenize(line) == None
  {
    TrimKeepsFirst(line);
    TokenizeAccepts(line);
  }

  /** A line of whitespace only gives no token. */
  lemma {:induction false} TokenizeBlank(line: string)
    requires AllWhitespace(line)
    ensures Tokenize(line) == None
  {
    TrimAllWhitespace(line);
  }

  /** Whitespace around the line does not matter: tokenizing the trimmed line gives the same result. */
  lemma {:induction false} TokenizeIgnoresSurrounding(line: string)
    ensures Tokenize(line) == Tokenize(Trim(line))
  {
    TrimIdempotent(line);
  }

  // ---------------------------------------------------------------------------
  // The scan over one comment body
  // ---------------------------------------------------------------------------

  /**
   * The tokens of the given lines that parseLine accepts, in line order: at
   * most one per line, and each of them what parseLine returns for some line.
   */
  function TokensOf(lines: seq<string>): (tokens: seq<Token>)
    ensures |tokens| <= |lines|
    ensures forall j :: 0 <= j < |tokens| ==> exists i :: 0 <= i < |lines| && Tokenize(lines[i]) == Some(tokens[j])
  {
    Defined(Tokenize, lines)
  }

  /** Runs parseLine on every line in order, keeping the tokens it returns. */
  method ScanLines(lines: seq<string>) returns (tokens: seq<Token>)
    ensures tokens == TokensOf(lines)
  {
    tokens := [];
    for i := 0 to |lines|
      invariant tokens == TokensOf(lines[..i])
    {
      var t := ParseLine(lines[i]);
      DefinedStep(Tokenize, lines, i);
      if t.Some? {
        tokens := tokens + [t.value];
      }
    }
    assert lines[..|lines|] == lines;
  }

  /** The scan of one comment body: splits it on line feeds and scans the lines. */
  method ScanComment(body: string) returns (tokens: seq<Token>)
    ensures tokens == TokensOf(SplitLines(body))
  {
    tokens := ScanLines(SplitLines(body));
  }
}
