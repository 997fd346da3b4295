/**
 * Concrete comment lines from the repository's test and sample files, with
 * what the tokenizer makes of them. A tag line is written the way those
 * files lay it out (TagParser.TagLine): `@key`, a run of spaces, the words
 * with one space between them, then trailing whitespace.
 */
module TagParserVectors {
  import opened Wrappers
  import opened EcmaString
  import opened TagParser

  /** A `//` line: two slashes, then the text. */
  function SlashLine(text: string): string {
    "//" + text
  }

  // ---------------------------------------------------------------------------
  // The comment body of the Source unit test: a leading line feed, three tag
  // lines, `//` lines and blank lines between and after them.
  // ---------------------------------------------------------------------------

  const DescribeProp: seq<string> := ["hello", "word"]
  const TestProp: seq<string> := ["Source", "has", "to", "catch", "this", "one", "without", "trailing", "spaces"]
  const TestUpperProp: seq<string> :=
    ["but", "this", "one", "has", "to", "be", "catched", "and", "trim", "heading", "spaces"]

  /** `@describe hello word` */
  const Describe := TagLine("describe", " ", DescribeProp, "")
  /** `@test Source has to catch this one without trailing spaces`, then five spaces */
  const TestLine := TagLine("test", " ", TestProp, "     ")
  /** `@Test`, seven spaces, `but this one has to be catched and trim heading spaces` */
  const TestUpper := TagLine("Test", "       ", TestUpperProp, "")

  /** ` This line should be ignore` */
  const IgnoreWords: seq<string> := ["This", "line", "should", "be", "ignore"]
  /** ` This line and two blank lines right below it, too` */
  const BelowWords: seq<string> := ["This", "line", "and", "two", "blank", "lines", "right", "below", "it,", "too"]
  /** ` This line and a blank line right above it should be ignored` */
  const AboveWords: seq<string> := ["This", "line", "and", "a", "blank", "line", "right", "above", "it", "should", "be", "ignored"]

  const CommentsAfterDescribe: seq<string> :=
    [SlashLine(" " + JoinWords(IgnoreWords)), SlashLine(" " + JoinWords(BelowWords)), "", ""]
  const CommentsAfterTest: seq<string> :=
    ["", SlashLine(" " + JoinWords(AboveWords)), ""]
  const BlankTail: seq<string> := ["", "", "", ""]

  /** The fifteen lines of the Source test's comment body, in order. */
  const SourceLines: seq<string> :=
    [""] + [Describe] + CommentsAfterDescribe + [TestLine] + CommentsAfterTest + [TestUpper] + BlankTail

  /** Blank lines and `//` lines give no token. */
  lemma NoTagsIn(lines: seq<string>)
    requires forall k :: 0 <= k < |lines| ==> |lines[k]| == 0 || lines[k][0] == '/'
    ensures TokensOf(lines) == []
  {
    forall k | 0 <= k < |lines|
      ensures Tokenize(lines[k]).None?
    {
      if |lines[k]| == 0 {
        TokenizeBlank(lines[k]);
      } else {
        TokenizeSkips(lines[k]);
      }
    }
    DefinedNone(Tokenize, lines);
  }

  /** Three elements between stretches that keep nothing keep exactly their three results. */
  lemma {:induction false} KeepThree<A, B>(f: A -> Option<B>, a: seq<A>, x: A, c: seq<A>, y: A, e: seq<A>, z: A, g: seq<A>,
                                           tx: B, ty: B, tz: B)
    requires Defined(f, a) == [] && Defined(f, c) == [] && Defined(f, e) == [] && Defined(f, g) == []
    requires f(x) == Some(tx) && f(y) == Some(ty) && f(z) == Some(tz)
    ensures Defined(f, a + [x] + c + [y] + e + [z] + g) == [tx, ty, tz]
  {
    DefinedAppend(f, a + [x] + c + [y] + e + [z], g);
    DefinedAppend(f, a + [x] + c + [y] + e, [z]);
    DefinedAppend(f, a + [x] + c + [y], e);
    DefinedAppend(f, a + [x] + c, [y]);
    DefinedAppend(f, a + [x], c);
    DefinedAppend(f, a, [x]);
    assert [x][..0] == [] && [y][..0] == [] && [z][..0] == [];
  }

  lemma DescribeToken()
    ensures Tokenize(Describe) == Some(Token("describe", DescribeProp))
  {
    TokenizeTagLine("describe", " ", DescribeProp, "");
  }

  /** The five trailing spaces are trimmed away and make no empty word. */
  lemma TestToken()
    ensures Tokenize(TestLine) == Some(Token("test", TestProp))
  {
    TokenizeTagLine("test", " ", TestProp, "     ");
  }

  /** The seven spaces after the key make no empty word. */
  lemma TestUpperToken()
    ensures Tokenize(TestUpper) == Some(Token("Test", TestUpperProp))
  {
    TokenizeTagLine("Test", "       ", TestUpperProp, "");
  }

  lemma BlankStretches()
    ensures TokensOf([""]) == [] && TokensOf(BlankTail) == []
  {
    NoTagsIn([""]);
    NoTagsIn(BlankTail);
  }

  /** A `//` line gives no token. */
  lemma SlashLineSkipped(text: string)
    ensures Tokenize(SlashLine(text)) == None
  {
    var line := SlashLine(text);
    assert line[0] == '/';
    TokenizeSkips(line);
  }

  /** Four elements without a result keep nothing. */
  lemma NoneOfFour<A, B>(f: A -> Option<B>, w: A, x: A, y: A, z: A)
    requires f(w).None? && f(x).None? && f(y).None? && f(z).None?
    ensures Defined(f, [w, x, y, z]) == []
  {
    var s := [w, x, y, z];
    assert forall k :: 0 <= k < |s| ==> s[k] in {w, x, y, z};
    DefinedNone(f, s);
  }

  /** Three elements without a result keep nothing. */
  lemma NoneOfThree<A, B>(f: A -> Option<B>, x: A, y: A, z: A)
    requires f(x).None? && f(y).None? && f(z).None?
    ensures Defined(f, [x, y, z]) == []
  {
    var s := [x, y, z];
    assert forall k :: 0 <= k < |s| ==> s[k] in {x, y, z};
    DefinedNone(f, s);
  }

  /** Two lines without a token followed by two blank lines give no token. */
  lemma QuietFour(x: string, y: string)
    requires Tokenize(x) == None && Tokenize(y) == None
    ensures TokensOf([x, y, "", ""]) == []
  {
    TokenizeBlank("");
    NoneOfFour(Tokenize, x, y, "", "");
  }

  /** A line without a token between two blank lines gives no token. */
  lemma QuietBetweenBlanks(x: string)
    requires Tokenize(x) == None
    ensures TokensOf(["", x, ""]) == []
  {
    TokenizeBlank("");
    NoneOfThree(Tokenize, "", x, "");
  }

  lemma CommentsAfterDescribeQuiet()
    ensures TokensOf(CommentsAfterDescribe) == []
  {
    SlashLineSkipped(" " + JoinWords(IgnoreWords));
    SlashLineSkipped(" " + JoinWords(BelowWords));
    QuietFour(SlashLine(" " + JoinWords(IgnoreWords)), SlashLine(" " + JoinWords(BelowWords)));
  }

  lemma CommentsAfterTestQuiet()
    ensures TokensOf(CommentsAfterTest) == []
  {
    SlashLineSkipped(" " + JoinWords(AboveWords));
    QuietBetweenBlanks(SlashLine(" " + JoinWords(AboveWords)));
  }

  /**
   * The Source unit test: of the fifteen lines of its comment body exactly
   * the three tag lines give tokens, in order, with keys `describe`, `test`
   * and `Test`; blank lines and `//` lines are skipped.
   */
  lemma SourceScenario()
    ensures TokensOf(SourceLines) ==
      [Token("describe", DescribeProp), Token("test", TestProp), Token("Test", TestUpperProp)]
  {
    BlankStretches();
    CommentsAfterDescribeQuiet();
    CommentsAfterTestQuiet();
    DescribeToken();
    TestToken();
    TestUpperToken();
    KeepThree(Tokenize, [""], Describe, CommentsAfterDescribe, TestLine, CommentsAfterTest, TestUpper, BlankTail,
      Token("describe", DescribeProp), Token("test", TestProp), Token("Test", TestUpperProp));
  }

  /** The expected `value` of the `@describe` entry is its `prop` words joined by single spaces. */
  lemma DescribeValue()
    ensures JoinWords(DescribeProp) == "hello word"
  {
  }

  /** Words without line feeds, joined by spaces, hold no line feed. */
  lemma {:induction false} JoinWordsNoFeed(ws: seq<string>)
    requires forall k :: 0 <= k < |ws| ==> '\n' !in ws[k]
    ensures '\n' !in JoinWords(ws)
  {
    if |ws| > 1 {
      JoinWordsNoFeed(ws[1..]);
    }
  }

  /** A tag line built from pieces without line feeds holds none. */
  lemma TagLineNoFeed(key: string, gap: string, prop: seq<string>, trail: string)
    requires '\n' !in key && '\n' !in gap && '\n' !in trail
    requires forall k :: 0 <= k < |prop| ==> '\n' !in prop[k]
    ensures '\n' !in TagLine(key, gap, prop, trail)
  {
    JoinWordsNoFeed(prop);
  }

  /** A `//` line made of words without line feeds holds none. */
  lemma CommentNoFeed(ws: seq<string>)
    requires forall k :: 0 <= k < |ws| ==> '\n' !in ws[k]
    ensures '\n' !in SlashLine(" " + JoinWords(ws))
  {
    JoinWordsNoFeed(ws);
  }

  predicate NoFeeds(lines: seq<string>) {
    forall k :: 0 <= k < |lines| ==> '\n' !in lines[k]
  }

  lemma DescribeNoFeed()
    ensures '\n' !in Describe
  {
    TagLineNoFeed("describe", " ", DescribeProp, "");
  }

  lemma TestLineNoFeed()
    ensures '\n' !in TestLine
  {
    TagLineNoFeed("test", " ", TestProp, "     ");
  }

  lemma TestUpperNoFeed()
    ensures '\n' !in TestUpper
  {
    TagLineNoFeed("Test", "       ", TestUpperProp, "");
  }

  /** Two `//` lines and two blank lines: no line feed when the `//` lines hold none. */
  lemma CommentsFirstNoFeed(x: string, y: string)
    requires '\n' !in x && '\n' !in y
    ensures NoFeeds([x, y, "", ""])
  {
  }

  /** A blank line, a `//` line and a blank line: no line feed when the `//` line holds none. */
  lemma CommentsSecondNoFeed(x: string)
    requires '\n' !in x
    ensures NoFeeds(["", x, ""])
  {
  }

  lemma CommentsAfterDescribeNoFeed()
    ensures NoFeeds(CommentsAfterDescribe)
  {
    CommentNoFeed(IgnoreWords);
    CommentNoFeed(BelowWords);
    CommentsFirstNoFeed(SlashLine(" " + JoinWords(IgnoreWords)), SlashLine(" " + JoinWords(BelowWords)));
  }

  lemma CommentsAfterTestNoFeed()
    ensures NoFeeds(CommentsAfterTest)
  {
    CommentNoFeed(AboveWords);
    CommentsSecondNoFeed(SlashLine(" " + JoinWords(AboveWords)));
  }

  /** A body laid out like the Source test's holds no line feed when none of its stretches does. */
  lemma BodyNoFeed(d: string, cs: seq<string>, t: string, es: seq<string>, u: string)
    requires '\n' !in d && '\n' !in t && '\n' !in u && NoFeeds(cs) && NoFeeds(es)
    ensures NoFeeds([""] + [d] + cs + [t] + es + [u] + BlankTail)
  {
    var lines := [""] + [d] + cs + [t] + es + [u] + BlankTail;
    forall k | 0 <= k < |lines|
      ensures '\n' !in lines[k]
    {
      var i := 2 + |cs|;
      var j := i + 1 + |es|;
      if 2 <= k < i {
        assert lines[k] == cs[k - 2];
      } else if i + 1 <= k < j {
        assert lines[k] == es[k - i - 1];
      } else if j < k {
        assert lines[k] == BlankTail[k - j - 1];
      }
    }
  }

  /** No line of the body holds a line feed. */
  lemma SourceLinesNoFeed()
    ensures NoFeeds(SourceLines)
  {
    DescribeNoFeed();
    TestLineNoFeed();
    TestUpperNoFeed();
    CommentsAfterDescribeNoFeed();
    CommentsAfterTestNoFeed();
    BodyNoFeed(Describe, CommentsAfterDescribe, TestLine, CommentsAfterTest, TestUpper);
  }

  /** The comment body itself, split on line feeds and scanned, gives the same three tokens. */
  lemma SourceBody()
    ensures TokensOf(SplitLines(JoinLines(SourceLines))) ==
      [Token("describe", DescribeProp), Token("test", TestProp), Token("Test", TestUpperProp)]
  {
    SourceLinesNoFeed();
    SplitJoinLines(SourceLines);
    SourceScenario();
  }

  // ---------------------------------------------------------------------------
  // Lines of the sample comment bodies
  // ---------------------------------------------------------------------------

  /** `@type     number`: the run of spaces makes no empty word. */
  lemma TypeNumber()
    ensures Tokenize(TagLine("type", "     ", ["number"], "")) == Some(Token("type", ["number"]))
  {
    TokenizeTagLine("type", "     ", ["number"], "");
  }

  /** `@property    units required` */
  lemma PropertyUnits()
    ensures Tokenize(TagLine("property", "    ", ["units", "required"], "")) == Some(Token("property", ["units", "required"]))
  {
    TokenizeTagLine("property", "    ", ["units", "required"], "");
  }

  /** A line that is only `@` gives the empty key and no words. */
  lemma BareAt()
    ensures Tokenize("@") == Some(Token("", []))
  {
    var line := TagLine("", "", [], "");
    assert line == "@" by {
      assert JoinWords([]) == [];
    }
    TokenizeTagLine("", "", [], "");
  }

  /** Punctuation stays in the key: `@activation: Activation function ...` has the key `activation:`. */
  lemma ActivationKey()
    ensures var t := Tokenize(ActivationLine); t.Some? && t.value.key == "activation:"
  {
    assert ActivationLine[..13] == "@activation: ";
    TokenizeKey(ActivationLine, "activation:");
  }

  const ActivationLine := "@activation: " + ActivationText
  const ActivationText :=
    "Activation function to use (see activations). If you don't specify anything, no activation is applied (ie. \"linear\" activation: a(x) = x)."

  /** Only the space separates: a tab stays inside the word, here inside the key. */
  lemma TabInsideWord()
    ensures Tokenize(TagLine("type\tnumber", "", [], "")) == Some(Token("type\tnumber", []))
  {
    TokenizeTagLine("type\tnumber", "", [], "");
  }

  /** The first and last lines of a `/* ... */` body hold only a space: no token. */
  lemma SpaceOnlyLine()
    ensures Tokenize(" ") == None
  {
    TokenizeBlank(" ");
  }
}
