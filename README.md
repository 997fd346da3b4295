# Tag-line tokenizer of mentality-node-parser, in Dafny

mentality-node-parser reads block comments in which each line may declare
an attribute as `@key word word ...`. The core of `index.js` does two things:

- `parseLine` trims one comment line. It walks the characters and collects
  the words that the space character separates. When the first word starts
  with `@`, it returns `{key, prop}`: `key` is the first word without its
  `@`, and `prop` is the list of the remaining words. Otherwise it returns
  `undefined`.
- The scan splits one comment body on line feeds and applies `parseLine` to
  every line in order.

This project models that core as follows:

- `Wrappers` holds the `Option` result (`None` stands for `undefined`). It
  also holds `Defined`, which keeps the present results of a sequence.
- `EcmaString` holds the two string built-ins the code relies on:
  - `String.prototype.trim`, section 21.1.3.25 of ECMAScript 2015. It strips
    the WhiteSpace of section 11.2 and the LineTerminator of section 11.3.
  - `String.prototype.split("\n")`.
- `TagParser` holds the tokenizer itself:
  - `ParseLine` is a method that runs the source's character loop in
    `CollectWords`. That loop uses the same `isWord`, `word` and `words`
    state and the same branches as the source.
  - Both methods are proved against the reference function `SplitOnSpaces`
    ("the maximal runs of non-space characters") and the specification
    function `Tokenize`.
  - The lemmas state what the tokenizer promises:
    - when a token comes out, and what its key and `prop` words are
    - the round trips between splitting and joining
    - that no character other than the space is lost or treated as a separator
    - that whitespace around the line is irrelevant
  - `ScanLines` and `ScanComment` are the scan loop, proved against `TokensOf`.
- `TagParserVectors` works through concrete lines:
  - the comment body of the Source unit test (`test.js`)
  - lines of the two sample files

## Model

| member | source | states |
|---|---|---|
| EcmaString.IsWhitespace | index.js:24 | the characters `trim` strips: the WhiteSpace and LineTerminator code points of ECMAScript |
| EcmaString.TrimStart | index.js:24 | the result is a suffix of the line that does not start with whitespace, and every character cut in front of it is whitespace: it starts at the first non-whitespace character, or is empty |
| EcmaString.TrimEnd | index.js:24 | the result is a prefix of the line that does not end with whitespace, and every character cut behind it is whitespace: it ends at the last non-whitespace character, or is empty |
| EcmaString.TrimStartCutsWhitespace | index.js:24 | everything cut from the front is whitespace |
| EcmaString.TrimEndCutsWhitespace | index.js:24 | everything cut from the back is whitespace |
| EcmaString.Trim | index.js:24 | `trim` is never longer than its input and neither starts nor ends with whitespace |
| EcmaString.TrimIsSlice | index.js:24 | `trim` keeps one contiguous slice of the line and cuts only whitespace on both sides |
| EcmaString.TrimOfTrimmed | index.js:24 | a line without whitespace at either end is left unchanged |
| EcmaString.TrimIdempotent | index.js:24 | trimming twice is the same as trimming once |
| EcmaString.TrimKeepsFirst | index.js:24 | a line whose first character is not whitespace keeps it as the first character of its trim |
| EcmaString.TrimDropsTrailing | index.js:24 | whitespace appended to a trimmed line is cut away again |
| EcmaString.TrimEndKeeps | index.js:24 | trimming the end keeps every character up to the last non-whitespace one |
| EcmaString.TrimKeepsHead | index.js:24 | a line that starts and ends its head with non-whitespace trims to a prefix of itself that contains the head |
| EcmaString.TrimAllWhitespace | index.js:24 | a line of whitespace only trims to the empty string |
| EcmaString.SplitLines | index.js:21 | `split('\n')` gives at least one piece, and no piece holds a line feed |
| EcmaString.JoinSplitLines | index.js:21 | joining the pieces with line feeds gives the comment body back |
| EcmaString.SplitJoinLines | index.js:21 | splitting lines without line feeds, once joined, gives the same lines back |
| EcmaString.SplitLinesNoFeed | index.js:21 | a string without a line feed is a single line |
| EcmaString.SplitLinesPrefix | index.js:21 | a prefix without line feeds, followed by a line feed, becomes the first line on its own |
| TagParser.WordEnd | index.js:29-44 | the first word ends at the first space or at the end of the line, and it is empty exactly when the line is empty or starts with a space |
| TagParser.SplitOnSpaces | index.js:29-48 | every collected word is non-empty and holds no space |
| TagParser.SplitWordThen | index.js:30-35 | a word followed by a space or by the end of the line is collected on its own, before the words of the rest |
| TagParser.WordEndAt | index.js:29-44 | the first word ends at the first space, or at the end of the line |
| TagParser.SplitJoinWords | index.js:29-48 | splitting words that were joined by single spaces gives the same words back |
| TagParser.CollapseWordPrefix | index.js:29-48 | collapsing runs of spaces leaves a leading word untouched |
| TagParser.JoinSplitCollapses | index.js:29-48 | for a line that neither starts nor ends with a space, joining its words with single spaces gives the line with every run of spaces collapsed to one |
| TagParser.JoinSplitAfterSpace | index.js:29-48 | after a word, a run of spaces and the words that follow collapse to one space followed by those words |
| TagParser.SplitSkipsSpaces | index.js:30-35 | spaces in front of the line produce no word, so no empty word is ever collected |
| TagParser.RemoveSpacesAppend | index.js:29-48 | removing spaces works independently on both sides of a concatenation |
| TagParser.RemoveSpacesOfWord | index.js:37-43 | a string without spaces loses nothing when spaces are removed |
| TagParser.SplitKeepsNonSpaces | index.js:29-48 | the words, written one after another, are the line without its spaces: only the space separates, and nothing else is dropped or reordered |
| TagParser.CollectStep | index.js:30-43 | one character of the loop keeps its invariant: a space closes the open word, and any other character extends it |
| TagParser.CollectWords | index.js:26-48 | the character loop collects exactly the words of the line, in order |
| TagParser.ParseLine | index.js:23-57 | parseLine returns exactly `Tokenize` of its line |
| TagParser.Tokenize | index.js:23-57 | what parseLine returns: a token whose key and `prop` words hold no space and whose words are non-empty, or nothing |
| TagParser.TokenizeAccepts | index.js:24-57 | a line gives a token exactly when its trim is non-empty and starts with `@`; otherwise it gives nothing |
| TagParser.TokenizeFields | index.js:51-55 | the key is the trimmed line from after `@` up to the first space, and `prop` is the words of the rest of the line |
| TagParser.TokenizeRebuildsLine | index.js:51-55 | `@key` and the `prop` words, joined by single spaces, rebuild the trimmed line with its runs of spaces collapsed |
| TagParser.JoinWordsEnds | index.js:29-48 | joined words start with the first word's first character and end with the last word's last character |
| TagParser.TagLineTrimmed | index.js:24 | a tag line laid out as `@key`, spaces and words neither starts nor ends with whitespace |
| TagParser.TagLineWords | index.js:29-48 | the words of such a tag line are `@key` followed by exactly its words |
| TagParser.TokenizeTagLine | index.js:23-57 | `@key`, a run of spaces, words joined by single spaces and trailing whitespace give the token of that key and exactly those words |
| TagParser.KeyLineFirstWord | index.js:29-48 | the first word of a line that starts with `@key` and a space is `@key`, whatever follows |
| TagParser.TokenizeKey | index.js:51-55 | a line that starts with `@key` and a space gives a token with key `key`, whatever follows the space |
| TagParser.TokenizeSkips | index.js:51-57 | a line whose first character is neither whitespace nor `@` gives no token |
| TagParser.TokenizeBlank | index.js:46-57 | a line of whitespace only gives no token |
| TagParser.TokenizeIgnoresSurrounding | index.js:24 | a line and its trim give the same result |
| TagParser.TokensOf | index.js:59-61 | the tokens of the scanned lines: at most one per line, each of them what parseLine returns for one of the lines |
| TagParser.ScanLines | index.js:59-61 | running parseLine over the lines in order keeps exactly the tokens of `TokensOf`, in line order |
| TagParser.ScanComment | index.js:21 | the scan of one comment body keeps the tokens of its `split('\n')` lines, in order |
| Wrappers.Defined | index.js:59-61 | keeping the present results never gives more results than there are lines, and each kept result is the result for one of the lines |
| Wrappers.DefinedAppend | index.js:59-61 | the tokens of two stretches of lines are the tokens of each, one after the other |
| Wrappers.DefinedStep | index.js:59-61 | the tokens of the first i + 1 lines are those of the first i, followed by the token of line i if it has one |
| Wrappers.DefinedNone | index.js:59-61 | lines without tokens contribute nothing |
| TagParserVectors.SourceScenario | test.js:10-51 | the fifteen lines of the Source test body give exactly three tokens, in order: `describe` with `hello word`, `test` with the nine words of its line (trailing spaces dropped), and `Test` with its eleven words (the seven spaces after the key make no empty word) |
| TagParserVectors.SourceBody | test.js:10-51 | the comment body itself, split on line feeds and scanned, gives the same three tokens |
| TagParserVectors.DescribeValue | test.js:32-33 | the `prop` words of `@describe`, joined by single spaces, are the expected value `hello word` |
| TagParserVectors.SourceLinesNoFeed | test.js:10-24 | no line of the body holds a line feed, so joining the lines and splitting again gives them back |
| TagParserVectors.NoTagsIn | test.js:12-23 | blank lines and `//` lines give no token |
| TagParserVectors.KeepThree | test.js:46-51 | three results between stretches that keep nothing come out exactly, in order |
| TagParserVectors.DescribeToken | test.js:11 | `@describe hello word` gives key `describe` and the words `hello`, `word` |
| TagParserVectors.TestToken | test.js:16 | the `@test` line with five trailing spaces gives key `test` and its nine words |
| TagParserVectors.TestUpperToken | test.js:20 | the `@Test` line with seven spaces after the key gives key `Test` and its eleven words |
| TagParserVectors.BlankStretches | test.js:10-24 | the blank lines of the body give no token |
| TagParserVectors.SlashLineSkipped | test.js:12-13 | a `//` line gives no token |
| TagParserVectors.CommentsAfterDescribeQuiet | test.js:12-15 | the two `//` lines and two blank lines after `@describe` give no token |
| TagParserVectors.CommentsAfterTestQuiet | test.js:17-19 | the blank, `//` and blank lines after `@test` give no token |
| TagParserVectors.TypeNumber | samples/sample.js:6 | `@type     number` gives key `type` and the single word `number` |
| TagParserVectors.PropertyUnits | example/sample.js:3 | `@property    units required` gives key `property` and the words `units`, `required` |
| TagParserVectors.BareAt | index.js:51-55 | a line that is only `@` gives the empty key and no words |
| TagParserVectors.ActivationKey | example/sample.js:7 | the `@activation:` line keeps the colon in its key: `activation:` |
| TagParserVectors.TabInsideWord | index.js:30 | a tab does not separate words: `@type<TAB>number` gives the key `type<TAB>number` and no words |
| TagParserVectors.SpaceOnlyLine | example/sample.js:1-8 | the first and last lines of a `/* ... */` body hold one space and give no token |

## Left out

- Reading the file and extracting comments is not part of this model
  (index.js:7-20: `fs.readFileSync`, `esprima.parse`, `babylon.parse`,
  `res.comments[0]`). These are I/O and calls into parser libraries. The
  model starts from a comment body given as a string.
- `console.log` in the scan loop (index.js:60) is I/O. The model returns the
  sequence of results instead, keeping only the present ones. The source
  also prints `undefined` for lines without a token.
- `Source`, `Form`, `parseFile`, `Form.fromJSON`/`toJSON`, `toHTML` and
  `propertyHTMLGenerator` are exercised by test.js but are not part of this
  model. Their implementations are not in index.js.
- TagParserVectors.SourceBody runs the scan over the template string of
  test.js:10-24, written as the fifteen lines of SourceLines joined by line
  feeds. How `Source` itself walks its content (its `getNext`) is not part
  of this model.
- TagParserVectors.DescribeValue compares only the first expected `value`
  string of test.js (line 33) with the `prop` words joined by single spaces.
  The other two (lines 36 and 39) are long string literals that are not
  compared; their `prop` words are stated word by word in TestToken and
  TestUpperToken.
- The vectors write tag lines through `TagParser.TagLine`: `@key`, a run of
  spaces, the words joined by single spaces, then trailing whitespace.
  They do not spell each line out as one string literal.
- JavaScript strings are sequences of UTF-16 code units. The model uses
  Dafny characters (Unicode scalar values). The tokenizer only compares
  characters with `' '` and `'@'`, so surrogate pairs make no difference.
- `IsWhitespace` lists the WhiteSpace (Unicode "Zs" and the named
  characters) and LineTerminator code points of current Unicode. An older
  Unicode version in a particular engine (U+180E) is not modelled.
- index.js:54 returns `prop`, the list of the words after the key, in which
  runs of spaces disappear. test.js:31-40 expects a `value` string from
  `Source` instead; the model follows index.js.
- index.js:30 separates words only at the space character, so a tab or any
  other whitespace inside the trimmed line stays inside its word, the key
  included (TagParserVectors.TabInsideWord).
