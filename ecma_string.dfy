/**
 * The two ECMAScript string built-ins the tag parser relies on:
 * String.prototype.trim (section 21.1.3.25 of ECMAScript 2015) and
 * String.prototype.split with a one-character separator (section 21.1.3.17).
 */
module EcmaString {

  /**
   * The code points `trim` strips: WhiteSpace (section 11.2 of ECMAScript 2015:
   * TAB, VT, FF, SP, NBSP, ZWNBSP and every other Unicode "Zs" code point) and
   * LineTerminator (section 11.3: LF, CR, LS, PS).
   */
  predicate IsWhitespace(c: char) {
    c == '\t' || c == '\U{000B}' || c == '\U{000C}' || c == ' ' || c == '\U{00A0}' || c == '\U{FEFF}'
    || c == '\U{1680}' || ('\U{2000}' <= c <= '\U{200A}') || c == '\U{202F}' || c == '\U{205F}' || c == '\U{3000}'
    || c == '\n' || c == '\r' || c == '\U{2028}' || c == '\U{2029}'
  }

  predicate AllWhitespace(s: string) {
    forall k :: 0 <= k < |s| ==> IsWhitespace(s[k])
  }

  /** `s` has no whitespace at either end: what `trim` leaves behind. */
  predicate Trimmed(s: string) {
    s == [] || (!IsWhitespace(s[0]) && !IsWhitespace(s[|s| - 1]))
  }

  /** Drops the leading whitespace: the result is the suffix of `s` that starts at its first non-whitespace character. */
  function TrimStart(s: string): (r: string)
    ensures |r| <= |s| && r == s[|s| - |r|..]
    ensures r == [] || !IsWhitespace(r[0])
    ensures forall k :: 0 <= k < |s| - |r| ==> IsWhitespace(s[k])
  {
    if s != [] && IsWhitespace(s[0]) then TrimStart(s[1..]) else s
  }

  /** Drops the trailing whitespace: the result is the prefix of `s` that ends at its last non-whitespace character. */
  function TrimEnd(s: string): (r: string)
    ensures |r| <= |s| && r == s[..|r|]
    ensures r == [] || !IsWhitespace(r[|r| - 1])
    ensures forall k :: |r| <= k < |s| ==> IsWhitespace(s[k])
  {
    if s != [] && IsWhitespace(s[|s| - 1]) then TrimEnd(s[..|s| - 1]) else s
  }

  /** What TrimStart cuts away is whitespace. */
  lemma TrimStartCutsWhitespace(s: string)
    ensures AllWhitespace(s[..|s| - |TrimStart(s)|])
  {
    var m := |s| - |TrimStart(s)|;
    assert forall k :: 0 <= k < m ==> s[..m][k] == s[k];
  }

  /** What TrimEnd cuts away is whitespace. */
  lemma TrimEndCutsWhitespace(s: string)
    ensures AllWhitespace(s[|TrimEnd(s)|..])
  {
    var n := |TrimEnd(s)|;
    assert forall k :: n <= k < |s| ==> s[n..][k - n] == s[k];
  }

  /** String.prototype.trim: `s` without its leading and trailing whitespace. */
  function Trim(s: string): (r: string)
    ensures |r| <= |s| && Trimmed(r)
  {
    TrimEnd(TrimStart(s))
  }

  /**
   * `trim` keeps a slice of `s` and cuts away only whitespace on both sides;
   * since the slice neither starts nor ends with whitespace, it is the
   * longest such slice.
   */
  lemma {:induction false} TrimIsSlice(s: string)
    ensures var r := Trim(s);
      exists i :: 0 <= i <= |s| - |r| && r == s[i..i + |r|] && AllWhitespace(s[..i]) && AllWhitespace(s[i + |r|..])
  {
    var t := TrimStart(s);
    var r := TrimEnd(t);
    TrimStartCutsWhitespace(s);
    TrimEndCutsWhitespace(t);
    PrefixOfSuffix(s, t, r);
  }

  /** A prefix `r` of a suffix `t` of `s` is the slice of `s` where `t` starts, and `t` and `s` end alike after it. */
  lemma PrefixOfSuffix(s: string, t: string, r: string)
    requires |t| <= |s| && t == s[|s| - |t|..] && |r| <= |t| && r == t[..|r|]
    ensures var i := |s| - |t|; r == s[i..i + |r|] && s[i + |r|..] == t[|r|..]
  {
  }

  /** A string that is already trimmed is left alone. */
  lemma {:induction false} TrimOfTrimmed(s: string)
    requires Trimmed(s)
    ensures Trim(s) == s
  {
    assert TrimStart(s) == s;
    assert TrimEnd(s) == s;
  }

  /** `trim` is idempotent. */
  lemma {:induction false} TrimIdempotent(s: string)
    ensures Trim(Trim(s)) == Trim(s)
  {
    TrimOfTrimmed(Trim(s));
  }

  /** A string that starts with a non-whitespace character keeps it as the first character of its trim. */
  lemma {:induction false} TrimKeepsFirst(s: string)
    requires s != [] && !IsWhitespace(s[0])
    ensures Trim(s) != [] && Trim(s)[0] == s[0]
  {
    assert TrimStart(s) == s;
    TrimEndCutsWhitespace(s);
    assert s[0..][0] == s[0];
  }

  /** Whitespace appended after a trimmed string is cut away again by `trim`. */
  lemma {:induction false} TrimDropsTrailing(s: string, w: string)
    requires Trimmed(s) && AllWhitespace(w)
    ensures Trim(s + w) == s
    decreases |w|
  {
    if w == [] {
      assert s + w == s;
      TrimOfTrimmed(s);
    } else if s == [] {
      TrimAllWhitespace(w);
      assert s + w == w;
    } else {
      var t := s + w;
      assert !IsWhitespace(t[0]);
      assert TrimStart(t) == t;
      assert t[..|t| - 1] == s + w[..|w| - 1];
      TrimDropsTrailing(s, w[..|w| - 1]);
      assert TrimStart(s + w[..|w| - 1]) == s + w[..|w| - 1] by {
        assert (s + w[..|w| - 1])[0] == s[0];
      }
    }
  }

  /** TrimEnd keeps every character up to the last non-whitespace one. */
  lemma {:induction false} TrimEndKeeps(s: string, n: nat)
    requires 0 < n <= |s| && !IsWhitespace(s[n - 1])
    ensures |TrimEnd(s)| >= n
  {
    if IsWhitespace(s[|s| - 1]) {
      TrimEndKeeps(s[..|s| - 1], n);
    }
  }

  /** A line that starts with a head without whitespace at either end trims to a prefix of itself that keeps the head. */
  lemma {:induction false} TrimKeepsHead(line: string, n: nat)
    requires 0 < n <= |line| && !IsWhitespace(line[0]) && !IsWhitespace(line[n - 1])
    ensures n <= |Trim(line)| && Trim(line) == line[..|Trim(line)|]
  {
    assert TrimStart(line) == line;
    TrimEndKeeps(line, n);
  }

  /** A string of whitespace only trims to the empty string. */
  lemma {:induction false} TrimAllWhitespace(w: string)
    requires AllWhitespace(w)
    ensures Trim(w) == []
    decreases |w|
  {
    if w != [] {
      TrimAllWhitespace(w[1..]);
    }
  }

  /**
   * String.prototype.split("\n"): the pieces between line feeds, in order.
   * There is always at least one piece, and the empty string gives [""].
   */
  function SplitLines(s: string): (lines: seq<string>)
    ensures |lines| >= 1
    ensures forall k :: 0 <= k < |lines| ==> '\n' !in lines[k]
  {
    if s == [] then [[]]
    else
      var rest := SplitLines(s[1..]);
      if s[0] == '\n' then [[]] + rest
      else [[s[0]] + rest[0]] + rest[1..]
  }

  /** Joining the pieces with line feeds gives the string back: nothing is lost by splitting. */
  lemma {:induction false} JoinSplitLines(s: string)
    ensures JoinLines(SplitLines(s)) == s
  {
    if s != [] {
      var rest := SplitLines(s[1..]);
      JoinSplitLines(s[1..]);
      if s[0] == '\n' {
        assert JoinLines([[]] + rest) == "\n" + JoinLines(rest);
      } else {
        var r := [[s[0]] + rest[0]] + rest[1..];
        assert JoinLines(r) == [s[0]] + JoinLines(rest) by {
          if |rest| > 1 {
            assert r[1..] == rest[1..];
          }
        }
      }
    }
  }

  /** Array.prototype.join("\n"): the pieces with one line feed between neighbours. */
  function JoinLines(lines: seq<string>): (s: string)
  {
    if lines == [] then []
    else if |lines| == 1 then lines[0]
    else lines[0] + "\n" + JoinLines(lines[1..])
  }

  /** Splitting lines that hold no line feed, after joining them, gives the same lines back. */
  lemma {:induction false} SplitJoinLines(lines: seq<string>)
    requires |lines| >= 1
    requires forall k :: 0 <= k < |lines| ==> '\n' !in lines[k]
    ensures SplitLines(JoinLines(lines)) == lines
    decreases |JoinLines(lines)|, |lines|
  {
    if |lines| == 1 {
      SplitLinesNoFeed(lines[0]);
    } else {
      var head, rest := lines[0], lines[1..];
      SplitJoinLines(rest);
      assert JoinLines(lines) == head + ("\n" + JoinLines(rest));
      SplitLinesPrefix(head, "\n" + JoinLines(rest));
      assert ("\n" + JoinLines(rest))[1..] == JoinLines(rest);
      assert [head] + rest == lines;
    }
  }

  /** A string without a line feed is one line. */
  lemma {:induction false} SplitLinesNoFeed(s: string)
    requires '\n' !in s
    ensures SplitLines(s) == [s]
  {
    if s != [] {
      assert s[0] != '\n';
      SplitLinesNoFeed(s[1..]);
      assert [s[0]] + s[1..] == s;
    }
  }

  /** A prefix without line feeds, followed by a line feed, becomes the first line on its own. */
  lemma {:induction false} SplitLinesPrefix(head: string, t: string)
    requires '\n' !in head && t != [] && t[0] == '\n'
    ensures SplitLines(head + t) == [head] + SplitLines(t[1..])
  {
    if head != [] {
      assert (head + t)[1..] == head[1..] + t;
      SplitLinesPrefix(head[1..], t);
      assert head[0] != '\n';
      assert [head[0]] + head[1..] == head;
    } else {
      assert head + t == t;
    }
  }
}
