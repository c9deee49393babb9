/**
 * Text helpers shared by the document stores and the feature handlers.
 * A Go string is modelled as `seq<char>` with one element per byte (Go indexes
 * and measures strings in bytes); a Python string with one element per code point.
 */
module Strings {

  /** Go's `isWordChar`: ASCII letters, ASCII digits and underscore. */
  predicate IsWordChar(c: char) {
    ('a' <= c <= 'z') || ('A' <= c <= 'Z') || ('0' <= c <= '9') || c == '_'
  }

  /** The sample characters of the isWordChar table test. */
  lemma WordCharSamples()
    ensures IsWordChar('a') && IsWordChar('Z') && IsWordChar('5') && IsWordChar('_')
    ensures !IsWordChar(' ') && !IsWordChar('-') && !IsWordChar('(') && !IsWordChar('.')
  {
  }

  // ---------------------------------------------------------------------------
  // Splitting into lines

  /**
   * `strings.Split(s, sep)` in Go and `s.split(sep)` in Python for a one-character
   * separator: the pieces between separators, including empty ones.
   */
  function Split(s: string, sep: char): (r: seq<string>)
    ensures |r| >= 1
    decreases |s|
  {
    if s == [] then [[]]
    else
      var rest := Split(s[1..], sep);
      if s[0] == sep then [[]] + rest
      else [[s[0]] + rest[0]] + rest[1..]
  }

  /** The pieces glued back with the separator between them. */
  function Join(parts: seq<string>, sep: char): string
    decreases |parts|
  {
    if parts == [] then []
    else if |parts| == 1 then parts[0]
    else parts[0] + [sep] + Join(parts[1..], sep)
  }

  /** Number of occurrences of `c` in `s` (Go's `strings.Count` for a one-byte needle). */
  function CountChar(s: string, c: char): nat
    decreases |s|
  {
    if s == [] then 0 else (if s[0] == c then 1 else 0) + CountChar(s[1..], c)
  }

  /** Joining the lines of `s` gives back `s`: the split loses nothing. */
  lemma {:induction false} SplitJoin(s: string, sep: char)
    ensures Join(Split(s, sep), sep) == s
    decreases |s|
  {
    if s != [] {
      var rest := Split(s[1..], sep);
      SplitJoin(s[1..], sep);
      if s[0] == sep {
        assert ([[]] + rest)[1..] == rest;
        assert s == [sep] + s[1..];
      } else {
        var parts := [[s[0]] + rest[0]] + rest[1..];
        assert parts[1..] == rest[1..];
        if |rest| == 1 {
          assert s == [s[0]] + rest[0];
        } else {
          assert Join(rest, sep) == rest[0] + [sep] + Join(rest[1..], sep);
          assert s == [s[0]] + s[1..];
        }
      }
    }
  }

  /** No piece of a split contains the separator. */
  lemma {:induction false} SplitPiecesFree(s: string, sep: char)
    ensures forall i | 0 <= i < |Split(s, sep)| :: sep !in Split(s, sep)[i]
    decreases |s|
  {
    if s != [] {
      SplitPiecesFree(s[1..], sep);
    }
  }

  /** There is one more piece than there are separators. */
  lemma {:induction false} SplitCount(s: string, sep: char)
    ensures |Split(s, sep)| == CountChar(s, sep) + 1
    decreases |s|
  {
    if s != [] {
      SplitCount(s[1..], sep);
    }
  }

  /** A piece free of the separator and followed by it, or by nothing, is split off whole. */
  lemma {:induction false} SplitFirstPiece(w: string, sep: char, rest: string)
    requires sep !in w
    ensures Split(w + [sep] + rest, sep) == [w] + Split(rest, sep)
    ensures Split(w, sep) == [w]
    decreases |w|
  {
    if w != [] {
      SplitFirstPiece(w[1..], sep, rest);
      var tail := Split(w[1..] + [sep] + rest, sep);
      assert (w + [sep] + rest)[1..] == w[1..] + [sep] + rest;
      assert tail[0] == w[1..] && tail[1..] == Split(rest, sep);
      assert [w[0]] + w[1..] == w;
    } else {
      assert w + [sep] + rest == [sep] + rest;
    }
  }

  // ---------------------------------------------------------------------------
  // Substrings

  predicate HasPrefix(s: string, prefix: string) {
    |prefix| <= |s| && s[..|prefix|] == prefix
  }

  /** Go's `strings.Contains`: `sub` occurs somewhere in `s` (the empty string occurs everywhere). */
  predicate Contains(s: string, sub: string)
    decreases |s|
  {
    HasPrefix(s, sub) || (s != [] && Contains(s[1..], sub))
  }

  /** `sub` occurring at any offset of `s` makes `Contains` hold. */
  lemma {:induction false} ContainsAt(s: string, sub: string, k: nat)
    requires k + |sub| <= |s| && s[k..k + |sub|] == sub
    ensures Contains(s, sub)
    decreases k
  {
    if k > 0 {
      assert s[1..][k - 1..k - 1 + |sub|] == s[k..k + |sub|];
      ContainsAt(s[1..], sub, k - 1);
    }
  }

  // ---------------------------------------------------------------------------
  // Word boundaries

  /** Where the run of word characters that ends at `c` starts (the backward loop of GetWordAt). */
  function WordStart(line: string, c: nat): (r: nat)
    requires c <= |line|
    ensures r <= c
    ensures forall i | r <= i < c :: IsWordChar(line[i])
    ensures r == 0 || !IsWordChar(line[r - 1])
    decreases c
  {
    if c > 0 && IsWordChar(line[c - 1]) then WordStart(line, c - 1) else c
  }

  /** Where the run of word characters that starts at `c` ends (the forward loop of GetWordAt). */
  function WordEnd(line: string, c: nat): (r: nat)
    requires c <= |line|
    ensures c <= r <= |line|
    ensures forall i | c <= i < r :: IsWordChar(line[i])
    ensures r == |line| || !IsWordChar(line[r])
    decreases |line| - c
  {
    if c < |line| && IsWordChar(line[c]) then WordEnd(line, c + 1) else c
  }

  /** The maximal run of word characters around position `c` of `line`. */
  function WordAround(line: string, c: nat): string
    requires c <= |line|
  {
    line[WordStart(line, c)..WordEnd(line, c)]
  }

  /**
   * `s..e` is a maximal run of word characters of `line` that covers position
   * `c`: it holds only word characters and cannot be extended on either side.
   */
  predicate MaximalRunAt(line: string, c: int, s: int, e: int) {
    && 0 <= s <= c <= e <= |line|
    && (forall i | s <= i < e :: IsWordChar(line[i]))
    && (s == 0 || !IsWordChar(line[s - 1]))
    && (e == |line| || !IsWordChar(line[e]))
  }

  /** There is exactly one maximal run around `c`, and WordAround is it. */
  lemma WordAroundIsMaximal(line: string, c: nat)
    requires c <= |line|
    ensures MaximalRunAt(line, c, WordStart(line, c), WordEnd(line, c))
    ensures forall s, e | MaximalRunAt(line, c, s, e) :: s == WordStart(line, c) && e == WordEnd(line, c)
  {
    var ws, we := WordStart(line, c), WordEnd(line, c);
    forall s, e | MaximalRunAt(line, c, s, e) ensures s == ws && e == we {
    }
  }

  /**
   * The word at (`line`, `character`) of a text split into lines: empty when
   * either index is negative or out of range, the word around it otherwise.
   */
  function WordAtLine(lines: seq<string>, line: int, character: int): string {
    if line < 0 || line >= |lines| then ""
    else if character < 0 || character >= |lines[line]| then ""
    else WordAround(lines[line], character)
  }

  /**
   * Out of range the word is empty. In range it is the one maximal run of word
   * characters covering the position, and it is empty exactly when neither the
   * character at the position nor the one before it is a word character.
   */
  lemma WordAtLineMeaning(lines: seq<string>, line: int, character: int)
    ensures !(0 <= line < |lines| && 0 <= character < |lines[line]|) ==> WordAtLine(lines, line, character) == ""
    ensures 0 <= line < |lines| && 0 <= character < |lines[line]| ==>
      var t, w := lines[line], WordAtLine(lines, line, character);
      && (exists s, e :: MaximalRunAt(t, character, s, e) && w == t[s..e])
      && (forall s, e | MaximalRunAt(t, character, s, e) :: w == t[s..e])
      && (w == "" <==> !IsWordChar(t[character]) && (character == 0 || !IsWordChar(t[character - 1])))
  {
    if 0 <= line < |lines| && 0 <= character < |lines[line]| {
      var t := lines[line];
      WordAroundIsMaximal(t, character);
      var ws, we := WordStart(t, character), WordEnd(t, character);
      assert MaximalRunAt(t, character, ws, we) && WordAtLine(lines, line, character) == t[ws..we];
      if IsWordChar(t[character]) { assert we > character; }
      if character > 0 && IsWordChar(t[character - 1]) { assert ws < character; }
    }
  }

  /** A maximal run found by hand around an in-range position is the word there. */
  lemma WordAtOfRun(lines: seq<string>, line: nat, character: nat, s: nat, e: nat)
    requires line < |lines| && character < |lines[line]|
    requires MaximalRunAt(lines[line], character, s, e)
    ensures WordAtLine(lines, line, character) == lines[line][s..e]
  {
    WordAroundIsMaximal(lines[line], character);
  }
}
