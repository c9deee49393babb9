/**
 * The framing of the `internal/lsp` server: `readMessage` and the frame its
 * `writeMessage` emits. Header lines are cut with `fmt.Sscanf(line, "%s %s")`
 * rather than split at ':', a line that does not scan is skipped, and the
 * length is read with `fmt.Sscanf(value, "%d")`, which ignores what follows
 * the digits.
 */
module LspTransport {
  import opened Wrappers
  import opened Bytes
  import opened Stream

  type Headers = map<seq<byte>, seq<byte>>

  /** The line without its final byte (the '\n') and then without one '\r', if there is one. */
  function StripLineEnd(raw: seq<byte>): (r: seq<byte>)
    requires raw != []
    ensures |raw| - 2 <= |r| < |raw| && r == raw[..|r|]
    ensures |r| == |raw| - 2 <==> (|raw| >= 2 && raw[|raw| - 2] == CR)
  {
    var line := raw[..|raw| - 1];
    if |line| > 0 && line[|line| - 1] == CR then line[..|line| - 1] else line
  }

  /** The leading run of non-space bytes. */
  function Word(s: seq<byte>): (r: seq<byte>)
    ensures |r| <= |s| && r == s[..|r|]
    ensures forall i | 0 <= i < |r| :: !IsSpace(r[i])
    ensures |r| == |s| || IsSpace(s[|r|])
    decreases |s|
  {
    if s == [] || IsSpace(s[0]) then [] else [s[0]] + Word(s[1..])
  }

  /** A word followed by the end of the input or by a space is read whole. */
  lemma {:induction false} WordBeforeSpace(w: seq<byte>, t: seq<byte>)
    requires forall i | 0 <= i < |w| :: !IsSpace(w[i])
    requires t == [] || IsSpace(t[0])
    ensures Word(w + t) == w
    decreases |w|
  {
    if w != [] {
      assert (w + t)[1..] == w[1..] + t;
      WordBeforeSpace(w[1..], t);
    } else {
      assert w + t == t;
    }
  }

  /**
   * `fmt.Sscanf(line, "%s %s", &key, &value)`: the first two runs of non-space
   * bytes; `None` (a scanning error) when the line holds fewer than two.
   * Whatever follows the second run is not looked at.
   */
  function ScanTwo(line: seq<byte>): (r: Option<(seq<byte>, seq<byte>)>)
    ensures r.Some? ==> r.value.0 != [] && r.value.1 != []
    ensures r.Some? ==> forall i | 0 <= i < |r.value.0| :: !IsSpace(r.value.0[i])
    ensures r.Some? ==> forall i | 0 <= i < |r.value.1| :: !IsSpace(r.value.1[i])
    ensures AllSpace(line) ==> r.None?
  {
    var a := TrimLeft(line);
    TrimSpaceEmpty(line);
    if a == [] then None
    else
      TrimRightNonEmpty(a);
      var k := Word(a);
      var b := TrimLeft(a[|k|..]);
      if b == [] then None else Some((k, Word(b)))
  }

  /** The leading run of decimal digits. */
  function DigitRun(s: seq<byte>): (r: seq<byte>)
    ensures |r| <= |s| && r == s[..|r|] && AllDigits(r)
    ensures |r| == |s| || !IsDigit(s[|r|])
    decreases |s|
  {
    if s == [] || !IsDigit(s[0]) then [] else [s[0]] + DigitRun(s[1..])
  }

  /** Digits followed by the end of the input or by a non-digit form the whole run. */
  lemma {:induction false} DigitRunBeforeOther(d: seq<byte>, t: seq<byte>)
    requires AllDigits(d)
    requires t == [] || !IsDigit(t[0])
    ensures DigitRun(d + t) == d
    decreases |d|
  {
    if d != [] {
      assert (d + t)[1..] == d[1..] + t;
      DigitRunBeforeOther(d[1..], t);
    } else {
      assert d + t == t;
    }
  }

  /**
   * `fmt.Sscanf(value, "%d", &n)` into a Go `int`: leading space skipped, an
   * optional sign, then the longest run of decimal digits, which must not be
   * empty; the bytes after the run are ignored; the value must fit in 64 bits.
   */
  function ScanInt(s: seq<byte>): (r: Option<int>)
    ensures r.Some? ==> MinInt64 <= r.value <= MaxInt64
  {
    var a := TrimLeft(s);
    var signed := a != [] && (a[0] == PLUS || a[0] == MINUS);
    var d := DigitRun(if signed then a[1..] else a);
    if d == [] then None
    else
      var v: int := if signed && a[0] == MINUS then -(DigitsValue(d) as int) else DigitsValue(d);
      if MinInt64 <= v <= MaxInt64 then Some(v) else None
  }

  /** `%d` reads back a length written with `%d`, whatever non-digit bytes follow it. */
  lemma ScanIntDecimal(n: nat, tail: seq<byte>)
    requires n <= MaxInt64
    requires tail == [] || !IsDigit(tail[0])
    ensures ScanInt(Decimal(n) + tail) == Some(n)
  {
    DecimalRoundTrip(n);
    var d := Decimal(n);
    assert IsDigit(d[0]) && (d + tail)[0] == d[0];
    assert TrimLeft(d + tail) == d + tail;
    DigitRunBeforeOther(d, tail);
  }

  /** What one header line means to readMessage. */
  datatype LspLine = End | Skipped | Field(key: seq<byte>, value: seq<byte>)

  /**
   * One line read by `ReadString('\n')`: empty after stripping its line end, it
   * ends the headers; if it does not scan as two tokens it is skipped; otherwise
   * the key is the first token without its last byte (the ':').
   */
  function ParseLspLine(raw: seq<byte>): (r: LspLine)
    requires raw != []
    ensures r.End? <==> StripLineEnd(raw) == []
    ensures r.Skipped? <==> StripLineEnd(raw) != [] && ScanTwo(StripLineEnd(raw)).None?
    ensures r.Field? ==> var (k, v) := ScanTwo(StripLineEnd(raw)).value; r.key == k[..|k| - 1] && r.value == v
  {
    var line := StripLineEnd(raw);
    if line == [] then End
    else match ScanTwo(line)
      case None => Skipped
      case Some((k, v)) => Field(k[..|k| - 1], v)
  }

  /** The header loop of readMessage; a later line with the same key replaces the earlier value. */
  function ReadLspHeaders(input: seq<byte>, headers: Headers): (r: Read<Headers>)
    ensures |r.rest| <= |input|
    ensures r.outcome.Success? ==> |r.rest| < |input|
    ensures r.outcome.Failure? ==> r.outcome.error == Eof && r.rest == []
    decreases |input|
  {
    match ReadString(input)
    case None => Read(Failure(Eof), [])
    case Some((raw, rest)) =>
      match ParseLspLine(raw)
      case End => Read(Success(headers), rest)
      case Skipped => ReadLspHeaders(rest, headers)
      case Field(k, v) => ReadLspHeaders(rest, headers[k := v])
  }

  /**
   * readMessage: the headers, the Content-Length value scanned with `%d`, then
   * exactly that many bytes of payload. Every outcome but io.EOF consumes input.
   */
  function ReadLspFrame(input: seq<byte>): (r: Read<seq<byte>>)
    ensures |r.rest| <= |input|
    ensures r.outcome.Success? ==> |r.rest| + |r.outcome.value| < |input|
    ensures r.outcome.Failure? && r.outcome.error != Eof ==> |r.rest| < |input|
  {
    var h := ReadLspHeaders(input, map[]);
    if h.outcome.Failure? then Read(Failure(h.outcome.error), h.rest)
    else if ContentLengthKey !in h.outcome.value then Read(Failure(MissingContentLength), h.rest)
    else
      var value := h.outcome.value[ContentLengthKey];
      match ScanInt(value)
      case None => Read(Failure(InvalidContentLength(value)), h.rest)
      case Some(n) =>
        if MakePanics(n) then Read(Failure(LengthPanic(n)), h.rest)
        else ReadFull(h.rest, n)
  }

  /** Without a '\n' left there is no header line: io.EOF, and the input is used up. */
  lemma LspHeadersNeedALine(input: seq<byte>, headers: Headers)
    requires LF !in input
    ensures ReadLspHeaders(input, headers) == Read(Failure(Eof), [])
  {
  }

  /** An empty line, with or without its '\r', ends the headers; what follows it is left unread. */
  lemma LspEmptyLineEnds(line: seq<byte>, rest: seq<byte>, headers: Headers)
    requires line == [] || line == [CR]
    ensures ReadLspHeaders(line + [LF] + rest, headers) == Read(Success(headers), rest)
  {
    ReadStringLine(line, rest);
    assert StripLineEnd(line + [LF]) == [];
  }

  /** A line that does not scan as two tokens is skipped, whatever it holds, and reading goes on. */
  lemma LspUnscannedLineSkipped(line: seq<byte>, rest: seq<byte>, headers: Headers)
    requires LF !in line && StripLineEnd(line + [LF]) != [] && ScanTwo(StripLineEnd(line + [LF])).None?
    ensures ReadLspHeaders(line + [LF] + rest, headers) == ReadLspHeaders(rest, headers)
  {
    ReadStringLine(line, rest);
  }

  /** Of two header lines with the same key, the later value is the one kept. */
  lemma LspLastDuplicateWins(input: seq<byte>, first: seq<byte>, mid: seq<byte>, second: seq<byte>, rest: seq<byte>,
                             headers: Headers, key: seq<byte>, v1: seq<byte>, v2: seq<byte>)
    requires ReadString(input) == Some((first, mid)) && ParseLspLine(first) == Field(key, v1)
    requires ReadString(mid) == Some((second, rest)) && ParseLspLine(second) == Field(key, v2)
    ensures ReadLspHeaders(input, headers) == ReadLspHeaders(rest, headers[key := v2])
  {
    assert ReadLspHeaders(input, headers) == ReadLspHeaders(mid, headers[key := v1]);
    UpdateTwice(headers, key, v1, v2);
  }

  /**
   * Every outcome of ReadLspFrame, given the outcome of the header loop: io.EOF
   * from the headers is passed on; MissingContentLength exactly when the key is
   * absent; InvalidContentLength exactly when `%d` finds no integer; a panic
   * exactly when `make` refuses the length; otherwise the body is read, and the
   * read succeeds exactly when that many bytes follow, fails with
   * io.ErrUnexpectedEOF when fewer but some do, and with io.EOF when none do.
   */
  lemma LspReadFrameOutcomes(input: seq<byte>)
    ensures var h := ReadLspHeaders(input, map[]);
      var r := ReadLspFrame(input);
      && (h.outcome.Failure? ==> r == Read(Failure(Eof), []))
      && (r.outcome == Failure(MissingContentLength) <==> h.outcome.Success? && ContentLengthKey !in h.outcome.value)
      && (h.outcome.Success? && ContentLengthKey in h.outcome.value ==>
            var v := h.outcome.value[ContentLengthKey];
            && (r.outcome == Failure(InvalidContentLength(v)) <==> ScanInt(v).None?)
            && (ScanInt(v).Some? ==>
                  var n := ScanInt(v).value;
                  && (r.outcome == Failure(LengthPanic(n)) <==> MakePanics(n))
                  && (r.outcome.Success? <==> 0 <= n <= MaxAlloc && n <= |h.rest|)
                  && (r.outcome.Success? ==> r.outcome.value == h.rest[..n] && r.rest == h.rest[n..])
                  && (r.outcome == Failure(UnexpectedEof) <==> 0 < |h.rest| < n <= MaxAlloc)
                  && (r.outcome == Failure(Eof) <==> h.rest == [] && 0 < n <= MaxAlloc)))
  {
  }

  /** "Content-Length: <digits>" scans into the key with its colon and the digits. */
  lemma LengthTokens(d: seq<byte>)
    requires d != [] && AllDigits(d)
    ensures ScanTwo(Ascii("Content-Length: ") + d) == Some((ContentLengthKey + [COLON], d))
  {
    HeaderPrefix();
    var k := ContentLengthKey;
    var line := Ascii("Content-Length: ") + d;
    var token := k + [COLON];
    assert line == token + ([SP] + d);
    assert line[0] == k[0];
    assert TrimLeft(line) == line;
    KeyTokenHasNoSpace();
    WordBeforeSpace(token, [SP] + d);
    assert line[|token|..] == [SP] + d;
    assert IsDigit(d[0]);
    TrimLeftSpaces([SP], d);
    assert forall i | 0 <= i < |d| :: !IsSpace(d[i]) by {
      forall i | 0 <= i < |d| ensures !IsSpace(d[i]) { assert IsDigit(d[i]); }
    }
    WordBeforeSpace(d, []);
    assert d + [] == d;
  }

  /** "Content-Length:" holds no whitespace. */
  lemma KeyTokenHasNoSpace()
    ensures forall i | 0 <= i < |ContentLengthKey + [COLON]| :: !IsSpace((ContentLengthKey + [COLON])[i])
  {
    var k := ContentLengthKey;
    var token := k + [COLON];
    forall i | 0 <= i < |token| ensures !IsSpace(token[i]) {
      if i < |k| { assert token[i] == k[i]; assert k == Ascii("Content-Length"); }
    }
  }

  /** The line "Content-Length: <digits>" CR LF scans into the key and the digits. */
  lemma LspLengthLine(d: seq<byte>)
    requires d != [] && AllDigits(d)
    ensures ParseLspLine(Ascii("Content-Length: ") + d + [CR, LF]) == Field(ContentLengthKey, d)
  {
    var line := Ascii("Content-Length: ") + d;
    assert StripLineEnd(line + [CR, LF]) == line;
    LengthTokens(d);
    var token := ContentLengthKey + [COLON];
    assert token[..|token| - 1] == ContentLengthKey;
  }

  /** The header of a frame is one Content-Length line and a blank line. */
  lemma LspHeadersOfFrame(content: seq<byte>, after: seq<byte>)
    ensures ReadLspHeaders(Frame(content) + after, map[])
         == Read(Success(map[ContentLengthKey := Decimal(|content|)]), content + after)
  {
    var d := Decimal(|content|);
    DecimalRoundTrip(|content|);
    var second := [CR, LF] + (content + after);
    assert Frame(content) + after == Ascii("Content-Length: ") + d + [CR, LF] + second;
    LengthLineRead(d, second);
    LspLengthLine(d);
    BlankLineRead(content + after);
    assert StripLineEnd([CR, LF]) == [];
  }

  /** Two Content-Length lines: the headers keep the second length. */
  lemma LspDuplicateContentLength(d1: seq<byte>, d2: seq<byte>, after: seq<byte>)
    requires d1 != [] && AllDigits(d1) && d2 != [] && AllDigits(d2)
    ensures ReadLspHeaders(Ascii("Content-Length: ") + d1 + [CR, LF] + (Ascii("Content-Length: ") + d2 + [CR, LF] + ([CR, LF] + after)), map[])
         == Read(Success(map[ContentLengthKey := d2]), after)
  {
    var first := Ascii("Content-Length: ") + d1 + [CR, LF];
    var second := Ascii("Content-Length: ") + d2 + [CR, LF];
    var mid := second + ([CR, LF] + after);
    LengthLineRead(d1, mid);
    LspLengthLine(d1);
    LengthLineRead(d2, [CR, LF] + after);
    LspLengthLine(d2);
    LspLastDuplicateWins(first + mid, first, mid, second, [CR, LF] + after, map[], ContentLengthKey, d1, d2);
    BlankLineRead(after);
    assert StripLineEnd([CR, LF]) == [];
  }

  /**
   * Round trip: readMessage applied to what writeMessage writes for `content`
   * gives back exactly `content`, and leaves the input that followed it unread.
   */
  lemma LspReadFrameOfFrame(content: seq<byte>, after: seq<byte>)
    requires |content| <= MaxAlloc
    ensures ReadLspFrame(Frame(content) + after) == Read(Success(content), after)
  {
    var n := |content|;
    LspHeadersOfFrame(content, after);
    ScanIntDecimal(n, []);
    assert Decimal(n) + [] == Decimal(n);
    assert (content + after)[..n] == content && (content + after)[n..] == after;
  }

  /** A line of spaces is not an end of headers: it is skipped. */
  lemma SpaceLineSkipped(spaces: seq<byte>)
    requires spaces != [] && AllSpace(spaces) && spaces[|spaces| - 1] != CR
    ensures ParseLspLine(spaces + [LF]) == Skipped
  {
    assert StripLineEnd(spaces + [LF]) == spaces;
  }
}
