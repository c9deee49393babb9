/**
 * The Go library behaviour both Go transports rely on, over the bytes that are
 * still unread on the input: `bufio.Reader.ReadString('\n')`, `io.ReadFull`,
 * `strings.TrimSpace` on ASCII whitespace, and the frame written by
 * `fmt.Sprintf("Content-Length: %d\r\n\r\n%s", len(content), content)`.
 */
module Stream {
  import opened Wrappers
  import opened Bytes

  /** Why reading a message failed. */
  datatype ReadError =
    | Eof                                   // io.EOF: no complete header line, or no body byte at all
    | UnexpectedEof                         // io.ErrUnexpectedEOF: the body was cut short
    | InvalidHeader(line: seq<byte>)        // a header line without ':'
    | MissingContentLength
    | InvalidContentLength(value: seq<byte>)
    | LengthPanic(n: int)                   // make([]byte, n) panics: n < 0 or n > MaxAlloc

  /**
   * The largest slice the Go runtime allocates on a 64-bit Linux target
   * (2^48 bytes); `make([]byte, n)` panics with "len out of range" beyond it.
   */
  const MaxAlloc: int := 0x1_0000_0000_0000

  /** Whether `make([]byte, n)` panics. */
  predicate MakePanics(n: int) {
    n < 0 || n > MaxAlloc
  }

  /** The outcome of one read and the input left unread after it. */
  datatype Read<T> = Read(outcome: Result<T, ReadError>, rest: seq<byte>)

  /** The first position of `b` in `s`. */
  function IndexOf(s: seq<byte>, b: byte): (r: Option<nat>)
    ensures r.Some? ==> r.value < |s| && s[r.value] == b
    ensures r.Some? ==> forall j | 0 <= j < r.value :: s[j] != b
    ensures r.None? ==> b !in s
    decreases |s|
  {
    if s == [] then None
    else if s[0] == b then Some(0)
    else match IndexOf(s[1..], b)
      case None => None
      case Some(i) => Some(i + 1)
  }

  /** A byte that does not occur in `p` is first found right after `p`. */
  lemma IndexOfAfter(p: seq<byte>, b: byte, t: seq<byte>)
    requires b !in p
    ensures IndexOf(p + [b] + t, b) == Some(|p|)
  {
    var s := p + [b] + t;
    assert s[|p|] == b;
    assert forall j | 0 <= j < |p| :: s[j] == p[j];
  }

  /**
   * `ReadString('\n')`: the next line including its '\n' and the input after it;
   * `None` (io.EOF) when no '\n' is left, in which case the whole input is consumed.
   */
  function ReadString(input: seq<byte>): (r: Option<(seq<byte>, seq<byte>)>)
    ensures r.None? <==> LF !in input
    ensures r.Some? ==> r.value.0 != [] && |r.value.0| + |r.value.1| == |input|
  {
    match IndexOf(input, LF)
    case None => None
    case Some(i) => Some((input[..i + 1], input[i + 1..]))
  }

  /** The ASCII bytes `strings.TrimSpace` removes: tab, newline, vertical tab, form feed, carriage return, space. */
  predicate IsSpace(b: byte) {
    b == 9 || b == 10 || b == 11 || b == 12 || b == 13 || b == 32
  }

  predicate AllSpace(s: seq<byte>) {
    forall i | 0 <= i < |s| :: IsSpace(s[i])
  }

  function TrimLeft(s: seq<byte>): (r: seq<byte>)
    ensures |r| <= |s|
    ensures r == [] || !IsSpace(r[0])
    decreases |s|
  {
    if s != [] && IsSpace(s[0]) then TrimLeft(s[1..]) else s
  }

  function TrimRight(s: seq<byte>): (r: seq<byte>)
    ensures |r| <= |s|
    ensures r == [] || (r[0] == s[0] && !IsSpace(r[|r| - 1]))
    decreases |s|
  {
    if s != [] && IsSpace(s[|s| - 1]) then TrimRight(s[..|s| - 1]) else s
  }

  /** `strings.TrimSpace`: `s` without its leading and trailing whitespace. */
  function TrimSpace(s: seq<byte>): (r: seq<byte>)
    ensures |r| <= |s|
    ensures r == [] || (!IsSpace(r[0]) && !IsSpace(r[|r| - 1]))
  {
    TrimRight(TrimLeft(s))
  }

  /** A line is blank after trimming exactly when it is all whitespace. */
  lemma {:induction false} TrimSpaceEmpty(s: seq<byte>)
    ensures TrimSpace(s) == [] <==> AllSpace(s)
    decreases |s|
  {
    if s != [] && IsSpace(s[0]) {
      TrimSpaceEmpty(s[1..]);
      assert TrimLeft(s) == TrimLeft(s[1..]);
      if AllSpace(s[1..]) {
        forall i | 0 <= i < |s| ensures IsSpace(s[i]) { if i > 0 { assert s[i] == s[1..][i - 1]; } }
      }
    } else if s != [] {
      assert TrimLeft(s) == s;
      TrimRightNonEmpty(s);
    }
  }

  lemma TrimRightNonEmpty(s: seq<byte>)
    requires s != [] && !IsSpace(s[0])
    ensures TrimRight(s) != []
    decreases |s|
  {
    if IsSpace(s[|s| - 1]) {
      assert |s| > 1;
      TrimRightNonEmpty(s[..|s| - 1]);
    }
  }

  /** Trimming keeps a middle part of the line: every byte it leaves was in the line. */
  lemma {:induction false} TrimSpaceInside(s: seq<byte>)
    ensures forall b | b in TrimSpace(s) :: b in s
  {
    TrimLeftSuffix(s);
    TrimRightPrefix(TrimLeft(s));
  }

  lemma {:induction false} TrimLeftSuffix(s: seq<byte>)
    ensures TrimLeft(s) == s[|s| - |TrimLeft(s)|..]
    decreases |s|
  {
    if s != [] && IsSpace(s[0]) {
      TrimLeftSuffix(s[1..]);
    }
  }

  lemma {:induction false} TrimRightPrefix(s: seq<byte>)
    ensures TrimRight(s) == s[..|TrimRight(s)|]
    decreases |s|
  {
    if s != [] && IsSpace(s[|s| - 1]) {
      TrimRightPrefix(s[..|s| - 1]);
    }
  }

  /** Trimming twice is trimming once. */
  lemma TrimSpaceIdempotent(s: seq<byte>)
    ensures TrimSpace(TrimSpace(s)) == TrimSpace(s)
  {
    var t := TrimSpace(s);
    if t != [] {
      assert TrimLeft(t) == t;
      assert TrimRight(t) == t;
    }
  }

  /** Trimming leaves a word that neither starts nor ends with whitespace unchanged, whatever whitespace surrounds it. */
  lemma {:induction false} TrimSpaceAround(a: seq<byte>, w: seq<byte>, b: seq<byte>)
    requires AllSpace(a) && AllSpace(b)
    requires w != [] && !IsSpace(w[0]) && !IsSpace(w[|w| - 1])
    ensures TrimSpace(a + w + b) == w
  {
    assert a + w + b == a + (w + b);
    TrimLeftSpaces(a, w + b);
    TrimRightSpaces(w, b);
  }

  lemma {:induction false} TrimLeftSpaces(a: seq<byte>, t: seq<byte>)
    requires AllSpace(a) && t != [] && !IsSpace(t[0])
    ensures TrimLeft(a + t) == t
    decreases |a|
  {
    if a != [] {
      assert (a + t)[1..] == a[1..] + t;
      TrimLeftSpaces(a[1..], t);
    }
  }

  lemma {:induction false} TrimRightSpaces(t: seq<byte>, b: seq<byte>)
    requires AllSpace(b) && t != [] && !IsSpace(t[|t| - 1])
    ensures TrimRight(t + b) == t
    decreases |b|
  {
    if b != [] {
      assert (t + b)[..|t + b| - 1] == t + b[..|b| - 1];
      TrimRightSpaces(t, b[..|b| - 1]);
    }
  }

  /**
   * `io.ReadFull` into a buffer of `n` bytes: the next `n` bytes; io.EOF when
   * no byte is left and `n > 0`; io.ErrUnexpectedEOF when some but not enough
   * are left (a short read consumes what there was).
   */
  function ReadFull(input: seq<byte>, n: nat): (r: Read<seq<byte>>)
    ensures r.outcome.Success? <==> n <= |input|
    ensures r.outcome.Success? ==> r.outcome.value == input[..n] && r.rest == input[n..]
    ensures r.outcome.Failure? ==> r.rest == [] && r.outcome.error == (if input == [] then Eof else UnexpectedEof)
  {
    if n == 0 then Read(Success([]), input)
    else if input == [] then Read(Failure(Eof), [])
    else if |input| < n then Read(Failure(UnexpectedEof), [])
    else Read(Success(input[..n]), input[n..])
  }

  /** The header text written before a payload of `n` bytes. */
  function Header(n: nat): seq<byte> {
    Ascii("Content-Length: ") + Decimal(n) + [CR, LF, CR, LF]
  }

  /** The bytes written for one message: the header, a blank line, then the payload. */
  function Frame(content: seq<byte>): (r: seq<byte>)
    ensures r == Header(|content|) + content
    ensures |r| > |content|
  {
    Header(|content|) + content
  }

  /** The bytes written for a sequence of payloads. */
  function Frames(payloads: seq<seq<byte>>): (r: seq<byte>)
    decreases |payloads|
  {
    if payloads == [] then [] else Frames(payloads[..|payloads| - 1]) + Frame(payloads[|payloads| - 1])
  }

  /** The frames of a sequence are the first frame followed by the frames of the rest. */
  lemma {:induction false} FramesCons(p: seq<byte>, tail: seq<seq<byte>>)
    ensures Frames([p] + tail) == Frame(p) + Frames(tail)
    decreases |tail|
  {
    var all := [p] + tail;
    if tail == [] {
      assert all == [p] && all[..0] == [];
    } else {
      var init := tail[..|tail| - 1];
      var last := Frame(tail[|tail| - 1]);
      assert all[..|all| - 1] == [p] + init && all[|all| - 1] == tail[|tail| - 1];
      assert Frames(all) == Frames([p] + init) + last;
      FramesCons(p, init);
      assert Frames(tail) == Frames(init) + last;
      AppendAssoc(Frame(p), Frames(init), last);
    }
  }

  /** The header name both Go transports look up. */
  const ContentLengthKey: seq<byte> := Ascii("Content-Length")

  /** The bytes "Content-Length: " split around the colon. */
  lemma HeaderPrefix()
    ensures IsAsciiText("Content-Length") && IsAsciiText(": ")
    ensures Ascii("Content-Length: ") == ContentLengthKey + [COLON, SP]
    ensures COLON !in ContentLengthKey && LF !in ContentLengthKey
    ensures ContentLengthKey != [] && !IsSpace(ContentLengthKey[0]) && !IsSpace(ContentLengthKey[|ContentLengthKey| - 1])
  {
    AsciiAppend("Content-Length", ": ");
    assert "Content-Length" + ": " == "Content-Length: ";
    assert ':' !in "Content-Length" && '\n' !in "Content-Length";
  }

  /** The line "Content-Length: <digits>" CR LF is read whole. */
  lemma LengthLineRead(d: seq<byte>, after: seq<byte>)
    requires AllDigits(d)
    ensures ReadString(Ascii("Content-Length: ") + d + [CR, LF] + after)
         == Some((Ascii("Content-Length: ") + d + [CR, LF], after))
  {
    HeaderPrefix();
    var k := ContentLengthKey;
    var h := Ascii("Content-Length: ");
    var p := h + d + [CR];
    assert LF !in p by {
      forall i | 0 <= i < |p| ensures p[i] != LF {
        if i < |k| { assert p[i] == k[i]; }
        else if i < |h| { }
        else if i < |h| + |d| { assert p[i] == d[i - |h|]; assert IsDigit(d[i - |h|]); }
      }
    }
    assert h + d + [CR, LF] + after == p + [LF] + after;
    IndexOfAfter(p, LF, after);
  }

  /** A line without a '\n' of its own is read up to and including the '\n' that ends it. */
  lemma ReadStringLine(line: seq<byte>, rest: seq<byte>)
    requires LF !in line
    ensures ReadString(line + [LF] + rest) == Some((line + [LF], rest))
  {
    IndexOfAfter(line, LF, rest);
  }

  /** The blank line CR LF is read whole. */
  lemma BlankLineRead(after: seq<byte>)
    ensures ReadString([CR, LF] + after) == Some(([CR, LF], after))
  {
    assert [CR, LF] + after == [CR] + [LF] + after;
    IndexOfAfter([CR], LF, after);
  }

  /** The bytes written for a sequence of messages, each encoded by `encode` and framed. */
  function Written<T>(items: seq<T>, encode: T -> seq<byte>): seq<byte>
    decreases |items|
  {
    if items == [] then [] else Written(items[..|items| - 1], encode) + Frame(encode(items[|items| - 1]))
  }

  /** Writing two sequences one after the other writes their concatenation. */
  lemma {:induction false} WrittenAppend<T>(a: seq<T>, b: seq<T>, encode: T -> seq<byte>)
    ensures Written(a + b, encode) == Written(a, encode) + Written(b, encode)
    decreases |b|
  {
    if b == [] {
      assert a + b == a;
    } else {
      var init := b[..|b| - 1];
      var last := b[|b| - 1];
      var ab := a + b;
      assert ab[..|ab| - 1] == a + init && ab[|ab| - 1] == last;
      var f := Frame(encode(last));
      assert Written(ab, encode) == Written(a + init, encode) + f;
      WrittenAppend(a, init, encode);
      assert Written(b, encode) == Written(init, encode) + f;
      AppendAssoc(Written(a, encode), Written(init, encode), f);
    }
  }

  /** A second update of the same key overwrites the first. */
  lemma UpdateTwice<K, V>(m: map<K, V>, k: K, a: V, b: V)
    ensures m[k := a][k := b] == m[k := b]
  {
  }

  /** Concatenation is associative (stated once, for use on large terms). */
  lemma AppendAssoc<T>(a: seq<T>, b: seq<T>, c: seq<T>)
    ensures a + (b + c) == (a + b) + c
  {
  }
}
