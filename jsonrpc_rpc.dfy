/**
 * `internal/jsonrpc/rpc.go`: reading and writing framed messages, classifying a
 * payload as a request or a notification, answering requests, and the main
 * loop. The handler is the `internal/server` server, the only implementation
 * of `Handler` in the repository.
 */
module JsonRpc {
  import opened Wrappers
  import opened Bytes
  import opened Stream
  import opened Protocol
  import opened JsonRpcMessage
  import BasicServer

  type Headers = map<seq<byte>, seq<byte>>

  /** One header line after trimming: the blank line that ends the headers, a line without ':', or a key and a value. */
  datatype HeaderLine = Blank | Malformed(line: seq<byte>) | Entry(key: seq<byte>, value: seq<byte>)

  /** A header line is trimmed and split at its first ':'; key and value are trimmed again. */
  function ParseHeaderLine(raw: seq<byte>): (r: HeaderLine)
    ensures r.Blank? <==> AllSpace(raw)
    ensures r.Malformed? ==> r.line != [] && COLON !in r.line
    ensures r.Entry? ==> TrimSpace(r.key) == r.key && TrimSpace(r.value) == r.value
  {
    TrimSpaceEmpty(raw);
    var line := TrimSpace(raw);
    if line == [] then Blank
    else match IndexOf(line, COLON)
      case None => Malformed(line)
      case Some(i) =>
        TrimSpaceIdempotent(line[..i]);
        TrimSpaceIdempotent(line[i + 1..]);
        Entry(TrimSpace(line[..i]), TrimSpace(line[i + 1..]))
  }

  /** A line that is not blank and holds no ':' is malformed, and the error carries the trimmed line. */
  lemma MalformedLine(raw: seq<byte>)
    requires !AllSpace(raw) && COLON !in raw
    ensures ParseHeaderLine(raw) == Malformed(TrimSpace(raw))
  {
    TrimSpaceEmpty(raw);
    TrimSpaceInside(raw);
  }

  /**
   * The header lines up to the first blank one, added to `headers`; a later
   * line with the same key replaces the earlier value.
   */
  function ReadHeaders(input: seq<byte>, headers: Headers): (r: Read<Headers>)
    ensures |r.rest| <= |input|
    ensures r.outcome.Success? ==> |r.rest| < |input|
    ensures r.outcome.Failure? ==> r.outcome.error == Eof || r.outcome.error.InvalidHeader?
    ensures r.outcome.Failure? && r.outcome.error == Eof ==> r.rest == []
    decreases |input|
  {
    match ReadString(input)
    case None => Read(Failure(Eof), [])
    case Some((raw, rest)) =>
      match ParseHeaderLine(raw)
      case Blank => Read(Success(headers), rest)
      case Malformed(line) => Read(Failure(InvalidHeader(line)), rest)
      case Entry(k, v) => ReadHeaders(rest, headers[k := v])
  }

  /**
   * `strconv.Atoi` on a 64-bit platform: an optional sign followed by at least
   * one decimal digit and nothing else, whose value fits in an int64.
   */
  function Atoi(s: seq<byte>): (r: Option<int>)
    ensures r.Some? ==> MinInt64 <= r.value <= MaxInt64
    ensures r.Some? ==> s != [] && AllDigits(if s[0] == '-' as byte || s[0] == '+' as byte then s[1..] else s)
  {
    var signed := s != [] && (s[0] == '-' as byte || s[0] == '+' as byte);
    var digits := if signed then s[1..] else s;
    if digits == [] || !AllDigits(digits) then None
    else
      var v: int := if s[0] == '-' as byte then -(DigitsValue(digits) as int) else DigitsValue(digits);
      if v < MinInt64 || v > MaxInt64 then None else Some(v)
  }

  /** `strconv.Atoi` reads back every length written with `%d`. */
  lemma AtoiDecimal(n: nat)
    requires n <= MaxInt64
    ensures Atoi(Decimal(n)) == Some(n)
  {
    DecimalRoundTrip(n);
    var d := Decimal(n);
    assert IsDigit(d[0]);
  }

  /**
   * ReadMessage: the headers, then the Content-Length value parsed as an
   * integer, then exactly that many bytes of payload.
   */
  function ReadFrame(input: seq<byte>): (r: Read<seq<byte>>)
    ensures |r.rest| <= |input|
    ensures r.outcome.Success? ==> |r.rest| + |r.outcome.value| < |input|
  {
    var h := ReadHeaders(input, map[]);
    if h.outcome.Failure? then Read(Failure(h.outcome.error), h.rest)
    else if ContentLengthKey !in h.outcome.value then Read(Failure(MissingContentLength), h.rest)
    else
      var value := h.outcome.value[ContentLengthKey];
      match Atoi(value)
      case None => Read(Failure(InvalidContentLength(value)), h.rest)
      case Some(n) =>
        if MakePanics(n) then Read(Failure(LengthPanic(n)), h.rest)
        else
          ReadFull(h.rest, n)
  }

  /** Without a '\n' left there is no header line: io.EOF, and the input is used up. */
  lemma HeadersNeedALine(input: seq<byte>, headers: Headers)
    requires LF !in input
    ensures ReadHeaders(input, headers) == Read(Failure(Eof), [])
  {
  }

  /** A line adds no whitespace of its own by its '\n'. */
  lemma AllSpaceLine(line: seq<byte>)
    ensures AllSpace(line + [LF]) <==> AllSpace(line)
  {
    if !AllSpace(line) {
      var i :| 0 <= i < |line| && !IsSpace(line[i]);
      assert (line + [LF])[i] == line[i];
    }
  }

  /** The first line that is all whitespace ends the headers; what follows it is left unread. */
  lemma BlankLineEnds(line: seq<byte>, rest: seq<byte>, headers: Headers)
    requires LF !in line && AllSpace(line)
    ensures ReadHeaders(line + [LF] + rest, headers) == Read(Success(headers), rest)
  {
    ReadStringLine(line, rest);
    AllSpaceLine(line);
  }

  /** A line that is not blank and holds no ':' fails the read with InvalidHeader, carrying the trimmed line. */
  lemma MalformedLineFails(line: seq<byte>, rest: seq<byte>, headers: Headers)
    requires LF !in line && !AllSpace(line) && COLON !in line
    ensures ReadHeaders(line + [LF] + rest, headers) == Read(Failure(InvalidHeader(TrimSpace(line + [LF]))), rest)
  {
    ReadStringLine(line, rest);
    AllSpaceLine(line);
    assert COLON !in line + [LF];
    MalformedLine(line + [LF]);
  }

  /** A "key: value" line adds its trimmed key and value, replacing an earlier value of the key, and reading goes on. */
  lemma EntryLineStep(line: seq<byte>, rest: seq<byte>, headers: Headers)
    requires LF !in line && ParseHeaderLine(line + [LF]).Entry?
    ensures var e := ParseHeaderLine(line + [LF]);
      ReadHeaders(line + [LF] + rest, headers) == ReadHeaders(rest, headers[e.key := e.value])
  {
    ReadStringLine(line, rest);
  }

  /** Of two header lines with the same key, the later value is the one kept. */
  lemma LastDuplicateWins(input: seq<byte>, first: seq<byte>, mid: seq<byte>, second: seq<byte>, rest: seq<byte>,
                          headers: Headers, key: seq<byte>, v1: seq<byte>, v2: seq<byte>)
    requires ReadString(input) == Some((first, mid)) && ParseHeaderLine(first) == Entry(key, v1)
    requires ReadString(mid) == Some((second, rest)) && ParseHeaderLine(second) == Entry(key, v2)
    ensures ReadHeaders(input, headers) == ReadHeaders(rest, headers[key := v2])
  {
    EntryStep(input, first, mid, headers, key, v1);
    EntryStep(mid, second, rest, headers[key := v1], key, v2);
    UpdateTwice(headers, key, v1, v2);
  }

  /** One "key: value" line read off the input: the entry is added and reading goes on after it. */
  lemma EntryStep(input: seq<byte>, line: seq<byte>, rest: seq<byte>, headers: Headers, key: seq<byte>, value: seq<byte>)
    requires ReadString(input) == Some((line, rest)) && ParseHeaderLine(line) == Entry(key, value)
    ensures ReadHeaders(input, headers) == ReadHeaders(rest, headers[key := value])
  {
  }

  /** Two Content-Length lines: the frame is read with the second length. */
  lemma DuplicateContentLength(d1: seq<byte>, d2: seq<byte>, after: seq<byte>)
    requires d1 != [] && AllDigits(d1) && d2 != [] && AllDigits(d2)
    ensures ReadHeaders(Ascii("Content-Length: ") + d1 + [CR, LF] + (Ascii("Content-Length: ") + d2 + [CR, LF] + ([CR, LF] + after)), map[])
         == Read(Success(map[ContentLengthKey := d2]), after)
  {
    var first := Ascii("Content-Length: ") + d1 + [CR, LF];
    var second := Ascii("Content-Length: ") + d2 + [CR, LF];
    var mid := second + ([CR, LF] + after);
    LengthLine(d1, mid);
    LengthLine(d2, [CR, LF] + after);
    LastDuplicateWins(first + mid, first, mid, second, [CR, LF] + after, map[], ContentLengthKey, d1, d2);
    BlankLine(after);
  }

  /**
   * Every outcome of ReadFrame, given the outcome of the header loop: a header
   * failure is passed on; MissingContentLength exactly when the key is absent;
   * InvalidContentLength exactly when the value is not an integer; a panic
   * exactly when `make` refuses the length; otherwise the body is read, and the
   * read succeeds exactly when that many bytes follow, fails with
   * io.ErrUnexpectedEOF when fewer but some do, and with io.EOF when none do.
   */
  lemma ReadFrameOutcomes(input: seq<byte>)
    ensures var h := ReadHeaders(input, map[]);
      var r := ReadFrame(input);
      && (h.outcome.Failure? ==> r == Read(Failure(h.outcome.error), h.rest))
      && (r.outcome == Failure(MissingContentLength) <==> h.outcome.Success? && ContentLengthKey !in h.outcome.value)
      && (h.outcome.Success? && ContentLengthKey in h.outcome.value ==>
            var v := h.outcome.value[ContentLengthKey];
            && (r.outcome == Failure(InvalidContentLength(v)) <==> Atoi(v).None?)
            && (Atoi(v).Some? ==>
                  var n := Atoi(v).value;
                  && (r.outcome == Failure(LengthPanic(n)) <==> MakePanics(n))
                  && (r.outcome.Success? <==> 0 <= n <= MaxAlloc && n <= |h.rest|)
                  && (r.outcome.Success? ==> r.outcome.value == h.rest[..n] && r.rest == h.rest[n..])
                  && (r.outcome == Failure(UnexpectedEof) <==> 0 < |h.rest| < n <= MaxAlloc)
                  && (r.outcome == Failure(Eof) <==> h.rest == [] && 0 < n <= MaxAlloc)))
  {
  }

  /** The line "Content-Length: <digits>" CR LF is read whole and parses into the key and the digits. */
  lemma LengthLine(d: seq<byte>, after: seq<byte>)
    requires d != [] && AllDigits(d)
    ensures ReadString(Ascii("Content-Length: ") + d + [CR, LF] + after)
         == Some((Ascii("Content-Length: ") + d + [CR, LF], after))
    ensures ParseHeaderLine(Ascii("Content-Length: ") + d + [CR, LF]) == Entry(ContentLengthKey, d)
  {
    LengthLineRead(d, after);
    LengthLineParse(d);
  }

  lemma LengthLineParse(d: seq<byte>)
    requires d != [] && AllDigits(d)
    ensures ParseHeaderLine(Ascii("Content-Length: ") + d + [CR, LF]) == Entry(ContentLengthKey, d)
  {
    LengthLineTrimmed(d);
    LengthLineSplit(d);
  }

  /** Trimming "Content-Length: <digits>" CR LF drops exactly the line end. */
  lemma LengthLineTrimmed(d: seq<byte>)
    requires d != [] && AllDigits(d)
    ensures TrimSpace(Ascii("Content-Length: ") + d + [CR, LF]) == Ascii("Content-Length: ") + d
  {
    HeaderPrefix();
    var k := ContentLengthKey;
    var line := Ascii("Content-Length: ") + d;
    assert !IsSpace(d[|d| - 1]) by { assert IsDigit(d[|d| - 1]); }
    assert line[|line| - 1] == d[|d| - 1] && line[0] == k[0];
    assert line + [CR, LF] == [] + line + [CR, LF];
    TrimSpaceAround([], line, [CR, LF]);
  }

  /** "Content-Length: <digits>" splits at its colon into the key and, once trimmed, the digits. */
  lemma LengthLineSplit(d: seq<byte>)
    requires d != [] && AllDigits(d)
    ensures var line := Ascii("Content-Length: ") + d;
      && IndexOf(line, COLON) == Some(|ContentLengthKey|)
      && TrimSpace(line[..|ContentLengthKey|]) == ContentLengthKey
      && TrimSpace(line[|ContentLengthKey| + 1..]) == d
  {
    HeaderPrefix();
    var k := ContentLengthKey;
    var line := Ascii("Content-Length: ") + d;
    assert !IsSpace(d[|d| - 1]) && !IsSpace(d[0]) by { assert IsDigit(d[|d| - 1]) && IsDigit(d[0]); }
    assert line == k + [COLON] + ([SP] + d);
    IndexOfAfter(k, COLON, [SP] + d);
    assert line[..|k|] == [] + k + [];
    TrimSpaceAround([], k, []);
    assert line[|k| + 1..] == [SP] + d + [];
    TrimSpaceAround([SP], d, []);
  }

  /** The blank line CR LF is read whole and ends the headers. */
  lemma BlankLine(after: seq<byte>)
    ensures ReadString([CR, LF] + after) == Some(([CR, LF], after))
    ensures ParseHeaderLine([CR, LF]) == Blank
  {
    BlankLineRead(after);
    assert TrimLeft([CR, LF]) == [];
  }

  /** The header of a frame is one Content-Length line and a blank line. */
  lemma HeadersOfFrame(content: seq<byte>, after: seq<byte>)
    ensures ReadHeaders(Frame(content) + after, map[])
         == Read(Success(map[ContentLengthKey := Decimal(|content|)]), content + after)
  {
    var d := Decimal(|content|);
    DecimalRoundTrip(|content|);
    var second := [CR, LF] + (content + after);
    assert Frame(content) + after == Ascii("Content-Length: ") + d + [CR, LF] + second;
    LengthLine(d, second);
    BlankLine(content + after);
  }

  /**
   * Round trip: reading what WriteMessage writes for `content` gives back
   * exactly `content`, and leaves the input that followed it unread.
   */
  lemma ReadFrameOfFrame(content: seq<byte>, after: seq<byte>)
    requires |content| <= MaxAlloc
    ensures ReadFrame(Frame(content) + after) == Read(Success(content), after)
  {
    var n := |content|;
    HeadersOfFrame(content, after);
    AtoiDecimal(n);
    assert (content + after)[..n] == content && (content + after)[n..] == after;
  }

  // ---------------------------------------------------------------------------
  // Reading a whole stream

  /** Every payload the loop reads from `input`, in order, and the read error that ends it. */
  function Messages(input: seq<byte>): (r: (seq<seq<byte>>, ReadError))
    decreases |input|
  {
    var m := ReadFrame(input);
    if m.outcome.Failure? then ([], m.outcome.error)
    else
      var (rest, e) := Messages(m.rest);
      ([m.outcome.value] + rest, e)
  }

  /**
   * A stream made of frames is read back as exactly those payloads, in order,
   * and then ends cleanly with io.EOF.
   */
  lemma {:induction false} MessagesOfFrames(payloads: seq<seq<byte>>)
    requires forall i | 0 <= i < |payloads| :: |payloads[i]| <= MaxAlloc
    ensures Messages(Frames(payloads)) == (payloads, Eof)
    decreases |payloads|
  {
    if payloads == [] {
      MessagesStep([]);
    } else {
      var p, tail := payloads[0], payloads[1..];
      var rest := Frames(tail);
      FramesCons(p, tail);
      assert [p] + tail == payloads;
      ReadFrameOfFrame(p, rest);
      MessagesStep(Frame(p) + rest);
      MessagesOfFrames(tail);
    }
  }

  // ---------------------------------------------------------------------------
  // Classifying and answering

  /**
   * The JSON side of the loop: `json.Unmarshal` of a payload into a Request
   * (`None` when it fails), `json.Marshal` of a handler result and of a whole
   * response, and the handler's own params decoding.
   */
  datatype Codec = Codec(
    decodeRequest: seq<byte> -> Option<Request>,
    marshalResult: InitializeResult -> Result<RawMessage, string>,
    encodeResponse: Response -> seq<byte>,
    params: Decoder)

  datatype Kind = RequestKind(req: Request) | NotificationKind(note: Notification) | Invalid

  /**
   * ProcessMessage's decision: a payload that decodes with a non-empty method is
   * a request when it has an id and a notification otherwise; anything else is
   * invalid.
   */
  function Classify(payload: seq<byte>, codec: Codec): (k: Kind)
    ensures k.RequestKind? <==>
      codec.decodeRequest(payload).Some? && codec.decodeRequest(payload).value.methodName != "" && codec.decodeRequest(payload).value.id.Some?
    ensures k.NotificationKind? <==>
      codec.decodeRequest(payload).Some? && codec.decodeRequest(payload).value.methodName != "" && codec.decodeRequest(payload).value.id.None?
    ensures k.RequestKind? ==> k.req == codec.decodeRequest(payload).value
    ensures k.NotificationKind? ==> var req := codec.decodeRequest(payload).value;
      k.note == Notification(req.jsonrpc, req.methodName, req.params)
  {
    match codec.decodeRequest(payload)
    case None => Invalid
    case Some(req) =>
      if req.methodName == "" then Invalid
      else if req.id.Some? then RequestKind(req)
      else NotificationKind(Notification(req.jsonrpc, req.methodName, req.params))
  }

  /** An omitted `params` reaches the handler as an empty RawMessage. */
  function ParamsBytes(p: Option<RawMessage>): seq<byte> {
    if p.None? then [] else p.value
  }

  /**
   * handleRequest's response: the handler's result, or an InternalError response
   * carrying the error text when the handler or the marshalling of its result fails.
   */
  function Answer(id: Id, reply: BasicServer.Reply, marshal: InitializeResult -> Result<RawMessage, string>): (r: Response)
    ensures r.jsonrpc == JsonRpcVersion && r.id == Some(id) && AtMostOneOutcome(r)
    ensures reply.Failure? ==> r.error == Some(ResponseError(InternalError, reply.error, None))
    ensures reply.Success? && reply.value.None? ==> r.result.None? && r.error.None?
    ensures reply.Success? && reply.value.Some? ==>
      match marshal(reply.value.value)
      case Success(data) => r.result == Some(data) && r.error.None?
      case Failure(e) => r.error == Some(ResponseError(InternalError, e, None))
  {
    match reply
    case Failure(e) => NewErrorResponse(Some(id), InternalError, e)
    case Success(v) =>
      match NewResponse(Some(id), v, marshal)
      case Success(resp) => resp
      case Failure(e) => NewErrorResponse(Some(id), InternalError, e)
  }

  /** One payload processed against the handler's value: the new value and the response written, if any. */
  function Process(s: BasicServer.State, payload: seq<byte>, codec: Codec): (BasicServer.State, Option<Response>) {
    match Classify(payload, codec)
    case Invalid => (s, None)
    case NotificationKind(n) =>
      (BasicServer.Step(s, n.methodName, ParamsBytes(n.params), codec.params).0, None)
    case RequestKind(req) =>
      var (t, reply) := BasicServer.Step(s, req.methodName, ParamsBytes(req.params), codec.params);
      (t, Some(Answer(req.id.value, reply, codec.marshalResult)))
  }

  /** A sequence of payloads processed in order: the final handler value and the responses written. */
  function Serve(s: BasicServer.State, payloads: seq<seq<byte>>, codec: Codec): (BasicServer.State, seq<Response>)
    decreases |payloads|
  {
    if payloads == [] then (s, [])
    else
      var (t, rs) := Serve(s, payloads[..|payloads| - 1], codec);
      var (u, r) := Process(t, payloads[|payloads| - 1], codec);
      (u, rs + Emitted(r))
  }

  /** The responses one processed payload adds to the output: none or one. */
  function Emitted(r: Option<Response>): seq<Response> {
    if r.Some? then [r.value] else []
  }

  /** The ids of the payloads that are requests, in order. */
  function RequestIds(payloads: seq<seq<byte>>, codec: Codec): seq<Id>
    decreases |payloads|
  {
    if payloads == [] then []
    else
      var k := Classify(payloads[|payloads| - 1], codec);
      RequestIds(payloads[..|payloads| - 1], codec) + if k.RequestKind? then [k.req.id.value] else []
  }

  /**
   * Every request gets exactly one response, carrying its id, in the order the
   * requests arrived; notifications and invalid payloads get none.
   */
  lemma {:induction false} OneResponsePerRequest(s: BasicServer.State, payloads: seq<seq<byte>>, codec: Codec)
    ensures var rs := Serve(s, payloads, codec).1;
      |rs| == |RequestIds(payloads, codec)| &&
      forall i | 0 <= i < |rs| :: rs[i].id == Some(RequestIds(payloads, codec)[i])
    decreases |payloads|
  {
    if payloads != [] {
      OneResponsePerRequest(s, payloads[..|payloads| - 1], codec);
    }
  }

  // ---------------------------------------------------------------------------
  // The RPC object

  /** How Run ends: it returns nil or a read error, or the process panics in `make`. */
  datatype RunEnd = Returned(err: Option<ReadError>) | Panicked(length: int)

  /** How Run ends on the read error that stopped it: nil at io.EOF, a panic when `make` refused the length, the error otherwise. */
  function Ending(stop: ReadError): (end: RunEnd)
    ensures end.Panicked? <==> stop.LengthPanic?
    ensures end.Panicked? ==> end.length == stop.n
    ensures end.Returned? ==> (end.err.None? <==> stop == Eof) && (end.err.Some? ==> end.err.value == stop)
  {
    if stop.LengthPanic? then Panicked(stop.n)
    else if stop == Eof then Returned(None)
    else Returned(Some(stop))
  }

  /**
   * RPC: the buffered reader (modelled by the input it has not consumed yet),
   * the writer (everything written so far) and the handler.
   */
  class Rpc {
    var unread: seq<byte>
    var output: seq<byte>
    const handler: BasicServer.Server
    const codec: Codec
    /** The responses written so far, in order. */
    ghost var sent: seq<Response>

    constructor (input: seq<byte>, handler: BasicServer.Server, codec: Codec)
      ensures unread == input && output == [] && sent == []
      ensures this.handler == handler && this.codec == codec
    {
      unread := input;
      output := [];
      this.handler := handler;
      this.codec := codec;
      sent := [];
    }

    /** ReadMessage: the header loop, then the Content-Length checks, then the body. */
    method ReadMessage() returns (r: Result<seq<byte>, ReadError>)
      modifies this`unread
      ensures ReadFrame(old(unread)) == Read(r, unread)
    {
      var headers: Headers := map[];
      while true
        invariant ReadHeaders(old(unread), map[]) == ReadHeaders(unread, headers)
        decreases |unread|
      {
        var line := ReadString(unread);
        if line.None? {
          unread := [];
          return Failure(Eof);
        }
        var raw := line.value.0;
        unread := line.value.1;
        match ParseHeaderLine(raw)
        case Blank =>
          break;
        case Malformed(l) =>
          return Failure(InvalidHeader(l));
        case Entry(key, value) =>
          headers := headers[key := value];
      }
      if ContentLengthKey !in headers {
        return Failure(MissingContentLength);
      }
      var value := headers[ContentLengthKey];
      var n := Atoi(value);
      if n.None? {
        return Failure(InvalidContentLength(value));
      }
      if MakePanics(n.value) {
        return Failure(LengthPanic(n.value));
      }
      var body := ReadFull(unread, n.value);
      unread := body.rest;
      r := body.outcome;
    }

    /** WriteMessage: the frame of the encoded response is appended to the output. */
    method WriteMessage(resp: Response)
      modifies this`output, this`sent
      ensures output == old(output) + Frame(codec.encodeResponse(resp))
      ensures sent == old(sent) + [resp]
    {
      output := output + Frame(codec.encodeResponse(resp));
      sent := sent + [resp];
    }

    /** handleRequest: call the handler and write exactly one response with the request's id. */
    method HandleRequest(req: Request)
      requires req.id.Some? && handler.Valid()
      modifies this`output, this`sent, handler, handler.documents.Values
      ensures handler.Valid()
      ensures forall d | d in handler.documents.Values :: d in old(handler.documents.Values) || fresh(d)
      ensures var (t, reply) := BasicServer.Step(old(handler.Abstract()), req.methodName, ParamsBytes(req.params), codec.params);
        handler.Abstract() == t && sent == old(sent) + [Answer(req.id.value, reply, codec.marshalResult)]
      ensures output == old(output) + Frame(codec.encodeResponse(sent[|sent| - 1]))
    {
      var reply := handler.Handle(req.methodName, ParamsBytes(req.params), codec.params);
      var response: Response;
      match reply {
        case Failure(e) =>
          response := NewErrorResponse(req.id, InternalError, e);
        case Success(v) =>
          match NewResponse(req.id, v, codec.marshalResult) {
            case Success(resp) => response := resp;
            case Failure(e) => response := NewErrorResponse(req.id, InternalError, e);
          }
      }
      WriteMessage(response);
    }

    /** ProcessMessage: classify the payload, then answer a request or pass a notification on. */
    method ProcessMessage(content: seq<byte>) returns (err: Option<string>)
      requires handler.Valid()
      modifies this`output, this`sent, handler, handler.documents.Values
      ensures handler.Valid()
      ensures forall d | d in handler.documents.Values :: d in old(handler.documents.Values) || fresh(d)
      ensures var (t, r) := Process(old(handler.Abstract()), content, codec);
        handler.Abstract() == t && sent == old(sent) + Emitted(r)
        && output == old(output) + Written(Emitted(r), codec.encodeResponse)
      ensures Classify(content, codec).Invalid? ==> err == Some("invalid message format")
      ensures Classify(content, codec).RequestKind? ==> err.None?
    {
      var kind := Classify(content, codec);
      match kind
      case Invalid =>
        err := Some("invalid message format");
      case RequestKind(req) =>
        HandleRequest(req);
        err := None;
        assert Written([sent[|sent| - 1]], codec.encodeResponse) == Written([], codec.encodeResponse) + Frame(codec.encodeResponse(sent[|sent| - 1]));
      case NotificationKind(n) =>
        var reply := handler.Handle(n.methodName, ParamsBytes(n.params), codec.params);
        err := if reply.Failure? then Some(reply.error) else None;
    }

    /**
     * Run: read and process messages until a read fails; end of input (io.EOF)
     * is a clean stop, a length `make` cannot allocate panics, any other read
     * error is returned, and processing errors are ignored. Everything
     * processed before the stop has been written.
     */
    method Run() returns (end: RunEnd)
      requires handler.Valid()
      modifies this`unread, this`output, this`sent, handler, handler.documents.Values
      ensures handler.Valid()
      ensures var (payloads, stop) := Messages(old(unread));
        var (t, rs) := Serve(old(handler.Abstract()), payloads, codec);
        && end == Ending(stop)
        && handler.Abstract() == t && sent == old(sent) + rs
        && output == old(output) + Written(rs, codec.encodeResponse)
    {
      ghost var s0 := handler.Abstract();
      ghost var all := Messages(unread);
      ghost var consumed: seq<seq<byte>> := [];
      assert consumed + Messages(unread).0 == Messages(unread).0;
      while true
        invariant handler.Valid()
        invariant forall d | d in handler.documents.Values :: d in old(handler.documents.Values) || fresh(d)
        invariant all == (consumed + Messages(unread).0, Messages(unread).1)
        invariant handler.Abstract() == Serve(s0, consumed, codec).0
        invariant sent == old(sent) + Serve(s0, consumed, codec).1
        invariant output == old(output) + Written(Serve(s0, consumed, codec).1, codec.encodeResponse)
        decreases |unread|
      {
        ghost var done := Serve(s0, consumed, codec);
        var stop, content := Next();
        if stop.Some? {
          assert consumed + [] == consumed;
          end := Ending(stop.value);
          return;
        }
        ghost var later := Messages(unread);
        AppendAssoc(consumed, [content], later.0);
        ghost var next := Process(done.0, content, codec);
        ServeSnoc(s0, consumed, content, codec);
        AppendAssoc(old(sent), done.1, Emitted(next.1));
        WrittenAppend(done.1, Emitted(next.1), codec.encodeResponse);
        AppendAssoc(old(output), Written(done.1, codec.encodeResponse), Written(Emitted(next.1), codec.encodeResponse));
        consumed := consumed + [content];
      }
    }

    /** One turn of Run's loop: read a message and, if that succeeded, process it. */
    method Next() returns (stop: Option<ReadError>, content: seq<byte>)
      requires handler.Valid()
      modifies this`unread, this`output, this`sent, handler, handler.documents.Values
      ensures handler.Valid()
      ensures forall d | d in handler.documents.Values :: d in old(handler.documents.Values) || fresh(d)
      ensures stop.Some? ==> Messages(old(unread)) == ([], stop.value)
      ensures stop.None? ==> |unread| < |old(unread)| && Messages(old(unread)) == ([content] + Messages(unread).0, Messages(unread).1)
      ensures stop.Some? ==> handler.Abstract() == old(handler.Abstract()) && sent == old(sent) && output == old(output)
      ensures stop.None? ==>
          var (t, r) := Process(old(handler.Abstract()), content, codec);
          handler.Abstract() == t && sent == old(sent) + Emitted(r) && output == old(output) + Written(Emitted(r), codec.encodeResponse)
    {
      MessagesStep(unread);
      var msg := ReadMessage();
      if msg.Failure? {
        return Some(msg.error), [];
      }
      content := msg.value;
      stop := None;
      var _ := ProcessMessage(content);
    }
  }

  /** A failed read ends the messages; a successful one puts its payload in front of those that follow. */
  lemma MessagesStep(input: seq<byte>)
    ensures var m := ReadFrame(input);
      Messages(input) == if m.outcome.Failure? then ([], m.outcome.error)
                         else ([m.outcome.value] + Messages(m.rest).0, Messages(m.rest).1)
  {
  }

  /** Serving one more payload processes it in the state the earlier ones left. */
  lemma ServeSnoc(s: BasicServer.State, payloads: seq<seq<byte>>, p: seq<byte>, codec: Codec)
    ensures var (t, rs) := Serve(s, payloads, codec);
      var (u, r) := Process(t, p, codec);
      Serve(s, payloads + [p], codec) == (u, rs + Emitted(r))
  {
    assert (payloads + [p])[..|payloads|] == payloads;
  }


}
