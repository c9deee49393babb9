/**
 * The `internal/lsp` server: a five-state lifecycle, a map from URI to
 * document objects that are updated in place, and the loop that reads framed
 * messages and dispatches them. Each handler is given here twice: as a pure
 * step on the value of the server (`LspState`), where the properties are
 * proved, and as a method of the `Server` class proved to perform that step.
 *
 * JSON is not modelled: `Codec` carries the outcome of `json.Unmarshal` of a
 * message into a `Request`, of re-marshalling `Request.Params`, of unmarshalling
 * those bytes into each params struct, and the encodings of results and
 * responses.
 */
module LspServer {
  import opened Wrappers
  import opened Bytes
  import opened Stream
  import opened Protocol
  import opened JsonRpcMessage
  import opened LspTransport

  /** The lifecycle states, in the order of their `iota` values. */
  datatype ServerState = Uninitialized | Initializing | Initialized | ShuttingDown | Shutdown

  /** The integer each state is declared as. */
  function Ordinal(s: ServerState): (r: nat)
    ensures r <= 4
  {
    match s
    case Uninitialized => 0
    case Initializing => 1
    case Initialized => 2
    case ShuttingDown => 3
    case Shutdown => 4
  }

  /** The seven method names `handleMessage` routes. */
  const Methods: set<string> := {"initialize", "initialized", "shutdown", "exit",
    "textDocument/didOpen", "textDocument/didChange", "textDocument/didClose"}

  /** The value of a `Document`. */
  datatype DocValue = DocValue(uri: string, languageId: string, version: int, content: string)

  /** The value of the server: its state and its open documents. */
  datatype LspState = LspState(state: ServerState, documents: map<string, DocValue>)

  /** Every document is stored under its own URI. */
  predicate ValidState(st: LspState) {
    forall u | u in st.documents :: st.documents[u].uri == u
  }

  /** What handling one message does: the new value, the responses written, and the exit code if the process exits. */
  datatype Outcome = Outcome(st: LspState, replies: seq<Response>, exitCode: Option<int>)

  /** The JSON encoding and decoding the server relies on. */
  datatype Codec = Codec(
    decodeRequest: seq<byte> -> Option<Request>,
    marshalParams: Option<RawMessage> -> Result<seq<byte>, string>,
    params: Decoder,
    encodeResult: InitializeResult -> RawMessage,
    encodeResponse: Response -> seq<byte>)

  /** The initialize result: full sync with open/close, save without text, completion on "." and ":", no hover. */
  const Capabilities: InitializeResult := InitializeResult(
    ServerCapabilities(
      SyncOptions(true, SyncFull, Some(SaveOptions(false))),
      false, false, false, false, false,
      Some(CompletionOptions(false, [".", ":"]))),
    Some(ServerInfo("basic-lsp-server", "0.1.0")))

  /** getMessageType: a message without an id is a notification, one with an id a request. */
  function MessageType(id: Option<Id>): (r: string)
    ensures r == "notification" <==> id.None?
    ensures r == "request" <==> id.Some?
  {
    if id.None? then "notification" else "request"
  }

  /** getClientName: the client's name when it sent a non-empty one, otherwise "unknown". */
  function ClientName(info: Option<ClientInfo>): (r: string)
    ensures r != []
    ensures info.Some? && info.value.name != [] ==> r == info.value.name
    ensures info.None? || info.value.name == [] ==> r == "unknown"
  {
    if info.Some? && info.value.name != [] then info.value.name else "unknown"
  }

  /** getClientVersion: the client's version when it sent a non-empty one, otherwise "unknown". */
  function ClientVersion(info: Option<ClientInfo>): (r: string)
    ensures r != []
    ensures info.Some? && info.value.version != [] ==> r == info.value.version
    ensures info.None? || info.value.version == [] ==> r == "unknown"
  {
    if info.Some? && info.value.version != [] then info.value.version else "unknown"
  }

  /** Why the params of a request could not be decoded. */
  datatype ParamsError = MarshalFailed | UnmarshalFailed

  /** `json.Marshal(request.Params)` followed by `json.Unmarshal` into the params struct. */
  function DecodeParams<P>(params: Option<RawMessage>, codec: Codec, decode: seq<byte> -> Result<P, string>): Result<P, ParamsError> {
    match codec.marshalParams(params)
    case Failure(_) => Failure(MarshalFailed)
    case Success(data) =>
      match decode(data)
      case Failure(_) => Failure(UnmarshalFailed)
      case Success(p) => Success(p)
  }

  /** A response with a result and no error (sendResponse). */
  function ResultResponse(id: Option<Id>, result: Option<RawMessage>): Response {
    Response(JsonRpcVersion, id, result, None)
  }

  /**
   * handleInitialize: refused unless the server is uninitialized; otherwise the
   * state becomes Initializing, and Initialized with the capabilities as
   * result once the params decode. A decoding failure leaves it Initializing.
   */
  function InitializeStep(st: LspState, req: Request, codec: Codec): (r: Outcome)
    ensures r.exitCode.None? && r.st.documents == st.documents
    ensures |r.replies| == 1 && r.replies[0].id == req.id && AtMostOneOutcome(r.replies[0])
  {
    if st.state != Uninitialized then
      Outcome(st, [NewErrorResponse(req.id, InvalidRequest, "Server already initialized")], None)
    else
      var busy := st.(state := Initializing);
      match DecodeParams(req.params, codec, codec.params.initialize)
      case Failure(MarshalFailed) =>
        Outcome(busy, [NewErrorResponse(req.id, InternalError, "Failed to process parameters")], None)
      case Failure(UnmarshalFailed) =>
        Outcome(busy, [NewErrorResponse(req.id, InvalidParams, "Invalid initialize parameters")], None)
      case Success(_) =>
        Outcome(st.(state := Initialized), [ResultResponse(req.id, Some(codec.encodeResult(Capabilities)))], None)
  }

  /**
   * initialize is answered with an error and changes nothing unless the server
   * is uninitialized; it then succeeds, with the capabilities, exactly when the
   * state becomes Initialized, and each decoding failure has its own error.
   */
  lemma InitializeAnswers(st: LspState, req: Request, codec: Codec)
    ensures var r := InitializeStep(st, req, codec);
      st.state != Uninitialized ==>
        r.st == st && r.replies == [NewErrorResponse(req.id, InvalidRequest, "Server already initialized")]
    ensures var r := InitializeStep(st, req, codec);
      st.state == Uninitialized ==>
        && (r.st.state == Initialized <==> r.replies[0].error.None?)
        && (r.st.state == Initialized || r.st.state == Initializing)
    ensures var r := InitializeStep(st, req, codec);
      r.replies[0].error.None? ==> r.replies[0].result == Some(codec.encodeResult(Capabilities))
    ensures var r := InitializeStep(st, req, codec);
      st.state == Uninitialized && DecodeParams(req.params, codec, codec.params.initialize) == Failure(MarshalFailed) ==>
        r.replies == [NewErrorResponse(req.id, InternalError, "Failed to process parameters")]
    ensures var r := InitializeStep(st, req, codec);
      st.state == Uninitialized && DecodeParams(req.params, codec, codec.params.initialize) == Failure(UnmarshalFailed) ==>
        r.replies == [NewErrorResponse(req.id, InvalidParams, "Invalid initialize parameters")]
  {
  }

  /** handleShutdown: refused once shutting down; otherwise the state becomes ShuttingDown and the result is null. */
  function ShutdownStep(st: LspState, req: Request): (r: Outcome)
    ensures r.exitCode.None? && r.st.documents == st.documents
    ensures |r.replies| == 1 && r.replies[0].id == req.id && AtMostOneOutcome(r.replies[0])
    ensures (st.state == ShuttingDown || st.state == Shutdown) <==> r.replies[0].error.Some?
    ensures r.replies[0].error.Some? ==>
      r.st == st && r.replies[0] == NewErrorResponse(req.id, InvalidRequest, "Server already shutting down")
    ensures r.replies[0].error.None? ==> r.st.state == ShuttingDown && r.replies[0].result.None?
  {
    if st.state == ShuttingDown || st.state == Shutdown then
      Outcome(st, [NewErrorResponse(req.id, InvalidRequest, "Server already shutting down")], None)
    else
      Outcome(st.(state := ShuttingDown), [ResultResponse(req.id, None)], None)
  }

  /** The exit code handleExit chooses from the state it reads: 0 only for ShuttingDown. */
  function ExitCode(current: ServerState): (code: int)
    ensures code == 0 || code == 1
    ensures code == 0 <==> current == ShuttingDown
  {
    if current == ShuttingDown then 0 else 1
  }

  /**
   * handleExit as written: the state is set to Shutdown first and the exit
   * code is chosen from the state read back afterwards.
   */
  function ExitStep(st: LspState): (r: Outcome)
    ensures r.st == st.(state := Shutdown) && r.replies == [] && r.exitCode.Some?
  {
    var after := st.(state := Shutdown);
    Outcome(after, [], Some(ExitCode(after.state)))
  }

  /** The exit code handleExit yields is 1 in every state, even right after a shutdown request. */
  lemma ExitCodeAlwaysOne(st: LspState)
    ensures ExitStep(st).exitCode == Some(1)
    ensures st.state == ShuttingDown ==> ExitStep(st).exitCode != IntendedExitStep(st).exitCode
  {
  }

  /** handleExit with the exit code chosen from the state before exit was received. */
  function IntendedExitStep(st: LspState): (r: Outcome)
    ensures r.st == st.(state := Shutdown) && r.replies == []
  {
    Outcome(st.(state := Shutdown), [], Some(ExitCode(st.state)))
  }

  /** With the intended ordering, the process exits with 0 exactly when shutdown was requested before exit. */
  lemma IntendedExitCode(st: LspState)
    ensures IntendedExitStep(st).exitCode == Some(0) <==> st.state == ShuttingDown
    ensures IntendedExitStep(st).exitCode == Some(1) <==> st.state != ShuttingDown
  {
  }

  /** didOpen: in state Initialized, a new document under the item's URI, replacing any earlier one. */
  function DidOpenStep(st: LspState, req: Request, codec: Codec): LspState {
    if st.state != Initialized then st
    else match DecodeParams(req.params, codec, codec.params.didOpen)
      case Failure(_) => st
      case Success(p) =>
        var item := p.textDocument;
        var doc := DocValue(item.uri, item.languageId, item.version, item.text);
        st.(documents := st.documents[doc.uri := doc])
  }

  /**
   * The effect of the content changes of one didChange, in order: a change
   * without a range replaces the content and sets the version; a change with a
   * range is ignored.
   */
  function ApplyChanges(d: DocValue, version: int, changes: seq<ContentChange>): DocValue
    decreases |changes|
  {
    if changes == [] then d
    else
      var before := ApplyChanges(d, version, changes[..|changes| - 1]);
      var c := changes[|changes| - 1];
      if c.range.None? then before.(content := c.text, version := version) else before
  }

  /**
   * The last change without a range decides the content, and the version is
   * set only if there is one; a document with only ranged changes is left as
   * it was. The URI and language never change.
   */
  lemma {:induction false} ApplyChangesLastFull(d: DocValue, version: int, changes: seq<ContentChange>)
    ensures ApplyChanges(d, version, changes).uri == d.uri
    ensures ApplyChanges(d, version, changes).languageId == d.languageId
    ensures (forall i | 0 <= i < |changes| :: changes[i].range.Some?) ==> ApplyChanges(d, version, changes) == d
    ensures forall i | 0 <= i < |changes| && changes[i].range.None? && (forall j | i < j < |changes| :: changes[j].range.Some?) ::
      ApplyChanges(d, version, changes) == d.(content := changes[i].text, version := version)
    decreases |changes|
  {
    if changes != [] {
      var init := changes[..|changes| - 1];
      ApplyChangesLastFull(d, version, init);
      forall i | 0 <= i < |changes| && changes[i].range.None? && (forall j | i < j < |changes| :: changes[j].range.Some?)
        ensures ApplyChanges(d, version, changes) == d.(content := changes[i].text, version := version)
      {
        if i < |changes| - 1 {
          assert init[i] == changes[i];
          assert forall j | i < j < |init| :: init[j] == changes[j];
        }
      }
      if forall i | 0 <= i < |changes| :: changes[i].range.Some? {
        assert forall i | 0 <= i < |init| :: init[i] == changes[i];
      }
    }
  }

  /** didChange: in state Initialized, the changes are applied to an open document; an unknown URI is ignored. */
  function DidChangeStep(st: LspState, req: Request, codec: Codec): LspState {
    if st.state != Initialized then st
    else match DecodeParams(req.params, codec, codec.params.didChange)
      case Failure(_) => st
      case Success(p) =>
        var uri := p.textDocument.uri;
        if uri !in st.documents then st
        else
          var doc := ApplyChanges(st.documents[uri], p.textDocument.version, p.contentChanges);
          st.(documents := st.documents[doc.uri := doc])
  }

  /** didClose: in state Initialized, the URI is removed; removing an absent URI is not an error. */
  function DidCloseStep(st: LspState, req: Request, codec: Codec): LspState {
    if st.state != Initialized then st
    else match DecodeParams(req.params, codec, codec.params.didClose)
      case Failure(_) => st
      case Success(p) => st.(documents := st.documents - {p.uri})
  }

  /** handleMessage after the request has been decoded: route by method name. */
  function Dispatch(st: LspState, req: Request, codec: Codec): Outcome {
    match req.methodName
    case "initialize" => InitializeStep(st, req, codec)
    case "initialized" => Outcome(st, [], None)
    case "shutdown" => ShutdownStep(st, req)
    case "exit" => ExitStep(st)
    case "textDocument/didOpen" => Outcome(DidOpenStep(st, req, codec), [], None)
    case "textDocument/didChange" => Outcome(DidChangeStep(st, req, codec), [], None)
    case "textDocument/didClose" => Outcome(DidCloseStep(st, req, codec), [], None)
    case _ =>
      Outcome(st, if req.id.Some? then [NewErrorResponse(req.id, MethodNotFound, "Method not found: " + req.methodName)] else [], None)
  }

  /** handleMessage: a message that does not decode as a request is dropped without a response. */
  function HandleData(st: LspState, data: seq<byte>, codec: Codec): Outcome {
    match codec.decodeRequest(data)
    case None => Outcome(st, [], None)
    case Some(req) => Dispatch(st, req, codec)
  }

  /** The lifecycle only moves forward: no message lowers the state's ordinal. */
  lemma StateOnlyAdvances(st: LspState, data: seq<byte>, codec: Codec)
    ensures Ordinal(HandleData(st, data, codec).st.state) >= Ordinal(st.state)
  {
  }

  /** Documents change only in state Initialized, and only through the three document notifications. */
  lemma DocumentsNeedInitialized(st: LspState, req: Request, codec: Codec)
    ensures st.state != Initialized ==> Dispatch(st, req, codec).st.documents == st.documents
    ensures Dispatch(st, req, codec).st.documents != st.documents ==>
      req.methodName in {"textDocument/didOpen", "textDocument/didChange", "textDocument/didClose"}
  {
  }

  /** Every message keeps each document stored under its own URI. */
  lemma HandleDataKeepsValid(st: LspState, data: seq<byte>, codec: Codec)
    requires ValidState(st)
    ensures ValidState(HandleData(st, data, codec).st)
  {
    if codec.decodeRequest(data).Some? {
      var req := codec.decodeRequest(data).value;
      if req.methodName == "textDocument/didChange" && st.state == Initialized {
        match DecodeParams(req.params, codec, codec.params.didChange)
        case Failure(_) =>
        case Success(p) =>
          var uri := p.textDocument.uri;
          if uri in st.documents {
            ApplyChangesLastFull(st.documents[uri], p.textDocument.version, p.contentChanges);
          }
      }
    }
  }

  /** At most one response per message, always carrying the request's id and never both a result and an error. */
  lemma AtMostOneReply(st: LspState, data: seq<byte>, codec: Codec)
    ensures var o := HandleData(st, data, codec);
      && |o.replies| <= 1
      && (o.replies != [] ==> codec.decodeRequest(data).Some? && o.replies[0].id == codec.decodeRequest(data).value.id)
      && (o.replies != [] ==> AtMostOneOutcome(o.replies[0]))
  {
  }

  /** Only initialize and shutdown always answer; the notifications never do. */
  lemma WhoAnswers(st: LspState, req: Request, codec: Codec)
    ensures req.methodName in {"initialize", "shutdown"} ==> |Dispatch(st, req, codec).replies| == 1
    ensures req.methodName in Methods - {"initialize", "shutdown"} ==> Dispatch(st, req, codec).replies == []
  {
  }

  /**
   * An unknown method changes nothing; it is answered with MethodNotFound
   * exactly when it carries an id, and no known method is answered so.
   */
  lemma UnknownMethod(st: LspState, req: Request, codec: Codec)
    ensures req.methodName !in Methods ==> Dispatch(st, req, codec).st == st && Dispatch(st, req, codec).exitCode.None?
    ensures var o := Dispatch(st, req, codec);
      (o.replies != [] && o.replies[0].error.Some? && o.replies[0].error.value.code == MethodNotFound)
        <==> (req.methodName !in Methods && req.id.Some?)
    ensures req.methodName !in Methods && req.id.Some? ==>
      Dispatch(st, req, codec).replies == [NewErrorResponse(req.id, MethodNotFound, "Method not found: " + req.methodName)]
  {
  }

  /** The process exits on exit and on nothing else. */
  lemma ExitOnlyOnExit(st: LspState, req: Request, codec: Codec)
    ensures Dispatch(st, req, codec).exitCode.Some? <==> req.methodName == "exit"
  {
  }

  /** didOpen in state Initialized stores the item under its URI and leaves every other URI as it was. */
  lemma OpenStores(st: LspState, req: Request, codec: Codec)
    requires st.state == Initialized && DecodeParams(req.params, codec, codec.params.didOpen).Success?
    ensures var item := DecodeParams(req.params, codec, codec.params.didOpen).value.textDocument;
      var t := DidOpenStep(st, req, codec);
      && item.uri in t.documents
      && t.documents[item.uri] == DocValue(item.uri, item.languageId, item.version, item.text)
      && (forall u | u != item.uri :: (u in t.documents <==> u in st.documents))
      && (forall u | u != item.uri && u in st.documents :: t.documents[u] == st.documents[u])
  {
  }

  /** didClose in state Initialized removes the URI and leaves every other URI as it was. */
  lemma CloseRemoves(st: LspState, req: Request, codec: Codec)
    requires st.state == Initialized && DecodeParams(req.params, codec, codec.params.didClose).Success?
    ensures var uri := DecodeParams(req.params, codec, codec.params.didClose).value.uri;
      var t := DidCloseStep(st, req, codec);
      && uri !in t.documents
      && (forall u | u != uri :: (u in t.documents <==> u in st.documents))
      && (forall u | u != uri && u in st.documents :: t.documents[u] == st.documents[u])
  {
  }

  /** didChange never opens a document: a URI that is not open is ignored, and the set of open URIs is kept. */
  lemma ChangeKeepsOpenSet(st: LspState, req: Request, codec: Codec)
    requires ValidState(st)
    ensures DidChangeStep(st, req, codec).documents.Keys == st.documents.Keys
    ensures DidChangeStep(st, req, codec).state == st.state
  {
    if st.state == Initialized {
      match DecodeParams(req.params, codec, codec.params.didChange)
      case Failure(_) =>
      case Success(p) =>
        var uri := p.textDocument.uri;
        if uri in st.documents {
          ApplyChangesLastFull(st.documents[uri], p.textDocument.version, p.contentChanges);
        }
    }
  }

  // ---------------------------------------------------------------------------
  // Start: the message loop over the whole input
  // ---------------------------------------------------------------------------

  /** How Start ends: the client disconnected (io.EOF), the process exited, or `make` panicked on a length out of range. */
  datatype StartOutcome = Disconnected | Exited(code: int) | Crashed(length: int)

  datatype SessionResult = SessionResult(st: LspState, replies: seq<Response>, outcome: StartOutcome)

  /** `rs` written before the rest of a session. */
  function Prefixed(rs: seq<Response>, s: SessionResult): SessionResult {
    SessionResult(s.st, rs + s.replies, s.outcome)
  }

  lemma PrefixedNothing(s: SessionResult)
    ensures Prefixed([], s) == s
  {
    assert [] + s.replies == s.replies;
  }

  /**
   * Start, with messages handled one after the other: read errors other than
   * io.EOF are skipped, a length `make` cannot allocate crashes the process, and
   * exit ends it.
   */
  function Session(input: seq<byte>, st: LspState, codec: Codec): SessionResult
    decreases |input|
  {
    var m := ReadLspFrame(input);
    if m.outcome.Success? then
      var o := HandleData(st, m.outcome.value, codec);
      if o.exitCode.Some? then SessionResult(o.st, o.replies, Exited(o.exitCode.value))
      else Prefixed(o.replies, Session(m.rest, o.st, codec))
    else if m.outcome.error == Eof then SessionResult(st, [], Disconnected)
    else if m.outcome.error.LengthPanic? then SessionResult(st, [], Crashed(m.outcome.error.n))
    else Session(m.rest, st, codec)
  }

  /** The same session over the payloads themselves, as a client sends them. */
  function Replay(st: LspState, payloads: seq<seq<byte>>, codec: Codec): SessionResult
    decreases |payloads|
  {
    if payloads == [] then SessionResult(st, [], Disconnected)
    else
      var o := HandleData(st, payloads[0], codec);
      if o.exitCode.Some? then SessionResult(o.st, o.replies, Exited(o.exitCode.value))
      else Prefixed(o.replies, Replay(o.st, payloads[1..], codec))
  }

  /**
   * On the frames a client writes for a sequence of payloads, the server
   * handles exactly those payloads in order, and reaching the end of the
   * input is a disconnect.
   */
  lemma {:induction false} SessionOfFrames(st: LspState, payloads: seq<seq<byte>>, codec: Codec)
    requires forall i | 0 <= i < |payloads| :: |payloads[i]| <= MaxAlloc
    ensures Session(Frames(payloads), st, codec) == Replay(st, payloads, codec)
    decreases |payloads|
  {
    if payloads == [] {
      assert ReadLspFrame([]).outcome == Failure(Eof);
    } else {
      var p := payloads[0];
      var tail := payloads[1..];
      assert payloads == [p] + tail;
      FramesCons(p, tail);
      LspReadFrameOfFrame(p, Frames(tail));
      var o := HandleData(st, p, codec);
      if o.exitCode.None? {
        SessionOfFrames(o.st, tail, codec);
      }
    }
  }

  /** A session answers at most once per payload and keeps the documents keyed by URI. */
  lemma {:induction false} ReplayBounds(st: LspState, payloads: seq<seq<byte>>, codec: Codec)
    requires ValidState(st)
    ensures |Replay(st, payloads, codec).replies| <= |payloads|
    ensures ValidState(Replay(st, payloads, codec).st)
    ensures Ordinal(Replay(st, payloads, codec).st.state) >= Ordinal(st.state)
    decreases |payloads|
  {
    if payloads != [] {
      var o := HandleData(st, payloads[0], codec);
      AtMostOneReply(st, payloads[0], codec);
      HandleDataKeepsValid(st, payloads[0], codec);
      StateOnlyAdvances(st, payloads[0], codec);
      if o.exitCode.None? {
        ReplayBounds(o.st, payloads[1..], codec);
      }
    }
  }

  /** The one-step unfolding of Session, for use inside Start's loop. */
  lemma SessionStep(input: seq<byte>, st: LspState, codec: Codec)
    ensures var m := ReadLspFrame(input);
      Session(input, st, codec) ==
        if m.outcome.Success? then
          var o := HandleData(st, m.outcome.value, codec);
          if o.exitCode.Some? then SessionResult(o.st, o.replies, Exited(o.exitCode.value))
          else Prefixed(o.replies, Session(m.rest, o.st, codec))
        else if m.outcome.error == Eof then SessionResult(st, [], Disconnected)
        else if m.outcome.error.LengthPanic? then SessionResult(st, [], Crashed(m.outcome.error.n))
        else Session(m.rest, st, codec)
  {
  }

  // ---------------------------------------------------------------------------
  // The server object
  // ---------------------------------------------------------------------------

  /** An open document. Only the version and the content are updated in place. */
  class Document {
    const uri: string
    const languageId: string
    var version: int
    var content: string

    constructor (uri: string, languageId: string, version: int, content: string)
      ensures this.uri == uri && this.languageId == languageId && this.version == version && this.content == content
    {
      this.uri := uri;
      this.languageId := languageId;
      this.version := version;
      this.content := content;
    }

    function Value(): DocValue
      reads this
    {
      DocValue(uri, languageId, version, content)
    }

    /** The loop of handleTextDocumentDidChange: each change without a range replaces the content and sets the version. */
    method Apply(newVersion: int, changes: seq<ContentChange>)
      modifies this
      ensures Value() == ApplyChanges(old(Value()), newVersion, changes)
    {
      var i := 0;
      while i < |changes|
        invariant 0 <= i <= |changes|
        invariant Value() == ApplyChanges(old(Value()), newVersion, changes[..i])
      {
        assert changes[..i + 1][..i] == changes[..i];
        if changes[i].range.None? {
          content := changes[i].text;
          version := newVersion;
        }
        i := i + 1;
      }
      assert changes[..i] == changes;
    }
  }

  class Server {
    var unread: seq<byte>
    var output: seq<byte>
    var state: ServerState
    var documents: map<string, Document>
    const codec: Codec
    /** The responses written so far. */
    ghost var sent: seq<Response>

    /** Every document object is stored under its own URI (so no object is stored twice). */
    ghost predicate Valid()
      reads this`documents, documents.Values
    {
      forall u | u in documents :: documents[u].uri == u
    }

    /** The value of the server. */
    function Abstract(): LspState
      reads this`state, this`documents, documents.Values
    {
      LspState(state, Docs())
    }

    /** The value of every open document, by URI. */
    function Docs(): map<string, DocValue>
      reads this`documents, documents.Values
    {
      map u | u in documents :: documents[u].Value()
    }

    /** NewServer: uninitialized, no documents, reading `input`. */
    constructor (input: seq<byte>, codec: Codec)
      ensures Valid() && Abstract() == LspState(Uninitialized, map[])
      ensures unread == input && output == [] && sent == [] && this.codec == codec
    {
      unread := input;
      output := [];
      state := Uninitialized;
      documents := map[];
      this.codec := codec;
      sent := [];
    }

    method GetDocument(uri: string) returns (r: Option<Document>)
      ensures r.Some? <==> uri in documents
      ensures r.Some? ==> r.value == documents[uri]
    {
      if uri in documents { r := Some(documents[uri]); } else { r := None; }
    }

    method SetDocument(uri: string, doc: Document)
      modifies this`documents
      ensures documents == old(documents)[uri := doc]
    {
      documents := documents[uri := doc];
    }

    method DeleteDocument(uri: string)
      modifies this`documents
      ensures documents == old(documents) - {uri}
    {
      documents := documents - {uri};
    }

    method GetState() returns (s: ServerState)
      ensures s == state
    {
      s := state;
    }

    method SetState(s: ServerState)
      modifies this`state
      ensures Docs() == old(Docs())
      ensures state == s
    {
      state := s;
    }

    /** writeMessage: the frame of the encoded message is appended to the output. */
    method WriteMessage(resp: Response)
      modifies this`output, this`sent
      ensures Docs() == old(Docs())
      ensures sent == old(sent) + [resp]
      ensures output == old(output) + Written([resp], codec.encodeResponse)
    {
      assert Written([resp], codec.encodeResponse) == Written([], codec.encodeResponse) + Frame(codec.encodeResponse(resp));
      output := output + Frame(codec.encodeResponse(resp));
      sent := sent + [resp];
    }

    /** sendResponse: a response with the result and no error. */
    method SendResponse(id: Option<Id>, result: Option<RawMessage>)
      modifies this`output, this`sent
      ensures Docs() == old(Docs())
      ensures sent == old(sent) + [ResultResponse(id, result)]
      ensures output == old(output) + Written([ResultResponse(id, result)], codec.encodeResponse)
    {
      WriteMessage(Response(JsonRpcVersion, id, result, None));
    }

    /** sendError: a response with the error code and message and no result. */
    method SendError(id: Option<Id>, code: int, message: string)
      modifies this`output, this`sent
      ensures Docs() == old(Docs())
      ensures sent == old(sent) + [NewErrorResponse(id, code, message)]
      ensures output == old(output) + Written([NewErrorResponse(id, code, message)], codec.encodeResponse)
    {
      WriteMessage(Response(JsonRpcVersion, id, None, Some(ResponseError(code, message, None))));
    }

    method HandleInitialize(req: Request)
      requires Valid()
      modifies this`state, this`output, this`sent
      ensures Valid()
      ensures var o := InitializeStep(old(Abstract()), req, codec);
        && Abstract() == o.st && sent == old(sent) + o.replies
        && output == old(output) + Written(o.replies, codec.encodeResponse)
    {
      var s := GetState();
      if s != Uninitialized {
        SendError(req.id, InvalidRequest, "Server already initialized");
        return;
      }
      SetState(Initializing);
      var data := codec.marshalParams(req.params);
      if data.Failure? {
        SendError(req.id, InternalError, "Failed to process parameters");
        return;
      }
      var params := codec.params.initialize(data.value);
      if params.Failure? {
        SendError(req.id, InvalidParams, "Invalid initialize parameters");
        return;
      }
      SetState(Initialized);
      SendResponse(req.id, Some(codec.encodeResult(Capabilities)));
    }

    /** handleInitialized: only looks at the state; true when the client's confirmation is accepted. */
    method HandleInitialized() returns (confirmed: bool)
      ensures confirmed <==> state == Initialized
    {
      var s := GetState();
      confirmed := s == Initialized;
    }

    method HandleShutdown(req: Request)
      requires Valid()
      modifies this`state, this`output, this`sent
      ensures Valid()
      ensures var o := ShutdownStep(old(Abstract()), req);
        && Abstract() == o.st && sent == old(sent) + o.replies
        && output == old(output) + Written(o.replies, codec.encodeResponse)
    {
      var s := GetState();
      if s == ShuttingDown || s == Shutdown {
        SendError(req.id, InvalidRequest, "Server already shutting down");
        return;
      }
      SetState(ShuttingDown);
      SendResponse(req.id, None);
    }

    /** handleExit: `os.Exit` becomes the returned code. */
    method HandleExit() returns (code: int)
      requires Valid()
      modifies this`state
      ensures Valid()
      ensures var o := ExitStep(old(Abstract()));
        Abstract() == o.st && o.exitCode == Some(code)
    {
      SetState(Shutdown);
      var s := GetState();
      code := if s == ShuttingDown then 0 else 1;
      assert Abstract() == old(Abstract()).(state := Shutdown);
    }

    method HandleDidOpen(req: Request)
      requires Valid()
      modifies this`documents
      ensures Valid()
      ensures forall d | d in documents.Values :: d in old(documents.Values) || fresh(d)
      ensures Abstract() == DidOpenStep(old(Abstract()), req, codec)
    {
      var s := GetState();
      if s != Initialized {
        return;
      }
      var data := codec.marshalParams(req.params);
      if data.Failure? {
        return;
      }
      var params := codec.params.didOpen(data.value);
      if params.Failure? {
        return;
      }
      var item := params.value.textDocument;
      var doc := new Document(item.uri, item.languageId, item.version, item.text);
      SetDocument(doc.uri, doc);
      assert Abstract().documents == old(Abstract()).documents[item.uri := doc.Value()];
    }

    /**
     * handleTextDocumentDidChange: the stored document object itself is
     * updated, change by change; the map keeps the same object.
     */
    method HandleDidChange(req: Request)
      requires Valid()
      modifies this`documents, documents.Values
      ensures Valid() && documents == old(documents)
      ensures Abstract() == DidChangeStep(old(Abstract()), req, codec)
    {
      ghost var before := Docs();
      var s := GetState();
      if s != Initialized {
        return;
      }
      var data := codec.marshalParams(req.params);
      if data.Failure? {
        return;
      }
      var params := codec.params.didChange(data.value);
      if params.Failure? {
        return;
      }
      var p := params.value;
      var found := GetDocument(p.textDocument.uri);
      if found.None? {
        return;
      }
      var doc := found.value;
      doc.Apply(p.textDocument.version, p.contentChanges);
      SetDocument(doc.uri, doc);
      forall u | u in documents && u != doc.uri
        ensures documents[u].Value() == before[u]
      {
        assert documents[u].uri != doc.uri;
      }
      assert Docs() == before[doc.uri := doc.Value()];
    }

    method HandleDidClose(req: Request)
      requires Valid()
      modifies this`documents
      ensures Valid() && documents.Values <= old(documents.Values)
      ensures Abstract() == DidCloseStep(old(Abstract()), req, codec)
    {
      var s := GetState();
      if s != Initialized {
        return;
      }
      var data := codec.marshalParams(req.params);
      if data.Failure? {
        return;
      }
      var params := codec.params.didClose(data.value);
      if params.Failure? {
        return;
      }
      DeleteDocument(params.value.uri);
      assert Abstract().documents == old(Abstract()).documents - {params.value.uri};
    }

    /** handleMessage: decode the request and route it; the exit code is returned when the process exits. */
    method HandleMessage(data: seq<byte>) returns (exit: Option<int>)
      requires Valid()
      modifies this`state, this`documents, this`output, this`sent, documents.Values
      ensures Valid()
      ensures forall d | d in documents.Values :: d in old(documents.Values) || fresh(d)
      ensures var o := HandleData(old(Abstract()), data, codec);
        && Abstract() == o.st && exit == o.exitCode && sent == old(sent) + o.replies
        && output == old(output) + Written(o.replies, codec.encodeResponse)
    {
      exit := None;
      var request := codec.decodeRequest(data);
      assert sent == old(sent) + [] && output == old(output) + Written([], codec.encodeResponse);
      if request.None? {
        return;
      }
      var req := request.value;
      match req.methodName
      case "initialize" =>
        HandleInitialize(req);
      case "initialized" =>
        var _ := HandleInitialized();
      case "shutdown" =>
        HandleShutdown(req);
      case "exit" =>
        var code := HandleExit();
        exit := Some(code);
      case "textDocument/didOpen" =>
        HandleDidOpen(req);
      case "textDocument/didChange" =>
        HandleDidChange(req);
      case "textDocument/didClose" =>
        HandleDidClose(req);
      case _ =>
        if req.id.Some? {
          SendError(req.id, MethodNotFound, "Method not found: " + req.methodName);
        }
    }

    /**
     * readMessage: header lines up to the blank line, the Content-Length value
     * scanned as an integer, then exactly that many bytes of payload.
     */
    method ReadMessage() returns (r: Result<seq<byte>, ReadError>)
      modifies this`unread
      ensures ReadLspFrame(old(unread)) == Read(r, unread)
    {
      var headers: Headers := map[];
      while true
        invariant ReadLspHeaders(old(unread), map[]) == ReadLspHeaders(unread, headers)
        decreases |unread|
      {
        var line := ReadString(unread);
        if line.None? {
          unread := [];
          return Failure(Eof);
        }
        var raw := line.value.0;
        unread := line.value.1;
        match ParseLspLine(raw)
        case End =>
          break;
        case Skipped =>
        case Field(key, value) =>
          headers := headers[key := value];
      }
      if ContentLengthKey !in headers {
        return Failure(MissingContentLength);
      }
      var value := headers[ContentLengthKey];
      var n := ScanInt(value);
      if n.None? {
        return Failure(InvalidContentLength(value));
      }
      if MakePanics(n.value) {
        return Failure(LengthPanic(n.value));
      }
      var body := ReadFull(unread, n.value);
      unread := body.rest;
      r := body.outcome;
    }

    /**
     * Start: read and handle messages until the input ends, the process exits
     * or a length out of range makes `make` panic; other read errors are skipped.
     */
    method Start() returns (outcome: StartOutcome)
      requires Valid()
      modifies this`unread, this`state, this`documents, this`output, this`sent, documents.Values
      ensures Valid()
      ensures var g := Session(old(unread), old(Abstract()), codec);
        && Abstract() == g.st && outcome == g.outcome && sent == old(sent) + g.replies
        && output == old(output) + Written(g.replies, codec.encodeResponse)
    {
      ghost var goal := Session(unread, Abstract(), codec);
      ghost var done: seq<Response> := [];
      assert goal == Prefixed(done, goal);
      assert sent == old(sent) + done && output == old(output) + Written(done, codec.encodeResponse);
      while true
        invariant Valid()
        invariant forall d | d in documents.Values :: d in old(documents.Values) || fresh(d)
        invariant goal == Prefixed(done, Session(unread, Abstract(), codec))
        invariant sent == old(sent) + done
        invariant output == old(output) + Written(done, codec.encodeResponse)
        decreases |unread|
      {
        ghost var here := Session(unread, Abstract(), codec);
        var finished, replies := Turn();
        AppendAssoc(old(sent), done, replies);
        WrittenAppend(done, replies, codec.encodeResponse);
        AppendAssoc(old(output), Written(done, codec.encodeResponse), Written(replies, codec.encodeResponse));
        if finished.Some? {
          return finished.value;
        }
        AppendAssoc(done, replies, Session(unread, Abstract(), codec).replies);
        done := done + replies;
      }
    }

    /** One turn of Start's loop: read a message and, if that succeeded, handle it. */
    method Turn() returns (finished: Option<StartOutcome>, ghost replies: seq<Response>)
      requires Valid()
      modifies this`unread, this`state, this`documents, this`output, this`sent, documents.Values
      ensures Valid()
      ensures forall d | d in documents.Values :: d in old(documents.Values) || fresh(d)
      ensures sent == old(sent) + replies
      ensures output == old(output) + Written(replies, codec.encodeResponse)
      ensures finished.Some? ==>
        Session(old(unread), old(Abstract()), codec) == SessionResult(Abstract(), replies, finished.value)
      ensures finished.None? ==>
        && |unread| < |old(unread)|
        && Session(old(unread), old(Abstract()), codec) == Prefixed(replies, Session(unread, Abstract(), codec))
    {
      ghost var st0 := Abstract();
      ghost var m := ReadLspFrame(unread);
      SessionStep(unread, st0, codec);
      var msg := ReadMessage();
      assert m == Read(msg, unread) && Abstract() == st0;
      replies := [];
      assert sent == old(sent) + replies && output == old(output) + Written(replies, codec.encodeResponse);
      if msg.Failure? {
        if msg.error == Eof {
          return Some(Disconnected), replies;
        }
        if msg.error.LengthPanic? {
          return Some(Crashed(msg.error.n)), replies;
        }
        ghost var later := Session(unread, Abstract(), codec);
        PrefixedNothing(later);
        return None, replies;
      }
      replies := HandleData(Abstract(), msg.value, codec).replies;
      var exit := HandleMessage(msg.value);
      if exit.Some? {
        return Some(Exited(exit.value)), replies;
      }
      finished := None;
    }
  }
}
