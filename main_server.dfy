/**
 * `server/server.go`: the server the `lsp-server` command runs. Every message
 * goes through `handle`, which first refuses everything but "exit" once the
 * shutdown flag is set and then switches on the method name. The document
 * methods write a `document.Manager` that the language-feature handlers share.
 *
 * The jsonrpc2 connection is not modelled: a call's reply is returned, and the
 * diagnostics it would publish are returned beside it. `json.Unmarshal` into
 * each params struct is the `Decoder` passed in.
 */
module MainServer {
  import opened Wrappers
  import opened Bytes
  import opened Protocol
  import Strings
  import DM = DocumentManager
  import H = Handlers

  /** Where `handle` sends a message: refused by the shutdown gate, one of fourteen handlers, or not found. */
  datatype Route =
    | Gated
    | InitializeRoute | InitializedRoute | ShutdownRoute | ExitRoute
    | DidOpenRoute | DidChangeRoute | DidCloseRoute | DidSaveRoute
    | HoverRoute | DefinitionRoute | ReferencesRoute | DocumentSymbolRoute | WorkspaceSymbolRoute | CompletionRoute
    | NotFound

  /** The fourteen method names `handle` routes to a handler. */
  const Methods: set<string> := {"initialize", "initialized", "shutdown", "exit",
    "textDocument/didOpen", "textDocument/didChange", "textDocument/didClose", "textDocument/didSave",
    "textDocument/hover", "textDocument/definition", "textDocument/references",
    "textDocument/documentSymbol", "workspace/symbol", "textDocument/completion"}

  /** The method name a handler route is taken for. */
  function MethodOf(r: Route): string {
    match r
    case InitializeRoute => "initialize"
    case InitializedRoute => "initialized"
    case ShutdownRoute => "shutdown"
    case ExitRoute => "exit"
    case DidOpenRoute => "textDocument/didOpen"
    case DidChangeRoute => "textDocument/didChange"
    case DidCloseRoute => "textDocument/didClose"
    case DidSaveRoute => "textDocument/didSave"
    case HoverRoute => "textDocument/hover"
    case DefinitionRoute => "textDocument/definition"
    case ReferencesRoute => "textDocument/references"
    case DocumentSymbolRoute => "textDocument/documentSymbol"
    case WorkspaceSymbolRoute => "workspace/symbol"
    case CompletionRoute => "textDocument/completion"
    case _ => ""
  }

  /** `handle`'s routing decision, from the shutdown flag and the method name. */
  function RouteOf(shutdown: bool, methodName: string): (r: Route)
    ensures shutdown && methodName != "exit" ==> r == Gated
    ensures r == NotFound <==> methodName !in Methods && !(shutdown && methodName != "exit")
    ensures r != Gated && r != NotFound ==> MethodOf(r) == methodName
  {
    if shutdown && methodName != "exit" then Gated
    else match methodName
      case "initialize" => InitializeRoute
      case "initialized" => InitializedRoute
      case "shutdown" => ShutdownRoute
      case "exit" => ExitRoute
      case "textDocument/didOpen" => DidOpenRoute
      case "textDocument/didChange" => DidChangeRoute
      case "textDocument/didClose" => DidCloseRoute
      case "textDocument/didSave" => DidSaveRoute
      case "textDocument/hover" => HoverRoute
      case "textDocument/definition" => DefinitionRoute
      case "textDocument/references" => ReferencesRoute
      case "textDocument/documentSymbol" => DocumentSymbolRoute
      case "workspace/symbol" => WorkspaceSymbolRoute
      case "textDocument/completion" => CompletionRoute
      case _ => NotFound
  }

  /** Each handler route is taken for exactly one name, and before shutdown that name is routed to it. */
  lemma RouteOfMethod(r: Route)
    requires r != Gated && r != NotFound
    ensures MethodOf(r) in Methods
    ensures RouteOf(false, MethodOf(r)) == r
  {
  }

  /** The capabilities the server advertises. */
  const Capabilities: ServerCapabilities := ServerCapabilities(
    SyncOptions(true, SyncFull, Some(SaveOptions(false))),
    true, true, true, true, true,
    Some(CompletionOptions(false, [".", ":", ">"])))

  const Info: ServerInfo := ServerInfo("lsp-server", "1.0.0")

  /** The method names of the language features `c` advertises. */
  function AdvertisedMethods(c: ServerCapabilities): (r: set<string>)
    ensures "textDocument/hover" in r <==> c.hover
    ensures "textDocument/completion" in r <==> c.completion.Some?
  {
    (if c.hover then {"textDocument/hover"} else {})
    + (if c.definition then {"textDocument/definition"} else {})
    + (if c.references then {"textDocument/references"} else {})
    + (if c.documentSymbol then {"textDocument/documentSymbol"} else {})
    + (if c.workspaceSymbol then {"workspace/symbol"} else {})
    + (if c.completion.Some? then {"textDocument/completion"} else {})
  }

  /**
   * The capabilities promise full-text sync with open/close and a save without
   * text, and six language features; before shutdown every advertised feature
   * is routed to a handler.
   */
  lemma AdvertisedFeaturesAreRouted()
    ensures Capabilities.sync == SyncOptions(true, SyncFull, Some(SaveOptions(false)))
    ensures |AdvertisedMethods(Capabilities)| == 6
    ensures forall m | m in AdvertisedMethods(Capabilities) :: m in Methods && RouteOf(false, m) != NotFound
  {
    assert AdvertisedMethods(Capabilities) == {"textDocument/hover", "textDocument/definition", "textDocument/references",
      "textDocument/documentSymbol", "workspace/symbol", "textDocument/completion"};
  }

  // ---------------------------------------------------------------------------
  // Params and replies

  /** A change event as `handle` sees it: a whole-text change, or any other kind the type assertion rejects. */
  datatype Change = TextChange(text: string) | OtherChange

  datatype OpenItem = OpenItem(uri: string, languageId: string, version: DM.Int32, text: string)
  datatype ChangeParams = ChangeParams(uri: string, version: DM.Int32, contentChanges: seq<Change>)
  datatype PositionParams = PositionParams(uri: string, position: DM.Position)

  /** `json.Unmarshal` of raw params into each params struct: the struct, or the decoding error's text. */
  datatype Decoder = Decoder(
    initialize: seq<byte> -> Result<InitializeParams, string>,
    didOpen: seq<byte> -> Result<OpenItem, string>,
    didChange: seq<byte> -> Result<ChangeParams, string>,
    didClose: seq<byte> -> Result<string, string>,
    didSave: seq<byte> -> Result<string, string>,
    hover: seq<byte> -> Result<PositionParams, string>,
    definition: seq<byte> -> Result<PositionParams, string>,
    references: seq<byte> -> Result<PositionParams, string>,
    documentSymbol: seq<byte> -> Result<string, string>,
    workspaceSymbol: seq<byte> -> Result<string, string>,
    completion: seq<byte> -> Result<PositionParams, string>)

  /**
   * The error of a reply: jsonrpc2's ErrServerNotInitialized (code -32002) or
   * ErrMethodNotFound (code -32601), or a decoding error's wrapped text.
   */
  datatype ReplyError = ServerNotInitialized | MethodNotFound | Unmarshal(message: string)

  /**
   * A successful reply: null, the initialize result, a hover, a completion
   * list, or the reply of a symbol handler, which is not part of this model.
   */
  datatype Answer =
    | Null
    | Initialized(result: InitializeResult)
    | HoverAnswer(hover: Option<H.HoverInfo>)
    | CompletionAnswer(list: H.CompletionList)
    | SymbolHandler(route: Route)

  type Reply = Result<Answer, ReplyError>

  /** A publishDiagnostics notification. */
  datatype Publication = Publication(uri: string, diagnostics: seq<Diagnostic>)

  /**
   * What one call does besides changing the state: its reply and what it
   * publishes, or a panic that ends the process (nothing recovers it).
   */
  datatype Outcome = Outcome(reply: Reply, published: Option<Publication>) | Panicked(reason: string)

  /** The runtime error of reading a field through a nil pointer. */
  const NilDereference: string := "invalid memory address or nil pointer dereference"

  /** The value of the server: the two flags and the open documents. */
  datatype State = State(initialized: bool, shutdown: bool, docs: map<string, DM.DocValue>)

  /** GetDiagnostics on the documents `docs`: none for an unknown URI. */
  function DiagnosticsOf(docs: map<string, DM.DocValue>, uri: string): seq<Diagnostic> {
    if uri in docs then H.Diagnostics(docs[uri].lines) else []
  }

  function UnmarshalError(what: string, e: string): Reply {
    Failure(Unmarshal("failed to unmarshal " + what + " params: " + e))
  }

  function Replied(s: State, r: Reply): (State, Outcome) {
    (s, Outcome(r, None))
  }

  /** The document store after didChange: the last change's text and the version, when the last change is a text change. */
  function ChangedDocs(docs: map<string, DM.DocValue>, p: ChangeParams): map<string, DM.DocValue> {
    var changes := p.contentChanges;
    if |changes| > 0 && changes[|changes| - 1].TextChange? && p.uri in docs then
      var text := changes[|changes| - 1].text;
      docs[p.uri := DM.DocValue(p.uri, text, p.version, Strings.Split(text, '\n'))]
    else docs
  }

  /** What the handler on route `r` does with `params` on the server value `s`. */
  function Dispatch(s: State, r: Route, params: seq<byte>, dec: Decoder,
                    extract: seq<string> -> seq<H.DocumentSymbol>): (State, Outcome) {
    match r
    case Gated => Replied(s, Failure(ServerNotInitialized))
    case NotFound => Replied(s, Failure(MethodNotFound))
    case InitializeRoute =>
      (match dec.initialize(params)
       case Failure(e) => Replied(s, UnmarshalError("initialize", e))
       case Success(p) =>
         // the log line reads params.ClientInfo.Name, and ClientInfo is a pointer
         if p.clientInfo.None? then (s, Panicked(NilDereference))
         else Replied(s, Success(Initialized(InitializeResult(Capabilities, Some(Info))))))
    case InitializedRoute => Replied(s.(initialized := true), Success(Null))
    case ShutdownRoute => Replied(s.(shutdown := true), Success(Null))
    case ExitRoute => Replied(s, Success(Null))
    case DidOpenRoute =>
      (match dec.didOpen(params)
       case Failure(e) => Replied(s, UnmarshalError("didOpen", e))
       case Success(item) =>
         var docs := s.docs[item.uri := DM.DocValue(item.uri, item.text, item.version, Strings.Split(item.text, '\n'))];
         (s.(docs := docs), Outcome(Success(Null), Some(Publication(item.uri, DiagnosticsOf(docs, item.uri))))))
    case DidChangeRoute =>
      (match dec.didChange(params)
       case Failure(e) => Replied(s, UnmarshalError("didChange", e))
       case Success(p) =>
         var changes := p.contentChanges;
         if |changes| > 0 && changes[|changes| - 1].TextChange? then
           var docs := ChangedDocs(s.docs, p);
           (s.(docs := docs), Outcome(Success(Null), Some(Publication(p.uri, DiagnosticsOf(docs, p.uri)))))
         else Replied(s, Success(Null)))
    case DidCloseRoute =>
      (match dec.didClose(params)
       case Failure(e) => Replied(s, UnmarshalError("didClose", e))
       case Success(uri) => Replied(s.(docs := s.docs - {uri}), Success(Null)))
    case DidSaveRoute =>
      (match dec.didSave(params)
       case Failure(e) => Replied(s, UnmarshalError("didSave", e))
       case Success(_) => Replied(s, Success(Null)))
    case HoverRoute =>
      (match dec.hover(params)
       case Failure(e) => Replied(s, UnmarshalError("hover", e))
       case Success(p) => Replied(s, Success(HoverAnswer(H.HoverOf(s.docs, p.uri, p.position)))))
    case DefinitionRoute =>
      (match dec.definition(params)
       case Failure(e) => Replied(s, UnmarshalError("definition", e))
       case Success(_) => Replied(s, Success(SymbolHandler(r))))
    case ReferencesRoute =>
      (match dec.references(params)
       case Failure(e) => Replied(s, UnmarshalError("references", e))
       case Success(_) => Replied(s, Success(SymbolHandler(r))))
    case DocumentSymbolRoute =>
      (match dec.documentSymbol(params)
       case Failure(e) => Replied(s, UnmarshalError("document symbol", e))
       case Success(_) => Replied(s, Success(SymbolHandler(r))))
    case WorkspaceSymbolRoute =>
      (match dec.workspaceSymbol(params)
       case Failure(e) => Replied(s, UnmarshalError("workspace symbol", e))
       case Success(_) => Replied(s, Success(SymbolHandler(r))))
    case CompletionRoute =>
      (match dec.completion(params)
       case Failure(e) => Replied(s, UnmarshalError("completion", e))
       case Success(p) => Replied(s, Success(CompletionAnswer(H.CompletionOf(s.docs, p.uri, p.position, extract)))))
  }

  /** One `handle(methodName, params)` call on the server value `s`. */
  function Step(s: State, methodName: string, params: seq<byte>, dec: Decoder,
                extract: seq<string> -> seq<H.DocumentSymbol>): (State, Outcome) {
    Dispatch(s, RouteOf(s.shutdown, methodName), params, dec, extract)
  }

  /** After shutdown everything but exit is refused with ServerNotInitialized and changes nothing. */
  lemma ShutdownGate(s: State, methodName: string, params: seq<byte>, dec: Decoder,
                     extract: seq<string> -> seq<H.DocumentSymbol>)
    requires s.shutdown
    ensures methodName != "exit" <==>
      Step(s, methodName, params, dec, extract) == (s, Outcome(Failure(ServerNotInitialized), None))
  {
  }

  /** Exactly the names outside the fourteen are answered MethodNotFound, and only before shutdown. */
  lemma UnknownMethod(s: State, methodName: string, params: seq<byte>, dec: Decoder,
                      extract: seq<string> -> seq<H.DocumentSymbol>)
    ensures Step(s, methodName, params, dec, extract).1 == Outcome(Failure(MethodNotFound), None) <==>
      !s.shutdown && methodName !in Methods
    ensures methodName !in Methods ==> Step(s, methodName, params, dec, extract).0 == s
  {
  }

  /** Neither flag is ever reset, and only the initialized and shutdown methods set them. */
  lemma FlagsOnlyRise(s: State, methodName: string, params: seq<byte>, dec: Decoder,
                      extract: seq<string> -> seq<H.DocumentSymbol>)
    ensures var t := Step(s, methodName, params, dec, extract).0;
      && (s.initialized ==> t.initialized) && (s.shutdown ==> t.shutdown)
      && (t.initialized != s.initialized ==> methodName == "initialized")
      && (t.shutdown != s.shutdown ==> methodName == "shutdown")
  {
  }

  /** Only the three document-sync methods change the documents. */
  lemma OnlySyncChangesDocuments(s: State, methodName: string, params: seq<byte>, dec: Decoder,
                                 extract: seq<string> -> seq<H.DocumentSymbol>)
    requires methodName !in {"textDocument/didOpen", "textDocument/didChange", "textDocument/didClose"}
    ensures Step(s, methodName, params, dec, extract).0.docs == s.docs
  {
  }

  /** Document sync is not gated on the initialized flag: it does the same before and after initialized. */
  lemma SyncIgnoresInitialized(s: State, b: bool, methodName: string, params: seq<byte>, dec: Decoder,
                               extract: seq<string> -> seq<H.DocumentSymbol>)
    ensures Step(s.(initialized := b), methodName, params, dec, extract).0.docs == Step(s, methodName, params, dec, extract).0.docs
    ensures Step(s.(initialized := b), methodName, params, dec, extract).1 == Step(s, methodName, params, dec, extract).1
  {
    var t := s.(initialized := b);
    assert t.docs == s.docs && t.shutdown == s.shutdown;
    var r := RouteOf(s.shutdown, methodName);
    match r {
      case DidOpenRoute =>
      case DidChangeRoute =>
      case DidCloseRoute =>
      case HoverRoute =>
      case CompletionRoute =>
      case _ =>
    }
  }

  /** didChange with no changes, or whose last change is not a whole-text change, changes nothing and publishes nothing. */
  lemma ChangeWithoutText(s: State, params: seq<byte>, dec: Decoder, extract: seq<string> -> seq<H.DocumentSymbol>)
    requires !s.shutdown && dec.didChange(params).Success?
    requires var c := dec.didChange(params).value.contentChanges; c == [] || c[|c| - 1] == OtherChange
    ensures Step(s, "textDocument/didChange", params, dec, extract) == (s, Outcome(Success(Null), None))
  {
  }

  /**
   * didChange applies only the last change: on an open document the content
   * becomes its text, split again into lines, with the params version, and the
   * new content's diagnostics are published; earlier changes are ignored.
   */
  lemma LastChangeWins(s: State, params: seq<byte>, dec: Decoder, extract: seq<string> -> seq<H.DocumentSymbol>)
    requires !s.shutdown && dec.didChange(params).Success?
    requires var p := dec.didChange(params).value;
      |p.contentChanges| > 0 && p.contentChanges[|p.contentChanges| - 1].TextChange? && p.uri in s.docs
    ensures var p := dec.didChange(params).value;
      var text := p.contentChanges[|p.contentChanges| - 1].text;
      var lines := Strings.Split(text, '\n');
      Step(s, "textDocument/didChange", params, dec, extract)
        == (s.(docs := s.docs[p.uri := DM.DocValue(p.uri, text, p.version, lines)]),
            Outcome(Success(Null), Some(Publication(p.uri, H.Diagnostics(lines)))))
  {
    var p := dec.didChange(params).value;
    var text := p.contentChanges[|p.contentChanges| - 1].text;
    var docs := s.docs[p.uri := DM.DocValue(p.uri, text, p.version, Strings.Split(text, '\n'))];
    assert RouteOf(s.shutdown, "textDocument/didChange") == DidChangeRoute;
    assert ChangedDocs(s.docs, p) == docs;
    assert DiagnosticsOf(docs, p.uri) == H.Diagnostics(Strings.Split(text, '\n'));
  }

  /**
   * didChange on a URI that is not open inserts nothing; an empty diagnostics
   * list is published for it exactly when the last change carries text.
   */
  lemma ChangeOfClosedDocument(s: State, params: seq<byte>, dec: Decoder, extract: seq<string> -> seq<H.DocumentSymbol>)
    requires !s.shutdown && dec.didChange(params).Success? && dec.didChange(params).value.uri !in s.docs
    ensures Step(s, "textDocument/didChange", params, dec, extract).0 == s
    ensures var p := dec.didChange(params).value;
      var c := p.contentChanges;
      Step(s, "textDocument/didChange", params, dec, extract).1
        == Outcome(Success(Null), if c != [] && c[|c| - 1].TextChange? then Some(Publication(p.uri, [])) else None)
  {
    assert RouteOf(s.shutdown, "textDocument/didChange") == DidChangeRoute;
  }

  /**
   * initialize changes nothing: an undecodable request is answered with the
   * decoding error, one without clientInfo panics, and any other is answered
   * with the server's capabilities and its name and version.
   */
  lemma InitializeAnswers(s: State, params: seq<byte>, dec: Decoder, extract: seq<string> -> seq<H.DocumentSymbol>)
    requires !s.shutdown
    ensures var (t, o) := Step(s, "initialize", params, dec, extract);
      && t == s
      && (o.Panicked? <==> dec.initialize(params).Success? && dec.initialize(params).value.clientInfo.None?)
      && (dec.initialize(params).Failure? ==> o == Outcome(UnmarshalError("initialize", dec.initialize(params).error), None))
      && (dec.initialize(params).Success? && dec.initialize(params).value.clientInfo.Some? ==>
            o == Outcome(Success(Initialized(InitializeResult(Capabilities, Some(Info)))), None))
  {
  }

  /** didOpen stores the document, replacing any earlier one, and publishes the diagnostics of its text. */
  lemma OpenPublishesDiagnostics(s: State, params: seq<byte>, dec: Decoder, extract: seq<string> -> seq<H.DocumentSymbol>)
    requires !s.shutdown && dec.didOpen(params).Success?
    ensures var item := dec.didOpen(params).value;
      var (t, o) := Step(s, "textDocument/didOpen", params, dec, extract);
      && t.docs == s.docs[item.uri := DM.DocValue(item.uri, item.text, item.version, Strings.Split(item.text, '\n'))]
      && o == Outcome(Success(Null), Some(Publication(item.uri, H.Diagnostics(Strings.Split(item.text, '\n')))))
  {
  }

  // ---------------------------------------------------------------------------
  // The server

  class Server {
    var initialized: bool
    var shutdown: bool
    const documentManager: DM.Manager
    const handlers: H.Handler
    const capabilities: ServerCapabilities

    /** The handlers read the server's own document manager. */
    ghost predicate Valid()
      reads this, documentManager, documentManager.documents.Values
    {
      documentManager.Valid() && handlers.documentManager == documentManager && capabilities == Capabilities
    }

    /** The value of the server. */
    function Abstract(): State
      reads this, documentManager, documentManager.documents.Values
    {
      State(initialized, shutdown, documentManager.Docs())
    }

    /** NewServer: a new document manager shared with new handlers, both flags false. */
    constructor (extract: seq<string> -> seq<H.DocumentSymbol>)
      ensures Valid() && Abstract() == State(false, false, map[])
      ensures handlers.extract == extract
      ensures fresh(documentManager) && fresh(handlers)
    {
      initialized := false;
      shutdown := false;
      var manager := new DM.Manager();
      documentManager := manager;
      handlers := new H.Handler(manager, extract);
      capabilities := Capabilities;
    }

    /**
     * handleInitialize: decode the params, log the client's name, and answer
     * with the capabilities; logging a request without clientInfo panics.
     */
    method HandleInitialize(params: seq<byte>, dec: Decoder) returns (o: Outcome)
      requires Valid()
      ensures (Abstract(), o) == Dispatch(Abstract(), InitializeRoute, params, dec, handlers.extract)
    {
      match dec.initialize(params)
      case Failure(e) =>
        o := Outcome(UnmarshalError("initialize", e), None);
      case Success(p) =>
        if p.clientInfo.None? {
          return Panicked(NilDereference);
        }
        o := Outcome(Success(Initialized(InitializeResult(capabilities, Some(Info)))), None);
    }

    /** handleInitialized: sets the initialized flag and nothing else. */
    method HandleInitialized(params: seq<byte>, dec: Decoder) returns (o: Outcome)
      requires Valid()
      modifies this`initialized
      ensures Valid()
      ensures (Abstract(), o) == Dispatch(old(Abstract()), InitializedRoute, params, dec, handlers.extract)
    {
      initialized := true;
      o := Outcome(Success(Null), None);
    }

    /** handleShutdown: sets the shutdown flag and nothing else. */
    method HandleShutdown(params: seq<byte>, dec: Decoder) returns (o: Outcome)
      requires Valid()
      modifies this`shutdown
      ensures Valid()
      ensures (Abstract(), o) == Dispatch(old(Abstract()), ShutdownRoute, params, dec, handlers.extract)
    {
      shutdown := true;
      o := Outcome(Success(Null), None);
    }

    /** handleTextDocumentDidOpen: the manager opens the document, then its diagnostics are published. */
    method HandleDidOpen(params: seq<byte>, dec: Decoder) returns (o: Outcome)
      requires Valid()
      modifies documentManager`documents
      ensures Valid()
      ensures (Abstract(), o) == Dispatch(old(Abstract()), DidOpenRoute, params, dec, handlers.extract)
    {
      match dec.didOpen(params)
      case Failure(e) =>
        o := Outcome(UnmarshalError("didOpen", e), None);
      case Success(item) =>
        documentManager.Open(item.uri, item.text, item.version);
        var diagnostics := handlers.GetDiagnostics(item.uri);
        o := Outcome(Success(Null), Some(Publication(item.uri, diagnostics)));
    }

    /**
     * handleTextDocumentDidChange: when there are changes and the last is a
     * whole-text change, the manager updates the document in place with its
     * text and the version, then the diagnostics are published.
     */
    method HandleDidChange(params: seq<byte>, dec: Decoder) returns (o: Outcome)
      requires Valid()
      modifies documentManager.documents.Values
      ensures Valid() && documentManager.documents == old(documentManager.documents)
      ensures (Abstract(), o) == Dispatch(old(Abstract()), DidChangeRoute, params, dec, handlers.extract)
    {
      match dec.didChange(params)
      case Failure(e) =>
        o := Outcome(UnmarshalError("didChange", e), None);
      case Success(p) =>
        o := Outcome(Success(Null), None);
        if |p.contentChanges| > 0 {
          var lastChange := p.contentChanges[|p.contentChanges| - 1];
          if lastChange.TextChange? {
            documentManager.Update(p.uri, lastChange.text, p.version);
            var diagnostics := handlers.GetDiagnostics(p.uri);
            o := Outcome(Success(Null), Some(Publication(p.uri, diagnostics)));
          }
        }
    }

    /** handleTextDocumentDidClose: the manager closes the document. */
    method HandleDidClose(params: seq<byte>, dec: Decoder) returns (o: Outcome)
      requires Valid()
      modifies documentManager`documents
      ensures Valid() && documentManager.documents.Values <= old(documentManager.documents.Values)
      ensures (Abstract(), o) == Dispatch(old(Abstract()), DidCloseRoute, params, dec, handlers.extract)
    {
      match dec.didClose(params)
      case Failure(e) =>
        o := Outcome(UnmarshalError("didClose", e), None);
      case Success(uri) =>
        documentManager.Close(uri);
        o := Outcome(Success(Null), None);
    }

    /** handleTextDocumentHover: the handlers' hover, which changes nothing. */
    method HandleHover(params: seq<byte>, dec: Decoder) returns (o: Outcome)
      requires Valid()
      ensures (Abstract(), o) == Dispatch(Abstract(), HoverRoute, params, dec, handlers.extract)
    {
      match dec.hover(params)
      case Failure(e) =>
        o := Outcome(UnmarshalError("hover", e), None);
      case Success(p) =>
        var hover := handlers.Hover(p.uri, p.position);
        o := Outcome(Success(HoverAnswer(hover)), None);
    }

    /** handleTextDocumentCompletion: the handlers' completion, which changes nothing. */
    method HandleCompletion(params: seq<byte>, dec: Decoder) returns (o: Outcome)
      requires Valid()
      ensures (Abstract(), o) == Dispatch(Abstract(), CompletionRoute, params, dec, handlers.extract)
    {
      match dec.completion(params)
      case Failure(e) =>
        o := Outcome(UnmarshalError("completion", e), None);
      case Success(p) =>
        var completions := handlers.Completion(p.uri, p.position);
        o := Outcome(Success(CompletionAnswer(completions)), None);
    }

    /** handle: the shutdown gate, then the switch on the method name. */
    method Handle(methodName: string, params: seq<byte>, dec: Decoder) returns (o: Outcome)
      requires Valid()
      modifies this`initialized, this`shutdown, documentManager`documents, documentManager.documents.Values
      ensures Valid()
      ensures (Abstract(), o) == Step(old(Abstract()), methodName, params, dec, handlers.extract)
    {
      if shutdown && methodName != "exit" {
        return Outcome(Failure(ServerNotInitialized), None);
      }
      var route := RouteOf(shutdown, methodName);
      match route
      case InitializeRoute => o := HandleInitialize(params, dec);
      case InitializedRoute => o := HandleInitialized(params, dec);
      case ShutdownRoute => o := HandleShutdown(params, dec);
      case DidOpenRoute => o := HandleDidOpen(params, dec);
      case DidChangeRoute => o := HandleDidChange(params, dec);
      case DidCloseRoute => o := HandleDidClose(params, dec);
      case HoverRoute => o := HandleHover(params, dec);
      case CompletionRoute => o := HandleCompletion(params, dec);
      case _ => o := Dispatch(Abstract(), route, params, dec, handlers.extract).1;
    }
  }
}
