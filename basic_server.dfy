/**
 * `internal/server/server.go`: the handler behind the `internal/jsonrpc` loop.
 * It keeps two lifecycle flags and a map from URI to document; the document
 * objects are updated in place. It routes seven method names and performs no
 * lifecycle gating.
 *
 * Params arrive as raw JSON; `json.Unmarshal` into each params struct is the
 * `Decoder` passed to the handlers.
 */
module BasicServer {
  import opened Wrappers
  import opened Bytes
  import opened Protocol

  /** The seven method names `Handle` routes. */
  const Methods: set<string> := {"initialize", "initialized", "shutdown", "exit",
    "textDocument/didOpen", "textDocument/didChange", "textDocument/didClose"}

  /** The value of an open document, keyed by its URI. */
  datatype DocState = DocState(languageId: string, version: int, text: string)

  /** The value of the whole server. */
  datatype State = State(initialized: bool, shutdown: bool, documents: map<string, DocState>)

  /** What `Handle` returns: a result value (nil or an InitializeResult) or an error. */
  type Reply = Result<Option<InitializeResult>, string>

  /** The initialize result: full sync with open/close and save-with-text, no language features. */
  const Capabilities: InitializeResult := InitializeResult(
    ServerCapabilities(
      SyncOptions(true, SyncFull, Some(SaveOptions(true))),
      false, false, false, false, false, None),
    Some(ServerInfo("basic-lsp-server", "0.1.0")))

  /** initialize: decode the params and answer with the capabilities; the state is not touched. */
  function Initialize(params: seq<byte>, dec: Decoder): (r: Result<InitializeResult, string>)
    ensures r.Success? <==> dec.initialize(params).Success?
    ensures r.Success? ==> r.value.capabilities.sync == SyncOptions(true, SyncFull, Some(SaveOptions(true)))
    ensures r.Success? ==> !r.value.capabilities.hover && !r.value.capabilities.definition && !r.value.capabilities.references
    ensures r.Success? ==> r.value.serverInfo == Some(ServerInfo("basic-lsp-server", "0.1.0"))
    ensures r.Failure? ==> r.error == "invalid initialize params: " + dec.initialize(params).error
  {
    match dec.initialize(params)
    case Failure(e) => Failure("invalid initialize params: " + e)
    case Success(_) => Success(Capabilities)
  }

  /** didChange on an open document: the version always, the text of the last change if there is one. */
  function ChangedDoc(d: DocState, p: DidChangeParams): DocState {
    var text := if |p.contentChanges| > 0 then p.contentChanges[|p.contentChanges| - 1].text else d.text;
    DocState(d.languageId, p.textDocument.version, text)
  }

  /** The effect of one `Handle(method, params)` call on the server value, and its reply. */
  function Step(s: State, methodName: string, params: seq<byte>, dec: Decoder): (State, Reply) {
    match methodName
    case "initialize" =>
      (s, match Initialize(params, dec) { case Success(v) => Success(Some(v)) case Failure(e) => Failure(e) })
    case "initialized" => (s.(initialized := true), Success(None))
    case "shutdown" => (s.(shutdown := true), Success(None))
    case "exit" => (s, Success(None))
    case "textDocument/didOpen" =>
      (match dec.didOpen(params)
       case Failure(e) => (s, Failure("invalid didOpen params: " + e))
       case Success(p) =>
         var item := p.textDocument;
         (s.(documents := s.documents[item.uri := DocState(item.languageId, item.version, item.text)]), Success(None)))
    case "textDocument/didChange" =>
      (match dec.didChange(params)
       case Failure(e) => (s, Failure("invalid didChange params: " + e))
       case Success(p) =>
         var uri := p.textDocument.uri;
         if uri !in s.documents then (s, Failure("document not found: " + uri))
         else (s.(documents := s.documents[uri := ChangedDoc(s.documents[uri], p)]), Success(None)))
    case "textDocument/didClose" =>
      (match dec.didClose(params)
       case Failure(e) => (s, Failure("invalid didClose params: " + e))
       case Success(p) => (s.(documents := s.documents - {p.uri}), Success(None)))
    case _ => (s, Failure("method not found: " + methodName))
  }

  /** Any name outside the seven gets a "method not found" error and changes nothing. */
  lemma UnknownMethod(s: State, methodName: string, params: seq<byte>, dec: Decoder)
    ensures methodName !in Methods <==> Step(s, methodName, params, dec) == (s, Failure("method not found: " + methodName))
  {
    var r := Step(s, methodName, params, dec).1;
    if methodName in Methods && r.Failure? {
      assert r.error[0] == 'i' || r.error[0] == 'd';
    }
  }

  /** No lifecycle gating: what a call does to the documents does not depend on the flags. */
  lemma DocumentsIgnoreFlags(s: State, a: bool, b: bool, methodName: string, params: seq<byte>, dec: Decoder)
    ensures Step(s.(initialized := a, shutdown := b), methodName, params, dec).0.documents
         == Step(s, methodName, params, dec).0.documents
    ensures Step(s.(initialized := a, shutdown := b), methodName, params, dec).1
         == Step(s, methodName, params, dec).1
  {
    var t := s.(initialized := a, shutdown := b);
    assert t.documents == s.documents;
  }

  /** Neither flag is ever reset, and only initialized and shutdown set them. */
  lemma FlagsOnlyRise(s: State, methodName: string, params: seq<byte>, dec: Decoder)
    ensures var t := Step(s, methodName, params, dec).0;
      && (s.initialized ==> t.initialized) && (s.shutdown ==> t.shutdown)
      && (t.initialized != s.initialized ==> methodName == "initialized")
      && (t.shutdown != s.shutdown ==> methodName == "shutdown")
  {
  }

  /** didChange of a URI that is not open reports it and inserts nothing. */
  lemma ChangeOfClosedDocument(s: State, params: seq<byte>, dec: Decoder)
    requires dec.didChange(params).Success? && dec.didChange(params).value.textDocument.uri !in s.documents
    ensures var (t, r) := Step(s, "textDocument/didChange", params, dec);
      t == s && r == Failure("document not found: " + dec.didChange(params).value.textDocument.uri)
  {
  }

  /** An open document. The URI and language never change; version and text are updated in place. */
  class Document {
    const uri: string
    const languageId: string
    var version: int
    var text: string

    constructor (uri: string, languageId: string, version: int, text: string)
      ensures this.uri == uri && this.languageId == languageId && this.version == version && this.text == text
    {
      this.uri := uri;
      this.languageId := languageId;
      this.version := version;
      this.text := text;
    }

    function Value(): DocState
      reads this
    {
      DocState(languageId, version, text)
    }
  }

  class Server {
    var initialized: bool
    var shutdown: bool
    var documents: map<string, Document>

    /** Every document is stored under its own URI. */
    ghost predicate Valid()
      reads this, documents.Values
    {
      forall u | u in documents :: documents[u].uri == u
    }

    /** The value of the server. */
    function Abstract(): State
      reads this, documents.Values
    {
      State(initialized, shutdown, map u | u in documents :: documents[u].Value())
    }

    /** NewServer: both flags false and no documents. */
    constructor ()
      ensures Valid() && Abstract() == State(false, false, map[])
    {
      initialized := false;
      shutdown := false;
      documents := map[];
    }

    /** GetDocument: the stored document object, if any. */
    method GetDocument(uri: string) returns (r: Option<Document>)
      ensures r.Some? <==> uri in documents
      ensures r.Some? ==> r.value == documents[uri]
    {
      if uri in documents { r := Some(documents[uri]); } else { r := None; }
    }

    /** IsInitialized: the initialized flag. */
    method IsInitialized() returns (b: bool)
      ensures b == Abstract().initialized
    {
      b := initialized;
    }

    /** IsShutdown: the shutdown flag. */
    method IsShutdown() returns (b: bool)
      ensures b == Abstract().shutdown
    {
      b := shutdown;
    }

    /** initialized: sets the initialized flag and nothing else. */
    method HandleInitialized()
      modifies this`initialized
      ensures Abstract() == old(Abstract()).(initialized := true)
    {
      initialized := true;
      assert Abstract().documents == old(Abstract()).documents;
    }

    /** shutdown: sets the shutdown flag and nothing else. */
    method HandleShutdown()
      modifies this`shutdown
      ensures Abstract() == old(Abstract()).(shutdown := true)
    {
      shutdown := true;
      assert Abstract().documents == old(Abstract()).documents;
    }

    /** didOpen: a new document object under the URI, replacing any earlier one. */
    method HandleDidOpen(params: seq<byte>, dec: Decoder) returns (r: Reply)
      requires Valid()
      modifies this`documents
      ensures Valid()
      ensures forall d | d in documents.Values :: d in old(documents.Values) || fresh(d)
      ensures (Abstract(), r) == Step(old(Abstract()), "textDocument/didOpen", params, dec)
    {
      match dec.didOpen(params)
      case Failure(e) =>
        r := Failure("invalid didOpen params: " + e);
      case Success(p) =>
        var item := p.textDocument;
        var doc := new Document(item.uri, item.languageId, item.version, item.text);
        documents := documents[doc.uri := doc];
        r := Success(None);
        assert Abstract().documents == old(Abstract()).documents[item.uri := doc.Value()];
    }

    /**
     * didChange: the stored document object itself gets the new version and,
     * if there are changes, the last change's text; the map keeps the same object.
     */
    method HandleDidChange(params: seq<byte>, dec: Decoder) returns (r: Reply)
      requires Valid()
      modifies documents.Values
      ensures Valid() && documents == old(documents)
      ensures (Abstract(), r) == Step(old(Abstract()), "textDocument/didChange", params, dec)
    {
      match dec.didChange(params)
      case Failure(e) =>
        r := Failure("invalid didChange params: " + e);
      case Success(p) =>
        var uri := p.textDocument.uri;
        if uri !in documents {
          r := Failure("document not found: " + uri);
          return;
        }
        var doc := documents[uri];
        doc.version := p.textDocument.version;
        if |p.contentChanges| > 0 {
          doc.text := p.contentChanges[|p.contentChanges| - 1].text;
        }
        r := Success(None);
        assert Abstract().documents == old(Abstract()).documents[uri := ChangedDoc(old(Abstract()).documents[uri], p)];
    }

    /** didClose: the URI is removed; removing an absent URI is not an error. */
    method HandleDidClose(params: seq<byte>, dec: Decoder) returns (r: Reply)
      requires Valid()
      modifies this`documents
      ensures Valid() && documents.Values <= old(documents.Values)
      ensures (Abstract(), r) == Step(old(Abstract()), "textDocument/didClose", params, dec)
    {
      match dec.didClose(params)
      case Failure(e) =>
        r := Failure("invalid didClose params: " + e);
      case Success(p) =>
        documents := documents - {p.uri};
        r := Success(None);
        assert Abstract().documents == old(Abstract()).documents - {p.uri};
    }

    /** Handle: route by method name. */
    method Handle(methodName: string, params: seq<byte>, dec: Decoder) returns (r: Reply)
      requires Valid()
      modifies this, documents.Values
      ensures Valid()
      ensures forall d | d in documents.Values :: d in old(documents.Values) || fresh(d)
      ensures (Abstract(), r) == Step(old(Abstract()), methodName, params, dec)
    {
      match methodName
      case "initialize" =>
        r := match Initialize(params, dec) { case Success(v) => Success(Some(v)) case Failure(e) => Failure(e) };
      case "initialized" =>
        HandleInitialized();
        r := Success(None);
      case "shutdown" =>
        HandleShutdown();
        r := Success(None);
      case "exit" =>
        r := Success(None);
      case "textDocument/didOpen" =>
        r := HandleDidOpen(params, dec);
      case "textDocument/didChange" =>
        r := HandleDidChange(params, dec);
      case "textDocument/didClose" =>
        r := HandleDidClose(params, dec);
      case _ =>
        r := Failure("method not found: " + methodName);
    }
  }
}
