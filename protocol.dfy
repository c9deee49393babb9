/**
 * The Language Server Protocol structures the Go servers decode their
 * parameters into and build their results from. The three Go packages each
 * declare their own copy of these structs with the same fields; only the fields
 * the servers read or set are kept. JSON decoding itself is not modelled: a
 * server receives the outcome of decoding as one of these values.
 */
module Protocol {
  import opened Wrappers
  import opened Bytes

  /** A request id as JSON decodes it into an `interface{}`: a number or a string. */
  datatype Id = NumberId(n: int) | StringId(s: string)

  datatype Position = Position(line: int, character: int)
  datatype Range = Range(start: Position, end: Position)
  datatype Location = Location(uri: string, range: Range)

  /** DiagnosticSeverity. */
  const SeverityError: int := 1
  const SeverityWarning: int := 2
  const SeverityInformation: int := 3
  const SeverityHint: int := 4

  datatype Diagnostic = Diagnostic(range: Range, severity: int, message: string, source: string)

  /** The SymbolKind values the handlers use. */
  const SymbolKindMethod: int := 6
  const SymbolKindInterface: int := 11
  const SymbolKindFunction: int := 12
  const SymbolKindVariable: int := 13
  const SymbolKindConstant: int := 14
  const SymbolKindStruct: int := 23

  /** The CompletionItemKind values the handlers use. */
  const CompletionKindText: int := 1
  const CompletionKindFunction: int := 3
  const CompletionKindVariable: int := 6
  const CompletionKindInterface: int := 8
  const CompletionKindKeyword: int := 14
  const CompletionKindConstant: int := 21
  const CompletionKindStruct: int := 22

  datatype TextDocumentItem = TextDocumentItem(uri: string, languageId: string, version: int, text: string)
  datatype VersionedTextDocumentIdentifier = VersionedTextDocumentIdentifier(uri: string, version: int)

  /** A change event; a missing range means the text replaces the whole document. */
  datatype ContentChange = ContentChange(range: Option<Range>, text: string)

  datatype DidOpenParams = DidOpenParams(textDocument: TextDocumentItem)
  datatype DidChangeParams = DidChangeParams(textDocument: VersionedTextDocumentIdentifier, contentChanges: seq<ContentChange>)
  datatype DidCloseParams = DidCloseParams(uri: string)

  datatype ClientInfo = ClientInfo(name: string, version: string)
  datatype InitializeParams = InitializeParams(clientInfo: Option<ClientInfo>, rootUri: string)

  /** TextDocumentSyncKind. */
  const SyncNone: int := 0
  const SyncFull: int := 1
  const SyncIncremental: int := 2

  datatype SaveOptions = SaveOptions(includeText: bool)
  datatype SyncOptions = SyncOptions(openClose: bool, change: int, save: Option<SaveOptions>)
  datatype CompletionOptions = CompletionOptions(resolveProvider: bool, triggerCharacters: seq<string>)

  /** The server capabilities the Go servers advertise (providers absent from a server are false). */
  datatype ServerCapabilities = ServerCapabilities(
    sync: SyncOptions,
    hover: bool,
    definition: bool,
    references: bool,
    documentSymbol: bool,
    workspaceSymbol: bool,
    completion: Option<CompletionOptions>)

  datatype ServerInfo = ServerInfo(name: string, version: string)
  datatype InitializeResult = InitializeResult(capabilities: ServerCapabilities, serverInfo: Option<ServerInfo>)

  /**
   * `json.Unmarshal` of raw params into each params struct: the struct, or the
   * text of the decoding error.
   */
  datatype Decoder = Decoder(
    initialize: seq<byte> -> Result<InitializeParams, string>,
    didOpen: seq<byte> -> Result<DidOpenParams, string>,
    didChange: seq<byte> -> Result<DidChangeParams, string>,
    didClose: seq<byte> -> Result<DidCloseParams, string>)
}
