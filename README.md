# A verified model of the lsp-server cores

This project models, in Dafny, the sequential logic of the Language Server
Protocol (LSP) servers in the `rkkeerth/lsp-server` repository and proves
properties about it. The repository holds several servers that work in
parallel and do not always agree:

- **`internal/jsonrpc` with `internal/server`.** A JSON-RPC 2.0 transport
  (header framing, message constructors, a request/notification loop) drives
  a basic server. That server has `initialized`/`shutdown` flags and a map of
  documents.
- **`internal/lsp`.** A server with its own framing reader and writer, a
  five-state lifecycle (`Uninitialized`, `Initializing`, `Initialized`,
  `ShuttingDown`, `Shutdown`), and document sync gated on that state.
- **`server`, `document` and `handlers`.** The server that the `lsp-server`
  command runs. It has a shutdown gate and a switch over fourteen methods. It
  shares a document manager with language-feature handlers: hover,
  completion, diagnostics and a symbol index.
- **`server.py`.** A stand-alone Python server with its own framing, a
  document dictionary and a line analyser.

## How the model is built

**Bytes and text.** Framing works on `seq<byte>`. Go strings held in
documents are `seq<char>`, one element for each Go byte. Python strings are
`seq<char>`, one element for each code point.

**JSON.** JSON encoding and decoding are not modelled. Payloads are opaque
bytes. Each server receives its decoding as a `Codec` or `Decoder` value: the
outcome of unmarshalling raw params into each params struct.

**Objects with state.** Every object whose fields the source updates in place
is a `class`: the document stores, the document objects, the servers, the
symbol index and the transports.
- Each method's `ensures` ties the new value (`Abstract()` or `Docs()`) and
  its outputs to a function of the old value: `Step`, `Dispatch`,
  `HandleData`, `Session`, `Removed` and so on.
- The properties are then proved about those functions as lemmas.

**Loops.** Loops in the source are loops here, each with invariants:
- the header loops of the three readers;
- the GetWordAt loops;
- the symbol-index loops;
- the diagnostics and completion loops;
- `analyze_document`;
- the `Run`, `Start` and `run` message loops.

**Run loops.** Each run loop is proved against a recursive function over the
unread input:
- `JsonRpc.Messages` with `Serve`;
- `LspServer.Session`;
- `PyServer.Session`.

Writing a sequence of frames and then running the loop over it gives back
exactly the payloads, in order (`JsonRpc.MessagesOfFrames`,
`LspServer.SessionOfFrames`).

**Where the code and the protocol disagree, the model follows the code:**
- In `internal/jsonrpc/rpc.go` an unknown method becomes a handler error. The
  handler's error is answered with `InternalError` (-32603), not
  `MethodNotFound`.
- In `internal/lsp` the exit code is always 1 (see Findings).
- `server.py` reads the body as Content-Length *characters* (see Findings).
- `server.py` takes the *first* content change; the Go servers take the last.
- A `didChange` for a document that is not open is ignored by
  `internal/lsp`, `server/server.go` and `document/manager.go`.
  `internal/server` answers it with a "document not found" error.

## Model

| member | source | states |
|---|---|---|
| Strings.WordCharSamples | document/manager_test.go:178-201 | the sample characters of the isWordChar test: letters, digits and '_' are word characters; space, '-', '(' and '.' are not |
| Strings.Split | document/manager.go:40 | `strings.Split` on one separator always yields at least one piece |
| Strings.SplitJoin | document/manager.go:40 | joining the split pieces with the separator gives the original text back |
| Strings.SplitPiecesFree | document/manager.go:40 | no piece of a split contains the separator |
| Strings.SplitCount | document/manager.go:40 | there is one more piece than there are separators |
| Strings.SplitFirstPiece | document/manager.go:40 | a separator-free prefix followed by the separator is split off as the first piece |
| Strings.ContainsAt | handlers/handlers.go:46 | `strings.Contains` holds whenever the substring occurs at some offset |
| Strings.WordStart | document/manager.go:101-104 | the backward loop stops at the start of the maximal run of word characters ending at the position |
| Strings.WordEnd | document/manager.go:106-109 | the forward loop stops at the end of the maximal run of word characters starting at the position |
| Strings.WordAroundIsMaximal | document/manager.go:98-111 | the word found is the unique maximal run of word characters around the position |
| Strings.WordAtLineMeaning | document/manager.go:87-112 | out-of-range line or character gives ""; otherwise the word is `line[s..e]` with s ≤ character ≤ e, all word characters, maximal on both sides |
| Strings.WordAtOfRun | server/document.go:75-97 | any maximal run found around an in-range position is the word returned |
| Bytes.Ascii | internal/jsonrpc/rpc.go:87-88 | the bytes of ASCII text are one per character, with the same code |
| Bytes.AsciiAppend | internal/jsonrpc/rpc.go:87-88 | the ASCII bytes of a concatenation are the concatenation of the bytes |
| Bytes.DecimalString | internal/jsonrpc/rpc.go:87 | `%d` of a natural number is a non-empty run of ASCII digits |
| Bytes.DecimalStringRoundTrip | internal/jsonrpc/rpc.go:87 | the digits written for a length read back as that length |
| Bytes.AsciiDigitsValue | internal/jsonrpc/rpc.go:65 | digit bytes and digit characters denote the same value |
| Bytes.DecimalRoundTrip | internal/jsonrpc/rpc.go:65-87 | the decimal bytes of a length are digits whose value is the length |
| Bytes.Utf8Char | server.py:188 | UTF-8 encodes a character in 1–4 bytes, 1 exactly for ASCII, where it is the code itself |
| Bytes.Utf8OfAscii | server.py:188 | on ASCII text the UTF-8 bytes are the ASCII bytes, so the byte length is the character count |
| Bytes.Utf8Append | server.py:188 | UTF-8 encoding distributes over concatenation |
| Stream.IndexOf | internal/jsonrpc/rpc.go:38 | the first position of a byte, or its absence |
| Stream.IndexOfAfter | internal/jsonrpc/rpc.go:38 | a byte absent from a prefix is first found right after it |
| Stream.ReadString | internal/jsonrpc/rpc.go:38-41 | `ReadString('\n')` fails exactly when no '\n' remains, else returns a non-empty line through the '\n' and the rest |
| Stream.TrimLeft | internal/jsonrpc/rpc.go:43 | the result starts with a non-space byte or is empty |
| Stream.TrimRight | internal/jsonrpc/rpc.go:43 | the result ends with a non-space byte or is empty, keeping the first byte |
| Stream.TrimSpace | internal/jsonrpc/rpc.go:43 | `strings.TrimSpace` leaves text that neither starts nor ends with whitespace |
| Stream.TrimSpaceEmpty | internal/jsonrpc/rpc.go:43-47 | a header line is blank after trimming exactly when it is all whitespace |
| Stream.TrimRightNonEmpty | internal/jsonrpc/rpc.go:43 | trimming the right of text starting with a non-space byte leaves something |
| Stream.TrimSpaceIdempotent | internal/jsonrpc/rpc.go:54-55 | trimming twice is trimming once |
| Stream.TrimSpaceAround | internal/jsonrpc/rpc.go:43 | whitespace around a trimmed word is removed and nothing else |
| Stream.TrimLeftSpaces | internal/jsonrpc/rpc.go:43 | leading whitespace before a non-space byte is removed and nothing else |
| Stream.TrimRightSpaces | internal/jsonrpc/rpc.go:43 | trailing whitespace after a non-space byte is removed and nothing else |
| Stream.TrimSpaceInside | internal/jsonrpc/rpc.go:43 | every byte left by trimming was in the line |
| Stream.TrimLeftSuffix | internal/jsonrpc/rpc.go:43 | trimming the left keeps a suffix of the line |
| Stream.TrimRightPrefix | internal/jsonrpc/rpc.go:43 | trimming the right keeps a prefix of the line |
| Stream.ReadStringLine | internal/jsonrpc/rpc.go:38 | a line without its own '\n' is read through the '\n' that ends it, and the rest is left |
| Stream.ReadFull | internal/jsonrpc/rpc.go:71-75 | `io.ReadFull` succeeds exactly when n bytes remain and returns exactly them; otherwise EOF on empty input, unexpected EOF otherwise |
| Stream.Frame | internal/jsonrpc/rpc.go:87 | a frame is the Content-Length header for the payload's length, then the payload |
| Stream.FramesCons | internal/lsp/server.go:124 | the frames of a sequence are its first frame then the frames of the rest |
| Stream.HeaderPrefix | internal/lsp/server.go:124 | "Content-Length: " is the key, a colon and a space, and the key holds no colon, newline or outer space |
| Stream.LengthLineRead | internal/lsp/server.go:75 | the Content-Length line is read whole up to its line feed |
| Stream.BlankLineRead | internal/lsp/server.go:75 | the blank CR LF line is read whole |
| Stream.WrittenAppend | internal/lsp/server.go:118-131 | writing two sequences of messages writes the concatenation of their frames |
| JsonRpcMessage.ErrorCodesReserved | internal/jsonrpc/message.go:48-54 | the five error codes are distinct and lie in the reserved range -32768..-32000 |
| JsonRpcMessage.NewRequest | internal/jsonrpc/message.go:57-73 | version "2.0", the given id and method; params absent when nil, else the marshalled value; the marshal error is returned |
| JsonRpcMessage.NewResponse | internal/jsonrpc/message.go:76-91 | version "2.0", the given id, result marshalled, and never an error |
| JsonRpcMessage.NewErrorResponse | internal/jsonrpc/message.go:94-103 | version "2.0", the given id, error {code, message} without data, and no result |
| JsonRpcMessage.NewNotification | internal/jsonrpc/message.go:106-121 | version "2.0", the method kept, params marshalled, no id field at all |
| JsonRpcMessage.ConstructedResponsesAtMostOneOutcome | internal/jsonrpc/message.go:76-103 | no constructed response carries both a result and an error |
| JsonRpc.ParseHeaderLine | internal/jsonrpc/rpc.go:43-56 | a line is blank exactly when it is all whitespace; a malformed line is non-empty and holds no ':'; key and value come out trimmed |
| JsonRpc.MalformedLine | internal/jsonrpc/rpc.go:43-52 | a non-blank line without ':' is malformed, carrying the trimmed line |
| JsonRpc.ReadHeaders | internal/jsonrpc/rpc.go:37-57 | the header loop never grows the input and strictly consumes it when it succeeds; it fails only with EOF (having read everything) or with an invalid header |
| JsonRpc.HeadersNeedALine | internal/jsonrpc/rpc.go:38-41 | with no '\n' left the header loop fails with EOF and uses up the input |
| JsonRpc.AllSpaceLine | internal/jsonrpc/rpc.go:43-44 | the line end adds no non-space byte, so a line is blank exactly when its text is |
| JsonRpc.BlankLineEnds | internal/jsonrpc/rpc.go:43-47 | the first all-whitespace line ends the headers with what was collected, leaving what follows unread |
| JsonRpc.MalformedLineFails | internal/jsonrpc/rpc.go:49-52 | a non-blank line without ':' fails the read with InvalidHeader of the trimmed line |
| JsonRpc.EntryLineStep | internal/jsonrpc/rpc.go:49-56 | a "key: value" line adds its entry, replacing an earlier value, and the loop goes on after it |
| JsonRpc.EntryStep | internal/jsonrpc/rpc.go:38-56 | the same step, for the line ReadString returns |
| JsonRpc.LastDuplicateWins | internal/jsonrpc/rpc.go:55-56 | of two lines with the same key the later value is kept |
| JsonRpc.DuplicateContentLength | internal/jsonrpc/rpc.go:55-60 | with two Content-Length lines the headers hold the second length |
| JsonRpc.ReadFrameOutcomes | internal/jsonrpc/rpc.go:34-78 | every outcome: a header error passes through; MissingContentLength iff the key is absent; InvalidContentLength iff Atoi fails; a panic iff `make` refuses the length; success iff that many bytes follow, with exactly those bytes; ErrUnexpectedEOF iff fewer but some; EOF iff none |
| JsonRpc.Atoi | internal/jsonrpc/rpc.go:65-68 | `strconv.Atoi` accepts only an optional sign and digits, within 64-bit range |
| JsonRpc.AtoiDecimal | internal/jsonrpc/rpc.go:65 | Atoi reads back every length written with `%d` |
| JsonRpc.ReadFrame | internal/jsonrpc/rpc.go:34-78 | a successful read consumes the headers and the payload, so the cursor strictly advances |
| JsonRpc.LengthLine | internal/jsonrpc/rpc.go:38-56 | the line "Content-Length: d" CR LF is read whole and parses into the key and d |
| JsonRpc.LengthLineParse | internal/jsonrpc/rpc.go:43-56 | the Content-Length line parses into the key and the digits |
| JsonRpc.LengthLineTrimmed | internal/jsonrpc/rpc.go:43 | trimming the Content-Length line drops exactly CR LF |
| JsonRpc.LengthLineSplit | internal/jsonrpc/rpc.go:49-55 | the line splits at its colon into the key and, trimmed, the digits |
| JsonRpc.BlankLine | internal/jsonrpc/rpc.go:43-47 | CR LF is read whole and ends the headers |
| JsonRpc.HeadersOfFrame | internal/jsonrpc/rpc.go:37-57 | the header loop on a frame yields exactly {Content-Length: length} and leaves the payload |
| JsonRpc.ReadFrameOfFrame | internal/jsonrpc/rpc.go:34-90 | round trip: ReadMessage on WriteMessage's frame returns the payload and leaves whatever follows |
| JsonRpc.MessagesOfFrames | internal/jsonrpc/rpc.go:136-151 | the loop over a stream of frames reads exactly the payloads, in order, and stops at EOF |
| JsonRpc.Classify | internal/jsonrpc/rpc.go:93-109 | a payload that decodes with a non-empty method is a request when its id is non-nil, a notification when nil, and invalid otherwise |
| JsonRpc.Answer | internal/jsonrpc/rpc.go:112-126 | the response carries the request's id and never both outcomes; a handler error becomes InternalError with the error text; a success carries the marshalled result, or InternalError when marshalling fails |
| JsonRpc.OneResponsePerRequest | internal/jsonrpc/rpc.go:93-133 | serving payloads writes exactly one response per request, with the request ids in order, and none for notifications |
| JsonRpc.MessagesStep | internal/jsonrpc/rpc.go:137-144 | a failed read ends the messages; a successful one puts its payload first |
| JsonRpc.ServeSnoc | internal/jsonrpc/rpc.go:146 | one more payload is processed in the state the earlier ones left |
| JsonRpc.Rpc.constructor | internal/jsonrpc/rpc.go:20-31 | a transport over the input with nothing written yet |
| JsonRpc.Rpc.ReadMessage | internal/jsonrpc/rpc.go:34-78 | the header loop and the checks yield exactly ReadFrame's outcome, and the unread input becomes its rest |
| JsonRpc.Rpc.WriteMessage | internal/jsonrpc/rpc.go:81-90 | the encoded response's frame is appended to the output |
| JsonRpc.Rpc.HandleRequest | internal/jsonrpc/rpc.go:112-126 | the handler is stepped once and exactly one Answer with the request's id is written |
| JsonRpc.Rpc.ProcessMessage | internal/jsonrpc/rpc.go:93-109 | the new handler value and the response equal Process; an invalid payload gives "invalid message format" and changes nothing |
| JsonRpc.Ending | internal/jsonrpc/rpc.go:136-151 | Run panics exactly on a length `make` refuses, returns nil exactly at EOF, and otherwise returns the read error |
| JsonRpc.Rpc.Run | internal/jsonrpc/rpc.go:136-151 | the handler ends in the state of serving every payload read; the responses and frames are written in order; the loop ends as Ending of the read error that stopped it: nil at EOF, a panic when `make` refuses the length, the error otherwise |
| JsonRpc.Rpc.Next | internal/jsonrpc/rpc.go:137-149 | one loop turn: a failed read stops with nothing changed; otherwise the payload is the first message and is processed |
| BasicServer.Initialize | internal/server/server.go:57-86 | on valid params: full sync with open/close, save with text, no language features, server "basic-lsp-server" 0.1.0; otherwise the wrapped decoding error |
| BasicServer.UnknownMethod | internal/server/server.go:35-54 | exactly the names outside the seven get "method not found" and change nothing |
| BasicServer.DocumentsIgnoreFlags | internal/server/server.go:35-54 | no lifecycle gating: the documents and the reply do not depend on the flags |
| BasicServer.FlagsOnlyRise | internal/server/server.go:89-110 | neither flag is ever reset, and only initialized and shutdown set them |
| BasicServer.ChangeOfClosedDocument | internal/server/server.go:144-147 | didChange of a URI that is not open is an error and inserts nothing |
| BasicServer.Document.constructor | internal/server/server.go:124-130 | the stored document has the item's URI, language, version and text |
| BasicServer.Server.constructor | internal/server/server.go:28-32 | both flags false and no documents |
| BasicServer.Server.GetDocument | internal/server/server.go:177-183 | the stored document object, present exactly when the URI is open |
| BasicServer.Server.IsInitialized | internal/server/server.go:186-191 | the initialized flag |
| BasicServer.Server.IsShutdown | internal/server/server.go:194-199 | the shutdown flag |
| BasicServer.Server.HandleInitialized | internal/server/server.go:89-95 | sets initialized and nothing else |
| BasicServer.Server.HandleShutdown | internal/server/server.go:98-104 | sets shutdown and nothing else |
| BasicServer.Server.HandleDidOpen | internal/server/server.go:113-132 | a fresh document object under the URI, replacing any earlier one, as Step says |
| BasicServer.Server.HandleDidChange | internal/server/server.go:135-159 | the stored object gets the new version, and the last change's text if there is one; a URI that is not open is an error; as Step says |
| BasicServer.Server.HandleDidClose | internal/server/server.go:162-174 | the URI is removed, with no error when absent, as Step says |
| BasicServer.Server.Handle | internal/server/server.go:35-54 | routes to the seven handlers; the new value and the reply equal Step of the old value |
| LspServer.Ordinal | internal/lsp/server.go:24-30 | the iota value of each state, 0 to 4 |
| LspServer.MessageType | internal/lsp/server.go:194-199 | "notification" exactly when the id is nil, "request" exactly when it is not |
| LspServer.ClientName | internal/lsp/lifecycle.go:109-114 | the name when the info is present and the name non-empty, otherwise "unknown" |
| LspServer.ClientVersion | internal/lsp/lifecycle.go:116-121 | the version when the info is present and the version non-empty, otherwise "unknown" |
| LspServer.InitializeStep | internal/lsp/lifecycle.go:10-66 | exactly one reply with the request's id, never both result and error; documents untouched; no exit |
| LspServer.InitializeAnswers | internal/lsp/lifecycle.go:10-66 | outside Uninitialized: InvalidRequest and no state change; marshal failure: InternalError; decode failure: InvalidParams, staying Initializing; otherwise Initialized with the capabilities (openClose, Full sync) |
| LspServer.ShutdownStep | internal/lsp/lifecycle.go:79-93 | InvalidRequest exactly in ShuttingDown or Shutdown; otherwise ShuttingDown and a null result |
| LspServer.ExitCode | internal/lsp/lifecycle.go:101-105 | the code is 0 exactly when the state read is ShuttingDown, else 1 |
| LspServer.ExitStep | internal/lsp/lifecycle.go:96-106 | exit sets Shutdown, writes nothing and exits |
| LspServer.ExitCodeAlwaysOne | internal/lsp/lifecycle.go:96-106 | as written the exit code is 1 in every state, differing from the intended code after shutdown |
| LspServer.IntendedExitStep | internal/lsp/lifecycle.go:96-106 | exit with the code chosen before the state is overwritten |
| LspServer.IntendedExitCode | internal/lsp/lifecycle.go:96-106 | with the intended order, 0 exactly when shutdown came first, otherwise 1 |
| LspServer.ApplyChangesLastFull | internal/lsp/textdocument.go:74-87 | URI and language kept; only ranged changes leave the document unchanged; otherwise the content and version are those of the last change without a range |
| LspServer.StateOnlyAdvances | internal/lsp/lifecycle.go:10-106 | no message lowers the lifecycle state |
| LspServer.DocumentsNeedInitialized | internal/lsp/textdocument.go:10-13 | outside Initialized no message changes the documents; only the three sync notifications ever do |
| LspServer.HandleDataKeepsValid | internal/lsp/server.go:157-191 | every message keeps each document stored under its own URI |
| LspServer.AtMostOneReply | internal/lsp/server.go:157-191 | at most one reply per message, with the request's id and not both result and error |
| LspServer.WhoAnswers | internal/lsp/server.go:168-182 | initialize and shutdown always answer; the five notifications never do |
| LspServer.UnknownMethod | internal/lsp/server.go:183-190 | an unknown method changes nothing; with an id it gets MethodNotFound (-32601) with that id; without one, no output |
| LspServer.ExitOnlyOnExit | internal/lsp/server.go:175-176 | the process exits on "exit" and on nothing else |
| LspServer.OpenStores | internal/lsp/textdocument.go:29-36 | didOpen in Initialized stores {URI, language, version, text} and leaves every other URI as it was |
| LspServer.CloseRemoves | internal/lsp/textdocument.go:114 | didClose in Initialized removes the URI and leaves every other URI as it was |
| LspServer.ChangeKeepsOpenSet | internal/lsp/textdocument.go:66-70 | didChange never opens or closes a document and never changes the state |
| LspServer.SessionOfFrames | internal/lsp/server.go:51-131 | Start over the frames of some payloads handles exactly those payloads in order, then disconnects |
| LspServer.ReplayBounds | internal/lsp/server.go:51-67 | a session answers at most once per payload, keeps documents under their URIs, and never lowers the state |
| LspServer.SessionStep | internal/lsp/server.go:54-66 | one loop turn: EOF disconnects, a length `make` refuses (negative or above 2^48) crashes, another read error continues, a message is handled |
| LspServer.Document.constructor | internal/lsp/textdocument.go:29-34 | the document has the item's URI, language, version and text |
| LspServer.Document.Apply | internal/lsp/textdocument.go:74-87 | the loop over the changes leaves the document equal to ApplyChanges of its old value |
| LspServer.Server.constructor | internal/lsp/server.go:41-48 | Uninitialized with no documents, nothing written |
| LspServer.Server.GetDocument | internal/lsp/server.go:202-207 | the stored object, present exactly when the URI is stored |
| LspServer.Server.SetDocument | internal/lsp/server.go:210-214 | map put: the URI now maps to the object, every other entry kept |
| LspServer.Server.DeleteDocument | internal/lsp/server.go:217-221 | map delete: the URI is gone, every other entry kept |
| LspServer.Server.GetState | internal/lsp/server.go:224-228 | the current state |
| LspServer.Server.SetState | internal/lsp/server.go:231-235 | the state becomes the argument, documents unchanged |
| LspServer.Server.WriteMessage | internal/lsp/server.go:118-131 | the frame of the encoded message is appended to the output |
| LspServer.Server.SendResponse | internal/lsp/server.go:134-141 | writes a response with the id and result and no error |
| LspServer.Server.SendError | internal/lsp/server.go:144-154 | writes a response with the id and {code, message} and no result |
| LspServer.Server.HandleInitialize | internal/lsp/lifecycle.go:10-66 | the state goes through Initializing to Initialized and the reply is written, as InitializeStep says |
| LspServer.Server.HandleInitialized | internal/lsp/lifecycle.go:69-76 | reads the state only; the confirmation is accepted exactly in Initialized |
| LspServer.Server.HandleShutdown | internal/lsp/lifecycle.go:79-93 | state and reply as ShutdownStep says |
| LspServer.Server.HandleExit | internal/lsp/lifecycle.go:96-106 | sets Shutdown and returns the code that `os.Exit` gets, as ExitStep says |
| LspServer.Server.HandleDidOpen | internal/lsp/textdocument.go:9-43 | a fresh document object, as DidOpenStep says |
| LspServer.Server.HandleDidChange | internal/lsp/textdocument.go:45-91 | the stored object itself is updated by the change loop, as DidChangeStep says |
| LspServer.Server.HandleDidClose | internal/lsp/textdocument.go:93-117 | the URI is removed, as DidCloseStep says |
| LspServer.Server.HandleMessage | internal/lsp/server.go:157-191 | the new value, the replies written and the exit code equal HandleData of the old value |
| LspServer.Server.ReadMessage | internal/lsp/server.go:71-115 | the header loop and the length checks yield exactly ReadLspFrame's outcome, consuming its input |
| LspServer.Server.Start | internal/lsp/server.go:51-68 | the final value, every reply written, and how the loop ends equal Session of the input |
| LspServer.Server.Turn | internal/lsp/server.go:55-66 | one loop turn, as SessionStep says |
| LspTransport.StripLineEnd | internal/lsp/server.go:80-83 | the line loses its last byte, the '\n', and also the byte before it exactly when that is '\r' |
| LspTransport.Word | internal/lsp/server.go:91 | a `%s` token is the leading run of non-space bytes |
| LspTransport.WordBeforeSpace | internal/lsp/server.go:91 | a token followed by a space or the end is read whole |
| LspTransport.ScanTwo | internal/lsp/server.go:91-93 | `Sscanf("%s %s")` yields two non-empty space-free tokens, and fails on an all-space line |
| LspTransport.DigitRun | internal/lsp/server.go:104 | the leading run of digits |
| LspTransport.DigitRunBeforeOther | internal/lsp/server.go:104 | digits followed by a non-digit or the end form the whole run |
| LspTransport.ScanInt | internal/lsp/server.go:103-106 | `Sscanf("%d")` yields a value within 64-bit range |
| LspTransport.ScanIntDecimal | internal/lsp/server.go:104 | `%d` reads back a length written with `%d`, whatever non-digits follow |
| LspTransport.ParseLspLine | internal/lsp/server.go:80-94 | an empty stripped line ends the headers; a line that does not scan as two tokens is skipped; otherwise the key is the first token minus its last byte |
| LspTransport.ReadLspHeaders | internal/lsp/server.go:73-95 | the header loop strictly consumes input on success; it fails only with EOF, having read everything |
| LspTransport.ReadLspFrame | internal/lsp/server.go:71-115 | a successful read consumes the headers and the payload; only EOF leaves the input as it was |
| LspTransport.LengthTokens | internal/lsp/server.go:91 | "Content-Length: d" scans into "Content-Length:" and d |
| LspTransport.KeyTokenHasNoSpace | internal/lsp/server.go:91 | "Content-Length:" holds no whitespace |
| LspTransport.LspLengthLine | internal/lsp/server.go:80-94 | the Content-Length line gives the key without its colon and the digits |
| LspTransport.LspHeadersOfFrame | internal/lsp/server.go:73-95 | the header loop on a frame yields exactly {Content-Length: length} |
| LspTransport.LspHeadersNeedALine | internal/lsp/server.go:75-78 | with no '\n' left the header loop fails with EOF and uses up the input |
| LspTransport.LspEmptyLineEnds | internal/lsp/server.go:80-84 | an empty line, with or without its '\r', ends the headers, leaving what follows unread |
| LspTransport.LspUnscannedLineSkipped | internal/lsp/server.go:86-93 | a non-empty line that does not scan as two tokens is skipped and the loop goes on |
| LspTransport.LspLastDuplicateWins | internal/lsp/server.go:94 | of two lines with the same key the later value is kept |
| LspTransport.LspDuplicateContentLength | internal/lsp/server.go:94-98 | with two Content-Length lines the headers hold the second length |
| LspTransport.LspReadFrameOutcomes | internal/lsp/server.go:71-115 | every outcome: a header failure is EOF; MissingContentLength iff the key is absent; InvalidContentLength iff `%d` finds no integer; a panic iff `make` refuses the length; success iff that many bytes follow, with exactly those bytes; ErrUnexpectedEOF iff fewer but some; EOF iff none |
| LspTransport.LspReadFrameOfFrame | internal/lsp/server.go:71-124 | round trip: readMessage on writeMessage's frame returns the payload and leaves what follows |
| LspTransport.SpaceLineSkipped | internal/lsp/server.go:85-93 | a line of spaces does not end the headers; it is skipped |
| DocumentManager.LinesOfContent | document/manager.go:36-42 | the stored lines hold no '\n', number one more than the '\n's, and join back to the content |
| DocumentManager.SplitBlankLine | document/manager_test.go:19-43 | two lines around an empty one split into three pieces |
| DocumentManager.ThreeLines | document/manager_test.go:22 | "package main\n\nfunc main() {}" gives three lines, the middle one empty |
| DocumentManager.LineAt | document/manager.go:115-120 | the stored line in range, "" past the last line |
| DocumentManager.LineAtSamples | document/manager_test.go:136-176 | line 1 of the test document is "line 1"; line 10 is "" |
| DocumentManager.WordAtFirstLine | document/manager_test.go:93-113 | (0,0) gives "package" and (0,8) gives "main" |
| DocumentManager.WordAtOtherLines | document/manager_test.go:114-124 | (2,5) gives "hello" and the empty line gives "" |
| DocumentManager.Document.constructor | document/manager.go:36-41 | the document has the URI, content, version and the split of the content |
| DocumentManager.Document.GetWordAt | document/manager.go:87-112 | the two loops return the maximal word around the position, "" out of range |
| DocumentManager.Manager.constructor | document/manager.go:25-29 | no documents |
| DocumentManager.Manager.Open | document/manager.go:32-43 | a fresh document with the URI, content, version and split lines, replacing any earlier one; every other entry keeps its object |
| DocumentManager.Manager.Update | document/manager.go:46-55 | on an open URI the stored object gets content, version and lines together; otherwise nothing changes and nothing is inserted |
| DocumentManager.Manager.Close | document/manager.go:58-63 | the URI is removed; every other entry kept; an absent URI is a no-op |
| DocumentManager.Manager.Get | document/manager.go:66-72 | found exactly when the URI is open, and then its stored object and value |
| DocumentManager.Manager.GetAll | document/manager.go:75-84 | every stored document exactly once, as many as the map holds, in no particular order |
| ServerDocument.Document.constructor | server/document.go:35-41 | the document has the URI, language, version, text and split lines |
| ServerDocument.Document.GetWordAtPosition | server/document.go:75-97 | "" for a negative or out-of-range line or character, otherwise the maximal word around the position |
| ServerDocument.WordAtHello | server/server_test.go:211-227 | positions 0, 2 and 4 of "Hello world_test" give "Hello" |
| ServerDocument.WordAtWorldTest | server/server_test.go:228-229 | positions 6 and 11 give "world_test": '_' is a word character |
| ServerDocument.WordAtSecondLine | server/server_test.go:211-240 | positions 0 and 8 of "Another line" give "Another" and "line" |
| ServerDocument.WordAtPositionOutOfRange | server/document.go:76-83 | an out-of-range or negative line or character gives "" |
| ServerDocument.DocumentStore.constructor | server/document.go:24-28 | no documents |
| ServerDocument.DocumentStore.Open | server/document.go:31-43 | a fresh document with URI, language, version, text and split lines, replacing any earlier one; other entries kept |
| ServerDocument.DocumentStore.Update | server/document.go:46-55 | on an open URI the stored object gets version, content and lines and keeps its language; otherwise nothing changes |
| ServerDocument.DocumentStore.Close | server/document.go:58-63 | the URI is removed, others kept |
| ServerDocument.DocumentStore.Get | server/document.go:66-72 | found exactly when the URI is open, and then its stored object and value |
| Symbols.Lookup | handlers/symbol_index.go:43 | the stored list, or the empty list for a name never added |
| Symbols.Added | handlers/symbol_index.go:35 | Add appends to the end of the name's list and leaves every other name's list alone |
| Symbols.AddedKeepsNoEmptyLists | handlers/symbol_index.go:35 | adding keeps every stored list non-empty |
| Symbols.Keep | handlers/symbol_index.go:60-65 | the filtered list holds no entry located in the URI |
| Symbols.KeepAppend | handlers/symbol_index.go:61-65 | filtering keeps the original relative order |
| Symbols.KeepMember | handlers/symbol_index.go:62 | an entry is kept exactly when it was there and is located elsewhere |
| Symbols.KeepAll | handlers/symbol_index.go:61-65 | a list with no entry in the URI is kept whole |
| Symbols.RemovedMeaning | handlers/symbol_index.go:55-72 | after Remove: no list is empty, each name's list is its filtered list, an entry stays exactly when located elsewhere, no name is added |
| Symbols.RemoveIdempotent | handlers/symbol_index.go:55-72 | removing a URI twice is removing it once |
| Symbols.RemoveUndoesAdd | handlers/symbol_index.go:31-72 | adding an entry in a URI and then removing that URI equals removing it alone |
| Symbols.RemovedExceptAll | handlers/symbol_index.go:59 | before the loop every name is still to be filtered |
| Symbols.RemovedExceptStep | handlers/symbol_index.go:59-70 | filtering one name replaces its list by the kept entries or deletes it when none are kept |
| Symbols.RemovedExceptNone | handlers/symbol_index.go:71 | with no names left the map is the removed index |
| Symbols.AddTwice | handlers/symbol_index_test.go:46-58 | two Adds under a new name give the list of both, in order |
| Symbols.SymbolIndex.constructor | handlers/symbol_index.go:24-28 | no names |
| Symbols.SymbolIndex.Add | handlers/symbol_index.go:31-36 | the index becomes Added, keeping no name with an empty list |
| Symbols.SymbolIndex.Get | handlers/symbol_index.go:39-44 | the stored list, empty for an unknown name |
| Symbols.SymbolIndex.Clear | handlers/symbol_index.go:47-52 | no names |
| Symbols.SymbolIndex.Filter | handlers/symbol_index.go:60-65 | the inner loop builds exactly the kept entries, in order |
| Symbols.SymbolIndex.Remove | handlers/symbol_index.go:55-72 | the index becomes Removed of the old one, with no empty list |
| Symbols.SymbolIndex.GetAll | handlers/symbol_index.go:75-85 | a new map with the same names and the same lists |
| Handlers.SymbolKindToCompletionKind | handlers/handlers.go:411-426 | Function and Method map to Function; Variable, Constant, Struct and Interface to their counterparts; exactly the other kinds to Text |
| Handlers.WordPrefix | handlers/handlers.go:397-408 | the position clamped to the line length; the maximal run of word characters ending there |
| Handlers.GetWordPrefix | handlers/handlers.go:397-408 | the clamp and the backward loop compute WordPrefix |
| Handlers.Classify | handlers/handlers.go:46-56 | each kind exactly when its test holds and no earlier one does: func (with the word), var or ":=", type (with the word), const, else plain symbol |
| Handlers.HoverWordInLine | handlers/handlers.go:36-46 | a non-empty hover word always occurs in its own line, so a line holding "func" is always a function hover, and a type hover needs only "type" without "func", "var" or ":=" |
| Handlers.FunctionHoverSample | handlers/handlers.go:46-47 | "hello" on "func hello() {}" is described as a function |
| Handlers.KeywordItemsMember | handlers/handlers.go:177-185 | an item is offered exactly for a keyword of the list that starts with the prefix |
| Handlers.KeywordItemsAppend | handlers/handlers.go:177-185 | keyword items keep the keyword order |
| Handlers.EmptyPrefixOffersAll | handlers/handlers.go:177-185 | with an empty prefix every keyword is offered |
| Handlers.SymbolItemsMember | handlers/handlers.go:188-197 | an item is offered exactly for a document symbol whose name starts with the prefix, with the mapped kind and its detail |
| Handlers.LineDiagnostics | handlers/handlers.go:215-249 | an unbalanced line gives nothing; on a balanced line the TODO hint is there exactly when it holds "TODO", the FIXME warning exactly when it holds "FIXME", TODO first |
| Handlers.DiagnosticsStep | handlers/handlers.go:215 | the diagnostics of one more line are appended after those of the lines before it |
| Handlers.DiagnosticsSound | handlers/handlers.go:215-249 | every diagnostic comes from a balanced line holding its marker |
| Handlers.DiagnosticsOrdered | handlers/handlers.go:215 | diagnostics come out in nondecreasing line order, each on a line of the document |
| Handlers.DiagnosticsComplete | handlers/handlers.go:215-249 | every balanced line holding a marker gets its diagnostic |
| Handlers.Handler.constructor | handlers/handlers.go:21-27 | the given document manager and a new, empty symbol index |
| Handlers.Handler.Hover | handlers/handlers.go:30-65 | the answer of HoverOf: nil for an unknown URI or no word under the cursor, otherwise the hover text of the word's Classify kind |
| Handlers.Handler.Completion | handlers/handlers.go:152-203 | the answer of CompletionOf: an empty list for an unknown URI, otherwise the keyword items then the symbol items for the WordPrefix, never incomplete |
| Handlers.Handler.MatchKeywords | handlers/handlers.go:177-185 | the keyword loop yields exactly the keyword items |
| Handlers.Handler.MatchSymbols | handlers/handlers.go:188-197 | the symbol loop yields exactly the symbol items |
| Handlers.Handler.GetDiagnostics | handlers/handlers.go:206-253 | nil for an unknown URI, otherwise the diagnostics of the document's lines |
| Handlers.Handler.CheckLines | handlers/handlers.go:215-250 | the loop over the lines yields exactly Diagnostics |
| Handlers.Handler.CheckLine | handlers/handlers.go:217-249 | the body of the loop yields exactly LineDiagnostics |
| MainServer.RouteOf | server/server.go:93-134 | once shut down everything but exit is gated; exactly the names outside the fourteen are not found; every other name goes to its own handler |
| MainServer.RouteOfMethod | server/server.go:102-130 | each handler route is taken for exactly one known name |
| MainServer.AdvertisedMethods | server/server.go:56-64 | hover is advertised exactly when the hover provider is on, completion exactly when its options are present |
| MainServer.AdvertisedFeaturesAreRouted | server/server.go:47-65 | full sync with open/close and save without text; six advertised features, each with a case in the switch |
| MainServer.ShutdownGate | server/server.go:93-100 | after shutdown, everything but exit gets ErrServerNotInitialized and changes nothing |
| MainServer.UnknownMethod | server/server.go:131-133 | exactly the unknown names get ErrMethodNotFound, and only before shutdown; nothing changes |
| MainServer.FlagsOnlyRise | server/server.go:161-178 | neither flag is ever reset; only initialized and shutdown set them |
| MainServer.OnlySyncChangesDocuments | server/server.go:102-134 | only didOpen, didChange and didClose change the documents |
| MainServer.SyncIgnoresInitialized | server/server.go:102-118 | document sync does the same whatever the initialized flag |
| MainServer.ChangeWithoutText | server/server.go:210-213 | no changes, or a last change that is not a whole-text change, changes and publishes nothing |
| MainServer.LastChangeWins | server/server.go:210-221 | only the last change's text and the params version are applied, and its diagnostics published |
| MainServer.ChangeOfClosedDocument | server/server.go:214 | didChange of a URI that is not open changes nothing and replies null; it publishes an empty list for the URI exactly when the last change carries text, and nothing otherwise |
| MainServer.OpenPublishesDiagnostics | server/server.go:187-201 | didOpen stores the document, replacing any earlier one, and publishes its diagnostics |
| MainServer.Server.constructor | server/server.go:30-44 | a new manager shared with new handlers; both flags false |
| MainServer.Server.HandleInitialized | server/server.go:161-168 | sets initialized and nothing else |
| MainServer.Server.HandleShutdown | server/server.go:171-178 | sets shutdown and nothing else |
| MainServer.Server.HandleDidOpen | server/server.go:187-201 | the manager opens the document, then its diagnostics are published, as Dispatch says |
| MainServer.Server.HandleDidChange | server/server.go:204-224 | the manager updates the stored document from the last text change, as Dispatch says |
| MainServer.Server.HandleDidClose | server/server.go:227-237 | the manager closes the document, as Dispatch says |
| MainServer.Server.HandleHover | server/server.go:252-260 | the handlers' hover, nothing changed |
| MainServer.Server.HandleCompletion | server/server.go:307-315 | the handlers' completion, nothing changed |
| MainServer.InitializeAnswers | server/server.go:138-158 | initialize changes nothing; an undecodable request gets the decoding error; one without clientInfo panics on the nil pointer; any other gets the capabilities and the server's name and version |
| MainServer.Server.HandleInitialize | server/server.go:138-158 | decodes, panics without clientInfo, otherwise answers with the capabilities, as Dispatch says |
| MainServer.Server.Handle | server/server.go:87-135 | the gate then the switch: the new value and the outcome, a panic included, equal Step of the old value |
| PyServer.StripLeft | server.py:258 | leading whitespace only is removed |
| PyServer.StripRight | server.py:258 | trailing whitespace only is removed |
| PyServer.StripEmpty | server.py:258-260 | a header line strips to nothing exactly when it is all whitespace |
| PyServer.StripTrailing | server.py:258 | a word followed by whitespace strips to the word |
| PyServer.SeparatorIndex | server.py:261 | the first ": " in the line, or its absence |
| PyServer.SplitField | server.py:261 | split at a ": "; fails (ValueError) exactly when there is none |
| PyServer.SplitFieldAt | server.py:261 | a key without ':' is split off at the ": " after it |
| PyServer.ReadLine | server.py:255 | `readline()` splits the input into the line read and the rest, and returns "" only at the end of input |
| PyServer.ReadLineOf | server.py:255 | a line without '\n' is read through its '\n' |
| PyServer.GroupsValueOfDigits | server.py:265 | without underscores, the value is that of the decimal digits |
| PyServer.PyInt | server.py:265 | `int()` succeeds only on text that is not blank once stripped; it raises ValueError on more than 4300 digits |
| PyServer.DigitCountOfDigits | server.py:265 | plain decimal text has one digit per character, the count `int()` checks against its 4300-digit limit |
| PyServer.DecimalGroups | server.py:265 | the decimal text of n is digit groups worth n |
| PyServer.PyIntDecimal | server.py:265 | `int(str(n)) == n` for every n of at most 4300 digits |
| PyServer.StripLeading | server.py:258 | leading whitespace before a non-space character is removed and nothing else |
| PyServer.StripSurrounded | server.py:258 | whitespace on both sides of a word is removed and nothing else |
| PyServer.PyIntPadded | server.py:265 | `int` ignores surrounding whitespace around a number of at most 4300 digits |
| PyServer.PyIntOfGroups | server.py:265 | unsigned digit groups read as their value exactly when they hold at most 4300 digits, and raise ValueError otherwise |
| PyServer.PyIntSigned | server.py:265 | `int("-7") == -7` |
| PyServer.PyIntUnderscore | server.py:265 | `int("1_0") == 10` |
| PyServer.PyIntRejects | server.py:265 | `int` rejects "1__0" and "" |
| PyServer.ReadHeaders | server.py:253-262 | a successful header loop consumes at least one line |
| PyServer.ContentLength | server.py:265 | 0 when the header is missing, else `int` of its value or NotAnInteger |
| PyServer.ReadChars | server.py:269 | `read(n)` returns n characters or fewer at the end, and the rest; a negative n (a header "Content-Length: -5" passes the check at server.py:266) reads all that is left |
| PyServer.ReadMessage | server.py:250-273 | a message read consumes input |
| PyServer.SendMessageFrame | server.py:185-192 | send_message writes the base-protocol frame of the body's UTF-8 bytes |
| PyServer.FieldLineOfFrame | server.py:255 | the first line of a frame is the Content-Length field through CR LF |
| PyServer.FieldStripped | server.py:258 | stripping the field line drops exactly CR LF |
| PyServer.FieldOfLine | server.py:258-261 | the stripped field line splits into "Content-Length" and the digits |
| PyServer.HeaderLineStep | server.py:255-262 | a header line is recorded and the loop goes on with the rest |
| PyServer.WhiteLineStep | server.py:258-260 | a whitespace-only line ends the header loop |
| PyServer.BlankLineStep | server.py:258-260 | CR LF ends the header loop |
| PyServer.FirstHeaderOfFrame | server.py:253-262 | the first header line of a frame records the length field |
| PyServer.HeadersOfFrame | server.py:253-262 | the headers of a frame are exactly {Content-Length: byte length} |
| PyServer.ReadMessageStep | server.py:265-269 | after the headers a non-zero length reads the body from what follows |
| PyServer.TooManyDigitsRaises | server.py:265 | a Content-Length of more than 4300 digits makes read_message raise ValueError, whatever the body |
| PyServer.ReadMessageOfFrame | server.py:250-273 | on a frame whose length has at most 4300 digits, as written, the body read is the first byte-length characters after the headers |
| PyServer.ReadMessageOfAsciiFrame | server.py:250-273 | on an ASCII body whose length has at most 4300 digits the frame is read back whole |
| PyServer.ReadMessageOverreads | server.py:269 | on "é" followed by "X" the as-written read takes "éX": it reads two characters for two bytes |
| PyServer.Utf8Prefix | server.py:269 | the longest prefix whose UTF-8 encoding fits in n bytes |
| PyServer.Utf8PrefixOf | server.py:269 | a text's own byte length selects exactly that text |
| PyServer.ReadMessageByBytes | server.py:250-273 | reading the body as Content-Length bytes consumes input |
| PyServer.ReadMessageByBytesRoundTrip | server.py:185-273 | read by bytes, every non-empty body whose length has at most 4300 digits is given back whole whatever follows |
| PyServer.ReadMessageNone | server.py:256-267 | None at end of input and for a missing or zero Content-Length |
| PyServer.TodoPart | server.py:51-61 | the TODO check gives an information finding on that line |
| PyServer.FixmePart | server.py:64-74 | the FIXME check gives a warning on that line |
| PyServer.LongLinePart | server.py:77-86 | the length check gives a warning on that line |
| PyServer.DuplicatePart | server.py:89-98 | the duplicate check gives an information finding on that line |
| PyServer.LineFindings | server.py:49-98 | every finding of a line is on that line |
| PyServer.CollectSound | server.py:49 | everything collected comes from one of the lines collected |
| PyServer.CollectComplete | server.py:49 | everything from a line collected is collected |
| PyServer.AnalysisStep | server.py:49-98 | the findings of one more line are appended after those before it |
| PyServer.AnalysisSound | server.py:49-98 | every finding of the document is a finding of the line it names |
| PyServer.AnalysisComplete | server.py:49-98 | every finding of a line is a finding of the document |
| PyServer.LongLineRule | server.py:77-86 | a line gets the warning over [120, len] exactly when it is over 120 characters |
| PyServer.DuplicateRule | server.py:89-98 | a line gets "Duplicate line detected" exactly when it repeats the non-blank line before it; line 0 never does |
| PyServer.TodoRule | server.py:51-61 | a line gets a TODO finding at exactly the span the search reports |
| PyServer.Request | server.py:196-227 | initialize and shutdown get exactly one response with the request id, code -32603 when the handler raises; other methods get nothing and change nothing; documents untouched |
| PyServer.Notification | server.py:229-248 | notifications only publish, never change running or initialized, and exit exactly on "exit" |
| PyServer.ChangeTakesFirst | server.py:144-159 | didChange stores the first change's text under the URI; with no changes it changes and publishes nothing |
| PyServer.CloseAlwaysPublishes | server.py:161-171 | didClose always publishes exactly an empty list for the URI; closing a URI that is not open changes nothing |
| PyServer.LoopPass | server.py:280-294 | a pass that goes on consumes input |
| PyServer.ShutdownEndsSession | server.py:125-129 | a shutdown request is answered with its id and then ends the loop, whatever follows |
| PyServer.SessionContinues | server.py:280-294 | a pass that goes on is followed by the session from where it left off |
| PyServer.RequestsKeepDocuments | server.py:289-291 | a message with an id changes no document, and stops the loop exactly for shutdown |
| PyServer.LanguageServer.constructor | server.py:31-34 | no documents, running, not initialized |
| PyServer.LanguageServer.CheckLine | server.py:50-98 | the four checks of a line in order yield exactly LineFindings |
| PyServer.LanguageServer.AnalyzeDocument | server.py:36-101 | the loop yields the findings of every line of the split text in order |
| PyServer.LanguageServer.ReadMessageFrom | server.py:250-269 | the header loop and the body read compute ReadMessage |
| PyServer.LanguageServer.HandleRequest | server.py:196-227 | the value and the output as Request says |
| PyServer.LanguageServer.HandleNotification | server.py:229-248 | the value, the output and the exit as Notification says |
| PyServer.LanguageServer.Pass | server.py:281-294 | one pass of the loop body, as LoopPass says |
| PyServer.LanguageServer.Run | server.py:275-301 | the final value, the output and why the loop ended equal Session of the input |

## Left out

- Stream.IsSpace, Stream.TrimLeft, Stream.TrimRight, Stream.TrimSpace: only
  the six ASCII whitespace bytes are trimmed. Go's `strings.TrimSpace` also
  trims the UTF-8 encodings of U+0085, U+00A0, U+1680, U+2000 to U+200A,
  U+2028, U+2029, U+202F, U+205F and U+3000; UTF-8 decoding is not modelled.
- JsonRpc.ParseHeaderLine: for the same reason, a line holding only U+00A0
  is InvalidHeader here, where Go ends the headers. A Content-Length value
  "5" followed by U+00A0 is InvalidContentLength here, where Go reads 5.
- LspTransport.Word, LspTransport.ScanTwo: `fmt`'s `%s` also stops at those
  Unicode spaces; here only ASCII whitespace separates tokens.
- LspTransport.ScanInt: the leading space `%d` skips is ASCII only, for the
  same reason.
- PyServer.PyInt: only ASCII digits are accepted. Python's `int()` also
  accepts other Unicode decimal digits (such as Arabic-Indic digits) and
  strips Unicode whitespace. The 4300-digit limit is CPython's default. A
  limit set through `PYTHONINTMAXSTRDIGITS`, `-X int_max_str_digits` or
  `sys.set_int_max_str_digits` is not modelled. Neither are the Python
  releases before 3.8.14, 3.9.14 and 3.10.7, which have no limit.
- Stream.MakePanics: the bound 2^48 is that of a 64-bit Linux target. A
  length at or below it that the machine cannot allocate (an out-of-memory
  crash) is not modelled; such a `make` succeeds here.
- MainServer.Dispatch: the panic on an initialize without clientInfo follows
  from `ClientInfo` being a pointer field of `protocol.InitializeParams`.
  The go.lsp.dev/protocol library is not part of this model. No `recover`
  appears in `server/server.go`, so the model treats the panic as ending the
  process.

- **Concurrency.** Goroutines and the `sync.RWMutex` locks are not modelled;
  every operation runs sequentially. `internal/lsp` `Start` handles each
  message on its own goroutine, and the model handles messages one after
  another. The unlocked update of a fetched document in
  `internal/lsp/textdocument.go` is a data race that a sequential model
  cannot show.
- **JSON encoding and decoding.** `encoding/json`, `json.dumps` and
  `json.loads` are parameters: the `Codec`, `Decoder` and `Loads` values. The
  model's conclusions hold for any such functions.
- **The go.lsp.dev/jsonrpc2 connection in `server/server.go`.** `Run`, the
  replier and `publishDiagnostics` are not modelled. A call's reply and its
  publication are returned as an `Outcome`. A failure to publish is not
  modelled.
- **Regular expressions.**
  - `findSymbolDefinitions`, `findSymbolReferences` and
    `extractDocumentSymbols` are not modelled. The symbols extracted from a
    document are a parameter of Completion.
  - Definition, References, DocumentSymbols and WorkspaceSymbols are built
    only on those helpers. Their route is modelled; their answer is the
    opaque `SymbolHandler` reply.
  - The TODO/FIXME searches of `analyze_document` are the `Finders`
    parameter.
- **Logging.** Dropped everywhere.
- **Process exit.**
  - `os.Exit` is a returned exit code.
  - `sys.exit(0)` from exit is a `StopReason`.
  - `KeyboardInterrupt` is not modelled.
- **Write errors.** Errors from writing to the output are not modelled;
  writing always succeeds. In the model a Go `json.Marshal` failure of a
  response never occurs.
- **Go nil and empty slices** are not told apart. For example, GetDiagnostics
  returns `[]` for nil.
- **`uint32` conversions.** The diagnostic positions in
  `handlers/handlers.go` are left as unbounded integers.
- **Python I/O.** The text stream's newline translation and character
  decoding are not modelled. Python input is a string of code points, and
  send_message's output is its UTF-8 bytes.
- **`server.py` params.**
  - A `params` value that is not a dictionary is not modelled.
  - A missing `textDocument` or `uri` is `None`.
  - The URI is an `Option<string>` key.
- **PyServer.LanguageServer.Run** passes no exception to `Request`. The
  initialize and shutdown handlers cannot raise in the source, so the -32603
  path is stated only in `PyServer.Request`.
- **Regex helpers in `handlers/handlers.go`** are not part of this model.
  Their callers are modelled (see the regular-expressions entry above).
- **Test files, client programs, samples and entry points** are not part of
  this model. A few test tables are restated as lemmas, as the Model table
  shows.

## Findings

| source | as written | input that shows it | evidently intended | confidence | as-written member | corrected member |
|---|---|---|---|---|---|---|
| internal/lsp/lifecycle.go:96-106 | `handleExit` sets the state to Shutdown and only then compares it with ShuttingDown, so the exit code is always 1 | state ShuttingDown (after a shutdown request), then the exit notification: exit code 1 | exit code 0 when shutdown was requested before exit, 1 otherwise, as the LSP "Exit Notification" describes | not executed | LspServer.ExitCodeAlwaysOne | LspServer.IntendedExitCode |
| server.py:269 | the body is read with `sys.stdin.read(content_length)` on a text stream, which counts characters, while send_message and the base protocol count UTF-8 bytes | the frame for the body "é" (Content-Length: 2) followed by "X": read_message returns "éX" and consumes the next message's first character | read exactly Content-Length bytes of the UTF-8 input, so every framed body whose length `int()` accepts is read back whole | not executed | PyServer.ReadMessageOverreads | PyServer.ReadMessageByBytesRoundTrip |

Both as-written behaviours stay in the servers' classes:
`LspServer.Server.HandleExit` follows `ExitStep`, and
`PyServer.LanguageServer.Run` reads with `ReadMessage`. That way the
classes model the code as it runs. The corrected definitions,
`LspServer.IntendedExitStep` and `PyServer.ReadMessageByBytes`, sit beside
them with their intended properties proved.
