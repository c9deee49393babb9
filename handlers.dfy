/**
 * `handlers/handlers.go`: the language features of the `server` package,
 * computed from the documents of a `document.Manager`: hover text, keyword and
 * symbol completion, and TODO/FIXME diagnostics. The regular-expression symbol
 * extractor the completion also draws on is a function the handler is given.
 */
module Handlers {
  import opened Wrappers
  import opened Strings
  import opened Protocol
  import DM = DocumentManager
  import opened Symbols

  datatype DocumentSymbol = DocumentSymbol(name: string, kind: int, detail: string, range: Range)
  datatype CompletionItem = CompletionItem(labelText: string, kind: int, detail: string)
  datatype CompletionList = CompletionList(isIncomplete: bool, items: seq<CompletionItem>)

  /** A hover whose contents are Markdown text. */
  datatype HoverInfo = HoverInfo(contents: string)

  // ---------------------------------------------------------------------------
  // symbolKindToCompletionKind

  /** The completion kind of a symbol: functions and methods are functions, five kinds keep their name, the rest is text. */
  function SymbolKindToCompletionKind(kind: int): (r: int)
    ensures r == CompletionKindFunction <==> kind == SymbolKindFunction || kind == SymbolKindMethod
    ensures r == CompletionKindVariable <==> kind == SymbolKindVariable
    ensures r == CompletionKindConstant <==> kind == SymbolKindConstant
    ensures r == CompletionKindStruct <==> kind == SymbolKindStruct
    ensures r == CompletionKindInterface <==> kind == SymbolKindInterface
    ensures r == CompletionKindText <==> kind !in {SymbolKindFunction, SymbolKindMethod, SymbolKindVariable,
                                                  SymbolKindConstant, SymbolKindStruct, SymbolKindInterface}
  {
    if kind == SymbolKindFunction || kind == SymbolKindMethod then CompletionKindFunction
    else if kind == SymbolKindVariable then CompletionKindVariable
    else if kind == SymbolKindConstant then CompletionKindConstant
    else if kind == SymbolKindStruct then CompletionKindStruct
    else if kind == SymbolKindInterface then CompletionKindInterface
    else CompletionKindText
  }

  // ---------------------------------------------------------------------------
  // getWordPrefix

  /**
   * The word prefix before `pos` (clamped to the line): the longest run of word
   * characters that ends there.
   */
  function WordPrefix(line: string, pos: nat): (r: string)
    ensures var p := if pos > |line| then |line| else pos;
      && |r| <= p && r == line[p - |r|..p]
      && (forall i | 0 <= i < |r| :: IsWordChar(r[i]))
      && (|r| == p || !IsWordChar(line[p - |r| - 1]))
  {
    var p := if pos > |line| then |line| else pos;
    var r := line[WordStart(line, p)..p];
    assert forall i | 0 <= i < |r| :: r[i] == line[WordStart(line, p) + i];
    r
  }

  /** getWordPrefix: the clamp, then `start` moved back over word characters. */
  method GetWordPrefix(line: string, pos: nat) returns (prefix: string)
    ensures prefix == WordPrefix(line, pos)
  {
    var p := pos;
    if p > |line| {
      p := |line|;
    }
    var start := p;
    while start > 0 && IsWordChar(line[start - 1])
      invariant 0 <= start <= p
      invariant WordStart(line, start) == WordStart(line, p)
    {
      start := start - 1;
    }
    prefix := line[start..p];
  }

  // ---------------------------------------------------------------------------
  // Hover

  /** How a hover describes the word under the cursor. */
  datatype HoverKind = FunctionHover | VariableHover | TypeHover | ConstantHover | PlainHover

  /** The classification, first match wins: func, then var or ":=", then type, then const. */
  function Classify(line: string, word: string): (k: HoverKind)
    ensures k == FunctionHover <==> Contains(line, "func") && Contains(line, word)
    ensures k == VariableHover <==> !(Contains(line, "func") && Contains(line, word)) && (Contains(line, "var") || Contains(line, ":="))
    ensures k == TypeHover <==> !(Contains(line, "func") && Contains(line, word)) && !Contains(line, "var") && !Contains(line, ":=")
                                && Contains(line, "type") && Contains(line, word)
    ensures k == ConstantHover <==> !(Contains(line, "func") && Contains(line, word)) && !Contains(line, "var") && !Contains(line, ":=")
                                    && !(Contains(line, "type") && Contains(line, word)) && Contains(line, "const")
    ensures k == PlainHover <==> !(Contains(line, "func") && Contains(line, word)) && !Contains(line, "var") && !Contains(line, ":=")
                                 && !(Contains(line, "type") && Contains(line, word)) && !Contains(line, "const")
  {
    if Contains(line, "func") && Contains(line, word) then FunctionHover
    else if Contains(line, "var") || Contains(line, ":=") then VariableHover
    else if Contains(line, "type") && Contains(line, word) then TypeHover
    else if Contains(line, "const") then ConstantHover
    else PlainHover
  }

  /** The Markdown text of each kind of hover. */
  function HoverText(k: HoverKind, word: string): string {
    match k
    case FunctionHover => "**Function**: `" + word + "`\n\nDefined in this document."
    case VariableHover => "**Variable**: `" + word + "`\n\nDefined in this document."
    case TypeHover => "**Type**: `" + word + "`\n\nDefined in this document."
    case ConstantHover => "**Constant**: `" + word + "`\n\nDefined in this document."
    case PlainHover => "**Symbol**: `" + word + "`"
  }

  /** Hover's answer: nothing for an unknown URI or when there is no word under the cursor. */
  function HoverOf(docs: map<string, DM.DocValue>, uri: string, pos: DM.Position): Option<HoverInfo> {
    if uri !in docs then None
    else
      var lines := docs[uri].lines;
      var word := WordAtLine(lines, pos.line, pos.character);
      if word == "" then None
      else Some(HoverInfo(HoverText(Classify(DM.LineAt(lines, pos), word), word)))
  }

  /**
   * The word under the cursor is always part of its line, so the tests
   * "the line contains the word" never decide anything: a line with "func" is
   * always a function hover, and a type hover needs only "type".
   */
  lemma HoverWordInLine(lines: seq<string>, pos: DM.Position)
    requires WordAtLine(lines, pos.line, pos.character) != ""
    ensures var line, word := DM.LineAt(lines, pos), WordAtLine(lines, pos.line, pos.character);
      && Contains(line, word)
      && (Classify(line, word) == FunctionHover <==> Contains(line, "func"))
      && (Classify(line, word) == TypeHover <==>
          !Contains(line, "func") && !Contains(line, "var") && !Contains(line, ":=") && Contains(line, "type"))
  {
    var line := DM.LineAt(lines, pos);
    var c := pos.character;
    var s, e := WordStart(line, c), WordEnd(line, c);
    ContainsAt(line, line[s..e], s);
  }

  /** On the line "func hello() {}" the word "hello" is described as a function. */
  lemma FunctionHoverSample()
    ensures Classify("func hello() {}", "hello") == FunctionHover
  {
    var t := "func hello() {}";
    assert t[0..4] == "func" && t[5..10] == "hello";
    ContainsAt(t, "func", 0);
    ContainsAt(t, "hello", 5);
  }

  // ---------------------------------------------------------------------------
  // Completion

  /** The Go keywords Completion offers, in the order offered. */
  const Keywords: seq<string> := [
    "func", "var", "const", "type", "struct", "interface",
    "if", "else", "for", "range", "switch", "case", "default",
    "return", "break", "continue", "goto", "defer", "go",
    "package", "import", "map", "chan", "select"]

  function KeywordItem(keyword: string): CompletionItem {
    CompletionItem(keyword, CompletionKindKeyword, "keyword")
  }

  /** The keyword items for `prefix`: one per keyword that starts with it, in keyword order. */
  function KeywordItems(keywords: seq<string>, prefix: string): seq<CompletionItem>
    decreases |keywords|
  {
    if keywords == [] then []
    else
      var k := keywords[|keywords| - 1];
      KeywordItems(keywords[..|keywords| - 1], prefix) + (if HasPrefix(k, prefix) then [KeywordItem(k)] else [])
  }

  /** An item is offered exactly for a keyword of the list that starts with the prefix. */
  lemma {:induction false} KeywordItemsMember(keywords: seq<string>, prefix: string, item: CompletionItem)
    ensures item in KeywordItems(keywords, prefix) <==>
      item.labelText in keywords && HasPrefix(item.labelText, prefix) && item == KeywordItem(item.labelText)
    decreases |keywords|
  {
    if keywords != [] {
      var init := keywords[..|keywords| - 1];
      KeywordItemsMember(init, prefix, item);
      assert keywords == init + [keywords[|keywords| - 1]];
    }
  }

  /** The items keep the keyword order: the items of a list are those of its first part, then those of the rest. */
  lemma {:induction false} KeywordItemsAppend(a: seq<string>, b: seq<string>, prefix: string)
    ensures KeywordItems(a + b, prefix) == KeywordItems(a, prefix) + KeywordItems(b, prefix)
    decreases |b|
  {
    if b == [] {
      assert a + b == a;
    } else {
      var init := b[..|b| - 1];
      KeywordItemsAppend(a, init, prefix);
      assert (a + b)[..|a + b| - 1] == a + init;
      assert (a + b)[|a + b| - 1] == b[|b| - 1];
      var x := if HasPrefix(b[|b| - 1], prefix) then [KeywordItem(b[|b| - 1])] else [];
      calc {
        KeywordItems(a + b, prefix);
        KeywordItems(a + init, prefix) + x;
        (KeywordItems(a, prefix) + KeywordItems(init, prefix)) + x;
        KeywordItems(a, prefix) + (KeywordItems(init, prefix) + x);
      }
    }
  }

  /** With an empty prefix every keyword is offered. */
  lemma {:induction false} EmptyPrefixOffersAll(keywords: seq<string>)
    ensures |KeywordItems(keywords, "")| == |keywords|
    decreases |keywords|
  {
    if keywords != [] {
      EmptyPrefixOffersAll(keywords[..|keywords| - 1]);
    }
  }

  function SymbolItem(sym: DocumentSymbol): CompletionItem {
    CompletionItem(sym.name, SymbolKindToCompletionKind(sym.kind), sym.detail)
  }

  /** The symbol items for `prefix`: one per document symbol whose name starts with it, in document order. */
  function SymbolItems(symbols: seq<DocumentSymbol>, prefix: string): seq<CompletionItem>
    decreases |symbols|
  {
    if symbols == [] then []
    else
      var s := symbols[|symbols| - 1];
      SymbolItems(symbols[..|symbols| - 1], prefix) + (if HasPrefix(s.name, prefix) then [SymbolItem(s)] else [])
  }

  /** Every symbol item names a symbol that starts with the prefix and carries its mapped kind and its detail. */
  lemma {:induction false} SymbolItemsMember(symbols: seq<DocumentSymbol>, prefix: string, item: CompletionItem)
    ensures item in SymbolItems(symbols, prefix) <==>
      exists s | s in symbols :: HasPrefix(s.name, prefix) && item == SymbolItem(s)
    decreases |symbols|
  {
    if symbols != [] {
      var init, last := symbols[..|symbols| - 1], symbols[|symbols| - 1];
      SymbolItemsMember(init, prefix, item);
      assert symbols == init + [last];
      if item in SymbolItems(symbols, prefix) && item !in SymbolItems(init, prefix) {
        assert HasPrefix(last.name, prefix) && item == SymbolItem(last);
      }
    }
  }

  /**
   * Completion's answer: for an unknown URI an empty list; otherwise the
   * keyword items and then the symbol items for the word prefix before the
   * cursor, never marked incomplete.
   */
  function CompletionOf(docs: map<string, DM.DocValue>, uri: string, pos: DM.Position,
                        extract: seq<string> -> seq<DocumentSymbol>): CompletionList {
    if uri !in docs then CompletionList(false, [])
    else
      var lines := docs[uri].lines;
      var prefix := WordPrefix(DM.LineAt(lines, pos), pos.character);
      CompletionList(false, KeywordItems(Keywords, prefix) + SymbolItems(extract(lines), prefix))
  }

  // ---------------------------------------------------------------------------
  // GetDiagnostics

  /** The diagnostic covering the whole of line `n`. */
  function LineDiagnostic(n: nat, line: string, severity: int, message: string): Diagnostic {
    Diagnostic(Range(Position(n, 0), Position(n, |line|)), severity, message, "lsp-server")
  }

  function TodoDiagnostic(n: nat, line: string): Diagnostic {
    LineDiagnostic(n, line, SeverityHint, "TODO comment found")
  }

  function FixmeDiagnostic(n: nat, line: string): Diagnostic {
    LineDiagnostic(n, line, SeverityWarning, "FIXME comment found")
  }

  /** A line with as many '{' as '}'; only such lines are checked. */
  predicate Balanced(line: string) {
    CountChar(line, '{') == CountChar(line, '}')
  }

  /** The diagnostics of line `n`: none on an unbalanced line, else TODO (a hint) before FIXME (a warning). */
  function LineDiagnostics(n: nat, line: string): (r: seq<Diagnostic>)
    ensures !Balanced(line) ==> r == []
    ensures Balanced(line) ==> (TodoDiagnostic(n, line) in r <==> Contains(line, "TODO"))
    ensures Balanced(line) ==> (FixmeDiagnostic(n, line) in r <==> Contains(line, "FIXME"))
    ensures forall d | d in r :: d == TodoDiagnostic(n, line) || d == FixmeDiagnostic(n, line)
    ensures |r| == 2 ==> r == [TodoDiagnostic(n, line), FixmeDiagnostic(n, line)]
  {
    if !Balanced(line) then []
    else
      (if Contains(line, "TODO") then [TodoDiagnostic(n, line)] else [])
      + (if Contains(line, "FIXME") then [FixmeDiagnostic(n, line)] else [])
  }

  /** The diagnostics of a document, line after line. */
  function Diagnostics(lines: seq<string>): seq<Diagnostic>
    decreases |lines|
  {
    if lines == [] then []
    else Diagnostics(lines[..|lines| - 1]) + LineDiagnostics(|lines| - 1, lines[|lines| - 1])
  }

  /** The diagnostics of the first `n + 1` lines: those of the first `n`, then those of line `n`. */
  lemma DiagnosticsStep(lines: seq<string>, n: nat)
    requires n < |lines|
    ensures Diagnostics(lines[..n + 1]) == Diagnostics(lines[..n]) + LineDiagnostics(n, lines[n])
  {
    assert lines[..n + 1][..n] == lines[..n];
  }

  /** `d` is the TODO or the FIXME diagnostic of a balanced line of `lines` that holds that marker. */
  predicate DiagnosticOfLine(d: Diagnostic, lines: seq<string>) {
    var n := d.range.start.line;
    && 0 <= n < |lines| && Balanced(lines[n])
    && ((d == TodoDiagnostic(n, lines[n]) && Contains(lines[n], "TODO"))
        || (d == FixmeDiagnostic(n, lines[n]) && Contains(lines[n], "FIXME")))
  }

  /** Every diagnostic comes from a balanced line holding its marker. */
  lemma {:induction false} DiagnosticsSound(lines: seq<string>)
    ensures forall d | d in Diagnostics(lines) :: DiagnosticOfLine(d, lines)
    decreases |lines|
  {
    if lines != [] {
      var init := lines[..|lines| - 1];
      DiagnosticsSound(init);
      var n := |lines| - 1;
      forall d | d in Diagnostics(lines) ensures DiagnosticOfLine(d, lines) {
        if d in Diagnostics(init) {
          assert DiagnosticOfLine(d, init);
          assert init[d.range.start.line] == lines[d.range.start.line];
        } else {
          assert d in LineDiagnostics(n, lines[n]);
        }
      }
    }
  }

  /** Every diagnostic of `ds` starts on a line below `bound`, and their lines never decrease. */
  predicate LinesOrderedBelow(ds: seq<Diagnostic>, bound: int) {
    && (forall i | 0 <= i < |ds| :: ds[i].range.start.line < bound)
    && (forall i, j | 0 <= i < j < |ds| :: ds[i].range.start.line <= ds[j].range.start.line)
  }

  /** The diagnostics come out in nondecreasing line order, each on a line of the document. */
  lemma {:induction false} DiagnosticsOrdered(lines: seq<string>)
    ensures LinesOrderedBelow(Diagnostics(lines), |lines|)
    decreases |lines|
  {
    if lines != [] {
      var init := lines[..|lines| - 1];
      DiagnosticsOrdered(init);
      var ds, a := Diagnostics(lines), Diagnostics(init);
      var n := |lines| - 1;
      var b := LineDiagnostics(n, lines[n]);
      assert ds == a + b;
      assert forall k | 0 <= k < |b| :: b[k].range.start.line == n by {
        forall k | 0 <= k < |b| ensures b[k].range.start.line == n {
          assert b[k] in b;
        }
      }
    }
  }

  /** Every balanced line holding a marker gets its diagnostic. */
  lemma {:induction false} DiagnosticsComplete(lines: seq<string>, n: nat)
    requires n < |lines| && Balanced(lines[n])
    ensures Contains(lines[n], "TODO") ==> TodoDiagnostic(n, lines[n]) in Diagnostics(lines)
    ensures Contains(lines[n], "FIXME") ==> FixmeDiagnostic(n, lines[n]) in Diagnostics(lines)
    decreases |lines|
  {
    var init := lines[..|lines| - 1];
    if n < |lines| - 1 {
      DiagnosticsComplete(init, n);
      assert init[n] == lines[n];
    }
  }

  // ---------------------------------------------------------------------------
  // The handler

  class Handler {
    const documentManager: DM.Manager
    const symbolIndex: SymbolIndex
    /** extractDocumentSymbols: the regular-expression symbol scan of a document's lines. */
    const extract: seq<string> -> seq<DocumentSymbol>

    /** NewHandler: the given document manager and a new, empty symbol index. */
    constructor (docManager: DM.Manager, extract: seq<string> -> seq<DocumentSymbol>)
      ensures documentManager == docManager && this.extract == extract
      ensures fresh(symbolIndex) && symbolIndex.symbols == map[]
    {
      documentManager := docManager;
      symbolIndex := new SymbolIndex();
      this.extract := extract;
    }

    /** Hover: the classified word under the cursor, or nothing. */
    method Hover(uri: string, pos: DM.Position) returns (h: Option<HoverInfo>)
      ensures h == HoverOf(documentManager.Docs(), uri, pos)
    {
      var found := documentManager.Get(uri);
      if found.None? {
        return None;
      }
      var doc := found.value;
      var word := doc.GetWordAt(pos);
      if word == "" {
        return None;
      }
      var line := DM.LineAt(doc.lines, pos);
      var contents: string;
      if Contains(line, "func") && Contains(line, word) {
        contents := "**Function**: `" + word + "`\n\nDefined in this document.";
      } else if Contains(line, "var") || Contains(line, ":=") {
        contents := "**Variable**: `" + word + "`\n\nDefined in this document.";
      } else if Contains(line, "type") && Contains(line, word) {
        contents := "**Type**: `" + word + "`\n\nDefined in this document.";
      } else if Contains(line, "const") {
        contents := "**Constant**: `" + word + "`\n\nDefined in this document.";
      } else {
        contents := "**Symbol**: `" + word + "`";
      }
      h := Some(HoverInfo(contents));
    }

    /** Completion: keywords, then document symbols, that start with the word prefix. */
    method Completion(uri: string, pos: DM.Position) returns (list: CompletionList)
      ensures list == CompletionOf(documentManager.Docs(), uri, pos, extract)
    {
      var found := documentManager.Get(uri);
      if found.None? {
        return CompletionList(false, []);
      }
      var doc := found.value;
      var line := DM.LineAt(doc.lines, pos);
      var prefix := GetWordPrefix(line, pos.character);
      var keywordItems := MatchKeywords(Keywords, prefix);
      var symbolItems := MatchSymbols(extract(doc.lines), prefix);
      list := CompletionList(false, keywordItems + symbolItems);
    }

    /** Completion's first loop: the keywords that start with the prefix, in keyword order. */
    static method MatchKeywords(keywords: seq<string>, prefix: string) returns (items: seq<CompletionItem>)
      ensures items == KeywordItems(keywords, prefix)
    {
      items := [];
      var i := 0;
      while i < |keywords|
        invariant 0 <= i <= |keywords|
        invariant items == KeywordItems(keywords[..i], prefix)
      {
        assert keywords[..i + 1][..i] == keywords[..i];
        if HasPrefix(keywords[i], prefix) {
          items := items + [KeywordItem(keywords[i])];
        }
        i := i + 1;
      }
      assert keywords[..i] == keywords;
    }

    /** Completion's second loop: the document symbols whose name starts with the prefix, in document order. */
    static method MatchSymbols(symbols: seq<DocumentSymbol>, prefix: string) returns (items: seq<CompletionItem>)
      ensures items == SymbolItems(symbols, prefix)
    {
      items := [];
      var j := 0;
      while j < |symbols|
        invariant 0 <= j <= |symbols|
        invariant items == SymbolItems(symbols[..j], prefix)
      {
        assert symbols[..j + 1][..j] == symbols[..j];
        if HasPrefix(symbols[j].name, prefix) {
          items := items + [SymbolItem(symbols[j])];
        }
        j := j + 1;
      }
      assert symbols[..j] == symbols;
    }

    /** GetDiagnostics: the diagnostics of every line in order; none for an unknown URI. */
    method GetDiagnostics(uri: string) returns (diagnostics: seq<Diagnostic>)
      ensures uri in documentManager.Docs() ==> diagnostics == Diagnostics(documentManager.Docs()[uri].lines)
      ensures uri !in documentManager.Docs() ==> diagnostics == []
    {
      var found := documentManager.Get(uri);
      if found.None? {
        return [];
      }
      diagnostics := CheckLines(found.value.lines);
    }

    /** GetDiagnostics' loop over the lines, one line at a time. */
    static method CheckLines(lines: seq<string>) returns (diagnostics: seq<Diagnostic>)
      ensures diagnostics == Diagnostics(lines)
    {
      diagnostics := [];
      var n := 0;
      while n < |lines|
        invariant 0 <= n <= |lines|
        invariant diagnostics == Diagnostics(lines[..n])
      {
        var found := CheckLine(n, lines[n]);
        DiagnosticsStep(lines, n);
        diagnostics := diagnostics + found;
        n := n + 1;
      }
      assert lines[..n] == lines;
    }

    /** The body of GetDiagnostics' loop: an unbalanced line is skipped (`continue`), otherwise TODO then FIXME. */
    static method CheckLine(n: nat, line: string) returns (found: seq<Diagnostic>)
      ensures found == LineDiagnostics(n, line)
    {
      found := [];
      if CountChar(line, '{') != CountChar(line, '}') {
        return;
      }
      if Contains(line, "TODO") {
        found := found + [TodoDiagnostic(n, line)];
      }
      if Contains(line, "FIXME") {
        found := found + [FixmeDiagnostic(n, line)];
      }
    }
  }
}
