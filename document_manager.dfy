/**
 * `document/manager.go`: the open documents by URI. Open stores a new
 * document object, Update assigns the fields of the stored object (so a
 * pointer handed out by an earlier Get sees the new content), Close deletes
 * the entry. Every document keeps its content split into lines at '\n'.
 * A position is go.lsp.dev's `Position`, two `uint32` fields; the version is
 * an `int32`.
 */
module DocumentManager {
  import opened Wrappers
  import opened Strings

  type Uint32 = x: int | 0 <= x < 0x1_0000_0000
  type Int32 = x: int | -0x8000_0000 <= x < 0x8000_0000

  datatype Position = Position(line: Uint32, character: Uint32)

  /** The value of a document. */
  datatype DocValue = DocValue(uri: string, content: string, version: Int32, lines: seq<string>)

  /**
   * The lines Open and Update store: they hold no '\n', there is one more of
   * them than there are '\n' in the content, and joined with '\n' they give the
   * content back.
   */
  lemma LinesOfContent(content: string)
    ensures forall i | 0 <= i < |Split(content, '\n')| :: '\n' !in Split(content, '\n')[i]
    ensures |Split(content, '\n')| == CountChar(content, '\n') + 1
    ensures Join(Split(content, '\n'), '\n') == content
  {
    SplitPiecesFree(content, '\n');
    SplitCount(content, '\n');
    SplitJoin(content, '\n');
  }

  /** Two lines around an empty one: the shape of the open-document test's content. */
  lemma SplitBlankLine(a: string, b: string)
    requires '\n' !in a && '\n' !in b
    ensures Split(a + "\n\n" + b, '\n') == [a, "", b]
  {
    var tail := [] + ['\n'] + b;
    assert a + "\n\n" + b == a + ['\n'] + tail;
    SplitFirstPiece(b, '\n', []);
    SplitFirstPiece([], '\n', b);
    SplitFirstPiece(a, '\n', tail);
  }

  /** The content of the open-document test has three lines, the middle one empty. */
  lemma ThreeLines()
    ensures Split("package main" + "\n\n" + "func main() {}", '\n') == ["package main", "", "func main() {}"]
  {
    SplitBlankLine("package main", "func main() {}");
  }

  /** GetLineAt's answer: the stored line in range, the empty string past the last line. */
  function LineAt(lines: seq<string>, pos: Position): (r: string)
    ensures pos.line < |lines| ==> r == lines[pos.line]
    ensures pos.line >= |lines| ==> r == ""
  {
    if pos.line >= |lines| then "" else lines[pos.line]
  }

  /** The cases of the GetLineAt table test on "line 0", "line 1", "line 2". */
  lemma LineAtSamples()
    ensures LineAt(["line 0", "line 1", "line 2"], Position(1, 0)) == "line 1"
    ensures LineAt(["line 0", "line 1", "line 2"], Position(10, 0)) == ""
  {
  }

  class Document {
    const uri: string
    var content: string
    var version: Int32
    var lines: seq<string>

    /** The document Open stores. */
    constructor (uri: string, content: string, version: Int32)
      ensures Value() == DocValue(uri, content, version, Split(content, '\n'))
    {
      this.uri := uri;
      this.content := content;
      this.version := version;
      this.lines := Split(content, '\n');
    }

    function Value(): DocValue
      reads this
    {
      DocValue(uri, content, version, lines)
    }

    /**
     * GetWordAt: the run of word characters around the position on its line,
     * found by moving `start` back and `end` forward; empty when the line or
     * the character is out of range.
     */
    method GetWordAt(pos: Position) returns (word: string)
      ensures word == WordAtLine(lines, pos.line, pos.character)
    {
      if pos.line >= |lines| {
        return "";
      }
      var line := lines[pos.line];
      if pos.character >= |line| {
        return "";
      }
      var start := pos.character;
      var end := pos.character;
      while start > 0 && IsWordChar(line[start - 1])
        invariant 0 <= start <= pos.character
        invariant WordStart(line, start) == WordStart(line, pos.character)
      {
        start := start - 1;
      }
      while end < |line| && IsWordChar(line[end])
        invariant pos.character <= end <= |line|
        invariant WordEnd(line, end) == WordEnd(line, pos.character)
      {
        end := end + 1;
      }
      word := line[start..end];
    }
  }

  /** The GetWordAt table test's document: "package main", an empty line, "func hello() {}". */
  const TestLines: seq<string> := ["package main", "", "func hello() {}"]

  /** On the first test line, a word at and after its first character. */
  lemma WordAtFirstLine()
    ensures WordAtLine(TestLines, 0, 0) == "package"
    ensures WordAtLine(TestLines, 0, 8) == "main"
  {
    var t := TestLines[0];
    assert MaximalRunAt(t, 0, 0, 7) && MaximalRunAt(t, 8, 8, 12);
    WordAtOfRun(TestLines, 0, 0, 0, 7);
    WordAtOfRun(TestLines, 0, 8, 8, 12);
    assert t[0..7] == "package" && t[8..12] == "main";
  }

  /** A word inside the third test line, and nothing on the empty line. */
  lemma WordAtOtherLines()
    ensures WordAtLine(TestLines, 2, 5) == "hello"
    ensures WordAtLine(TestLines, 1, 0) == ""
  {
    var u := TestLines[2];
    assert MaximalRunAt(u, 5, 5, 10);
    WordAtOfRun(TestLines, 2, 5, 5, 10);
    assert u[5..10] == "hello";
  }

  class Manager {
    var documents: map<string, Document>

    /** Every document is stored under its own URI and holds the split of its content. */
    ghost predicate Valid()
      reads this`documents, documents.Values
    {
      forall u | u in documents :: documents[u].uri == u && documents[u].lines == Split(documents[u].content, '\n')
    }

    /** The value of every open document, by URI. */
    function Docs(): map<string, DocValue>
      reads this`documents, documents.Values
    {
      map u | u in documents :: documents[u].Value()
    }

    /** NewManager: no documents. */
    constructor ()
      ensures Valid() && Docs() == map[]
    {
      documents := map[];
    }

    /** Open: a new document under the URI, replacing any earlier one; the other entries keep their objects. */
    method Open(uri: string, content: string, version: Int32)
      requires Valid()
      modifies this`documents
      ensures Valid()
      ensures Docs() == old(Docs())[uri := DocValue(uri, content, version, Split(content, '\n'))]
      ensures uri in documents && fresh(documents[uri])
      ensures forall u | u in old(documents) && u != uri :: u in documents && documents[u] == old(documents[u])
    {
      var doc := new Document(uri, content, version);
      documents := documents[uri := doc];
      assert Docs() == old(Docs())[uri := doc.Value()];
    }

    /**
     * Update: on an open URI the stored object itself gets the content, the
     * version and the new lines; on any other URI nothing happens.
     */
    method Update(uri: string, content: string, version: Int32)
      requires Valid()
      modifies if uri in documents then {documents[uri]} else {}
      ensures Valid() && documents == old(documents)
      ensures uri in documents ==> Docs() == old(Docs())[uri := DocValue(uri, content, version, Split(content, '\n'))]
      ensures uri !in documents ==> Docs() == old(Docs())
    {
      if uri in documents {
        var doc := documents[uri];
        doc.content := content;
        doc.version := version;
        doc.lines := Split(content, '\n');
        assert Docs() == old(Docs())[uri := doc.Value()];
      }
    }

    /** Close: the URI is removed; closing an absent URI changes nothing. */
    method Close(uri: string)
      requires Valid()
      modifies this`documents
      ensures Valid() && documents.Values <= old(documents.Values)
      ensures Docs() == old(Docs()) - {uri}
    {
      documents := documents - {uri};
      assert Docs() == old(Docs()) - {uri};
    }

    /** Get: the stored object and whether there is one; its value is the URI's entry. */
    method Get(uri: string) returns (doc: Option<Document>)
      ensures doc.Some? <==> uri in Docs()
      ensures doc.Some? ==> doc.value == documents[uri] && doc.value.Value() == Docs()[uri]
    {
      if uri in documents {
        doc := Some(documents[uri]);
      } else {
        doc := None;
      }
    }

    /**
     * GetAll: every stored document exactly once, as many as there are URIs;
     * the order is whatever order the map is walked in.
     */
    method GetAll() returns (docs: seq<Document>)
      requires Valid()
      ensures |docs| == |documents|
      ensures forall i | 0 <= i < |docs| :: docs[i].uri in documents && documents[docs[i].uri] == docs[i]
      ensures forall i, j | 0 <= i < j < |docs| :: docs[i] != docs[j]
      ensures forall u | u in documents :: documents[u] in docs
    {
      docs := [];
      var rest := documents.Keys;
      while rest != {}
        invariant rest <= documents.Keys
        invariant |docs| + |rest| == |documents.Keys|
        invariant forall i | 0 <= i < |docs| :: docs[i].uri in documents.Keys - rest && documents[docs[i].uri] == docs[i]
        invariant forall i, j | 0 <= i < j < |docs| :: docs[i] != docs[j]
        invariant forall u | u in documents.Keys - rest :: documents[u] in docs
        decreases rest
      {
        var u :| u in rest;
        docs := docs + [documents[u]];
        rest := rest - {u};
      }
    }
  }
}
