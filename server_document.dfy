/**
 * `server/document.go`: the document store of the `server` package. Open
 * stores a new document object, Update assigns the fields of the stored
 * object, Close deletes the entry. Positions are plain Go `int`s and may be
 * negative.
 */
module ServerDocument {
  import opened Wrappers
  import opened Strings

  /** The value of a document. */
  datatype DocValue = DocValue(uri: string, languageId: string, version: int, content: string, lines: seq<string>)

  class Document {
    const uri: string
    const languageId: string
    var version: int
    var content: string
    var lines: seq<string>

    /** The document Open stores. */
    constructor (uri: string, languageId: string, version: int, text: string)
      ensures Value() == DocValue(uri, languageId, version, text, Split(text, '\n'))
    {
      this.uri := uri;
      this.languageId := languageId;
      this.version := version;
      this.content := text;
      this.lines := Split(text, '\n');
    }

    function Value(): DocValue
      reads this
    {
      DocValue(uri, languageId, version, content, lines)
    }

    /**
     * GetWordAtPosition: empty for a negative or out-of-range line or
     * character, otherwise the run of word characters around the position,
     * found by moving `start` back and `end` forward.
     */
    method GetWordAtPosition(line: int, character: int) returns (word: string)
      ensures word == WordAtLine(lines, line, character)
    {
      if line < 0 || line >= |lines| {
        return "";
      }
      var lineText := lines[line];
      if character < 0 || character >= |lineText| {
        return "";
      }
      var start := character;
      while start > 0 && IsWordChar(lineText[start - 1])
        invariant 0 <= start <= character
        invariant WordStart(lineText, start) == WordStart(lineText, character)
      {
        start := start - 1;
      }
      var end := character;
      while end < |lineText| && IsWordChar(lineText[end])
        invariant character <= end <= |lineText|
        invariant WordEnd(lineText, end) == WordEnd(lineText, character)
      {
        end := end + 1;
      }
      word := lineText[start..end];
    }
  }

  /** The GetWordAtPosition table test's document. */
  const TestLines: seq<string> := ["Hello world_test", "Another line"]

  /** Positions 0, 2 and 4 of the first test line give "Hello". */
  lemma WordAtHello()
    ensures WordAtLine(TestLines, 0, 0) == "Hello"
    ensures WordAtLine(TestLines, 0, 2) == "Hello"
    ensures WordAtLine(TestLines, 0, 4) == "Hello"
  {
    var t := TestLines[0];
    assert MaximalRunAt(t, 0, 0, 5) && MaximalRunAt(t, 2, 0, 5) && MaximalRunAt(t, 4, 0, 5);
    WordAtOfRun(TestLines, 0, 0, 0, 5);
    WordAtOfRun(TestLines, 0, 2, 0, 5);
    WordAtOfRun(TestLines, 0, 4, 0, 5);
    assert t[0..5] == "Hello";
  }

  /** Positions 6 and 11 of the first test line give "world_test": the underscore is a word character. */
  lemma WordAtWorldTest()
    ensures WordAtLine(TestLines, 0, 6) == "world_test"
    ensures WordAtLine(TestLines, 0, 11) == "world_test"
  {
    var t := TestLines[0];
    assert MaximalRunAt(t, 6, 6, 16) && MaximalRunAt(t, 11, 6, 16);
    WordAtOfRun(TestLines, 0, 6, 6, 16);
    WordAtOfRun(TestLines, 0, 11, 6, 16);
    assert t[6..16] == "world_test";
  }

  /** Positions 0 and 8 of the second test line give "Another" and "line". */
  lemma WordAtSecondLine()
    ensures WordAtLine(TestLines, 1, 0) == "Another"
    ensures WordAtLine(TestLines, 1, 8) == "line"
  {
    var t := TestLines[1];
    assert MaximalRunAt(t, 0, 0, 7) && MaximalRunAt(t, 8, 8, 12);
    WordAtOfRun(TestLines, 1, 0, 0, 7);
    WordAtOfRun(TestLines, 1, 8, 8, 12);
    assert t[0..7] == "Another" && t[8..12] == "line";
  }

  /** The out-of-range cases of the same test, and a negative position. */
  lemma WordAtPositionOutOfRange()
    ensures WordAtLine(TestLines, 0, 100) == ""
    ensures WordAtLine(TestLines, 10, 0) == ""
    ensures WordAtLine(TestLines, -1, 0) == ""
    ensures WordAtLine(TestLines, 0, -1) == ""
  {
  }

  class DocumentStore {
    var documents: map<string, Document>

    /** Every document is stored under its own URI and holds the split of its content. */
    ghost predicate Valid()
      reads this`documents, documents.Values
    {
      forall u | u in documents :: documents[u].uri == u && documents[u].lines == Split(documents[u].content, '\n')
    }

    /** The value of every open document, by URI. */
    function Docs(): map<string, DocValue>
      reads this`documents, documents.Values
    {
      map u | u in documents :: documents[u].Value()
    }

    /** NewDocumentStore: no documents. */
    constructor ()
      ensures Valid() && Docs() == map[]
    {
      documents := map[];
    }

    /** Open: a new document under the URI, replacing any earlier one; the other entries keep their objects. */
    method Open(uri: string, languageId: string, version: int, text: string)
      requires Valid()
      modifies this`documents
      ensures Valid()
      ensures Docs() == old(Docs())[uri := DocValue(uri, languageId, version, text, Split(text, '\n'))]
      ensures uri in documents && fresh(documents[uri])
      ensures forall u | u in old(documents) && u != uri :: u in documents && documents[u] == old(documents[u])
    {
      var doc := new Document(uri, languageId, version, text);
      documents := documents[uri := doc];
      assert Docs() == old(Docs())[uri := doc.Value()];
    }

    /**
     * Update: on an open URI the stored object itself gets the version, the
     * content and the new lines, and keeps its language; on any other URI
     * nothing happens.
     */
    method Update(uri: string, version: int, text: string)
      requires Valid()
      modifies if uri in documents then {documents[uri]} else {}
      ensures Valid() && documents == old(documents)
      ensures uri in documents ==>
        Docs() == old(Docs())[uri := DocValue(uri, documents[uri].languageId, version, text, Split(text, '\n'))]
      ensures uri !in documents ==> Docs() == old(Docs())
    {
      if uri in documents {
        var doc := documents[uri];
        doc.version := version;
        doc.content := text;
        doc.lines := Split(text, '\n');
        assert Docs() == old(Docs())[uri := doc.Value()];
      }
    }

    /** Close: the URI is removed; closing an absent URI changes nothing. */
    method Close(uri: string)
      requires Valid()
      modifies this`documents
      ensures Valid() && documents.Values <= old(documents.Values)
      ensures Docs() == old(Docs()) - {uri}
    {
      documents := documents - {uri};
      assert Docs() == old(Docs()) - {uri};
    }

    /** Get: the stored object and whether there is one; its value is the URI's entry. */
    method Get(uri: string) returns (doc: Option<Document>)
      ensures doc.Some? <==> uri in Docs()
      ensures doc.Some? ==> doc.value == documents[uri] && doc.value.Value() == Docs()[uri]
    {
      if uri in documents {
        doc := Some(documents[uri]);
      } else {
        doc := None;
      }
    }
  }
}
