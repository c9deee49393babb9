/**
 * `server.py`: the standard-library Python server. It reads framed JSON-RPC
 * messages from standard input as text, keeps a dict from URI to text, answers
 * the two requests it knows, runs four line checks over a document whenever it
 * is opened or changed, and publishes the results.
 *
 * Standard input is the decoded text still unread; JSON decoding is a function
 * the run loop is given (`Loads`), and so are the two regular-expression
 * searches for TODO and FIXME (`Finders`). A dict lookup `.get(k, d)` on
 * decoded params is already applied in `TextParams`.
 */
module PyServer {
  import opened Wrappers
  import opened Bytes
  import Strings
  import P = Protocol
  import Stream

  // ---------------------------------------------------------------------------
  // Python's str.strip, str.split(": ", 1), readline and int

  /** `str.isspace` for one character: the Unicode whitespace `strip()` removes. */
  predicate IsSpace(c: char) {
    var n := c as int;
    (0x09 <= n <= 0x0D) || (0x1C <= n <= 0x20) || n == 0x85 || n == 0xA0 || n == 0x1680
    || (0x2000 <= n <= 0x200A) || n == 0x2028 || n == 0x2029 || n == 0x202F || n == 0x205F || n == 0x3000
  }

  function StripLeft(s: string): (r: string)
    ensures |r| <= |s| && r == s[|s| - |r|..]
    ensures r == [] || !IsSpace(r[0])
    ensures forall i | 0 <= i < |s| - |r| :: IsSpace(s[i])
    decreases |s|
  {
    if s != [] && IsSpace(s[0]) then StripLeft(s[1..]) else s
  }

  function StripRight(s: string): (r: string)
    ensures |r| <= |s| && r == s[..|r|]
    ensures r == [] || !IsSpace(r[|r| - 1])
    ensures forall i | |r| <= i < |s| :: IsSpace(s[i])
    decreases |s|
  {
    if s != [] && IsSpace(s[|s| - 1]) then StripRight(s[..|s| - 1]) else s
  }

  /** `s.strip()`. */
  function Strip(s: string): string {
    StripRight(StripLeft(s))
  }

  /** A line strips to nothing exactly when every character of it is whitespace. */
  lemma StripEmpty(s: string)
    ensures Strip(s) == [] <==> forall i | 0 <= i < |s| :: IsSpace(s[i])
  {
  }

  /** Text that neither starts nor ends with whitespace, followed by whitespace, strips to itself. */
  lemma {:induction false} StripTrailing(w: string, sp: string)
    requires w != [] && !IsSpace(w[0]) && !IsSpace(w[|w| - 1])
    requires forall i | 0 <= i < |sp| :: IsSpace(sp[i])
    ensures Strip(w + sp) == w
    decreases |sp|
  {
    assert StripLeft(w + sp) == w + sp by {
      assert (w + sp)[0] == w[0];
    }
    if sp == [] {
      assert w + sp == w;
    } else {
      var init := sp[..|sp| - 1];
      assert (w + sp)[..|w + sp| - 1] == w + init;
      StripTrailing(w, init);
      assert StripLeft(w + init) == w + init by {
        assert (w + init)[0] == w[0];
      }
    }
  }

  /** ": " starts at position `j` of `s`. */
  predicate SeparatorAt(s: string, j: int) {
    0 <= j && j + 1 < |s| && s[j] == ':' && s[j + 1] == ' '
  }

  /** The first position of ": " in `s`. */
  function SeparatorIndex(s: string): (r: Option<nat>)
    ensures r.Some? ==> SeparatorAt(s, r.value) && forall j | 0 <= j < r.value :: !SeparatorAt(s, j)
    ensures r.None? ==> forall j :: !SeparatorAt(s, j)
    decreases |s|
  {
    if |s| < 2 then None
    else if SeparatorAt(s, 0) then Some(0)
    else
      assert forall j | 1 <= j :: SeparatorAt(s, j) == SeparatorAt(s[1..], j - 1);
      match SeparatorIndex(s[1..])
      case None => None
      case Some(i) => Some(i + 1)
  }

  /** `line.split(": ", 1)` unpacked into a key and a value; `None` where the unpacking raises ValueError. */
  function SplitField(line: string): (r: Option<(string, string)>)
    ensures r.Some? ==> exists i :: SeparatorAt(line, i) && r.value == (line[..i], line[i + 2..])
    ensures r.None? <==> forall j :: !SeparatorAt(line, j)
  {
    match SeparatorIndex(line)
    case None => None
    case Some(i) => Some((line[..i], line[i + 2..]))
  }

  /** A key without ':' is split off at the ": " that follows it. */
  lemma SplitFieldAt(key: string, value: string)
    requires ':' !in key
    ensures SplitField(key + ": " + value) == Some((key, value))
  {
    var s := key + ": " + value;
    assert SeparatorAt(s, |key|);
    assert forall j | 0 <= j < |key| :: s[j] == key[j];
    assert s[..|key|] == key && s[|key| + 2..] == value;
  }

  /** `readline()`: up to and including the next '\n', or the rest of the input; "" at the end. */
  function ReadLine(s: string): (r: (string, string))
    ensures r.0 + r.1 == s
    ensures s != [] ==> r.0 != []
    decreases |s|
  {
    if s == [] then ([], [])
    else if s[0] == '\n' then (['\n'], s[1..])
    else
      var (l, t) := ReadLine(s[1..]);
      ([s[0]] + l, t)
  }

  /** A line without '\n' is read up to and including the '\n' that ends it. */
  lemma {:induction false} ReadLineOf(l: string, t: string)
    requires '\n' !in l
    ensures ReadLine(l + "\n" + t) == (l + "\n", t)
    decreases |l|
  {
    if l != [] {
      ReadLineOf(l[1..], t);
      assert (l + "\n" + t)[1..] == l[1..] + "\n" + t;
      assert [l[0]] + (l[1..] + "\n") == l + "\n";
    }
  }

  /** Digits and single underscores between digits: what `int()` accepts after the sign. */
  predicate DigitGroups(d: string) {
    && d != [] && IsDigitChar(d[0]) && IsDigitChar(d[|d| - 1])
    && forall i | 0 <= i < |d| :: IsDigitChar(d[i]) || (d[i] == '_' && i + 1 < |d| && IsDigitChar(d[i + 1]))
  }

  /** The value of digit groups, the underscores skipped. */
  function GroupsValue(d: string): nat
    requires forall i | 0 <= i < |d| :: IsDigitChar(d[i]) || d[i] == '_'
    decreases |d|
  {
    if d == [] then 0
    else if d[|d| - 1] == '_' then GroupsValue(d[..|d| - 1])
    else assert IsDigitChar(d[|d| - 1]); GroupsValue(d[..|d| - 1]) * 10 + (d[|d| - 1] as int - '0' as int)
  }

  /** Without underscores the groups are plain decimal digits. */
  lemma {:induction false} GroupsValueOfDigits(d: string)
    requires AllDigitChars(d)
    ensures GroupsValue(d) == CharsValue(d)
    decreases |d|
  {
    if d != [] {
      GroupsValueOfDigits(d[..|d| - 1]);
    }
  }

  /**
   * CPython's default `sys.get_int_max_str_digits()`: `int()` raises ValueError
   * on a decimal str with more digits than this (Python 3.11 on, and the
   * 3.8.14, 3.9.14 and 3.10.7 security releases).
   */
  const MaxStrDigits := 4300

  /** The number of digits in `d`, the underscores not counted: what CPython holds against MaxStrDigits. */
  function DigitCount(d: string): nat
    decreases |d|
  {
    if d == [] then 0 else DigitCount(d[..|d| - 1]) + (if IsDigitChar(d[|d| - 1]) then 1 else 0)
  }

  /** Plain decimal text has one digit per character. */
  lemma {:induction false} DigitCountOfDigits(d: string)
    requires AllDigitChars(d)
    ensures DigitCount(d) == |d|
    decreases |d|
  {
    if d != [] {
      DigitCountOfDigits(d[..|d| - 1]);
    }
  }

  /**
   * `int(s)` on a str: surrounding whitespace, an optional sign, then digit
   * groups of at most MaxStrDigits digits; `None` where it raises ValueError.
   */
  function PyInt(s: string): (r: Option<int>)
    ensures r.Some? ==> Strip(s) != []
  {
    var t := Strip(s);
    var digits := if t != [] && (t[0] == '-' || t[0] == '+') then t[1..] else t;
    if DigitGroups(digits) && DigitCount(digits) <= MaxStrDigits then
      Some(if t[0] == '-' then -(GroupsValue(digits) as int) else GroupsValue(digits))
    else None
  }

  /** The decimal text of a natural number is digit groups whose value is that number. */
  lemma DecimalGroups(n: nat)
    ensures DigitGroups(DecimalString(n)) && GroupsValue(DecimalString(n)) == n
  {
    GroupsValueOfDigits(DecimalString(n));
    DecimalStringRoundTrip(n);
  }

  /** Decimal text has nothing for `strip` to remove. */
  lemma StripDigits(d: string)
    requires d != [] && AllDigitChars(d)
    ensures Strip(d) == d
  {
    assert IsDigitChar(d[0]) && IsDigitChar(d[|d| - 1]);
    StripTrailing(d, []);
    assert d + [] == d;
  }

  /** `int` reads back the decimal text Python's `str` writes for a natural number of at most MaxStrDigits digits. */
  lemma PyIntDecimal(n: nat)
    requires |DecimalString(n)| <= MaxStrDigits
    ensures PyInt(DecimalString(n)) == Some(n)
  {
    var d := DecimalString(n);
    StripDigits(d);
    DecimalGroups(n);
    DigitCountOfDigits(d);
    assert DigitCount(d) <= MaxStrDigits && GroupsValue(d) == n;
    PyIntOfGroups(d, d);
  }

  /** Leading whitespace before a non-space character is stripped, and only that. */
  lemma {:induction false} StripLeading(sp: string, w: string)
    requires forall i | 0 <= i < |sp| :: IsSpace(sp[i])
    requires w != [] && !IsSpace(w[0])
    ensures StripLeft(sp + w) == w
    decreases |sp|
  {
    var s := sp + w;
    if sp == [] {
      assert s == w;
    } else {
      assert s[0] == sp[0] && IsSpace(s[0]);
      assert s[1..] == sp[1..] + w;
      StripLeading(sp[1..], w);
    }
  }

  /** Whitespace on both sides of a word is stripped, and only that. */
  lemma StripSurrounded(a: string, w: string, b: string)
    requires forall i | 0 <= i < |a| :: IsSpace(a[i])
    requires forall i | 0 <= i < |b| :: IsSpace(b[i])
    requires w != [] && !IsSpace(w[0]) && !IsSpace(w[|w| - 1])
    ensures Strip(a + w + b) == w
  {
    assert a + w + b == a + (w + b);
    StripLeading(a, w + b);
    StripTrailing(w, b);
  }

  /** `int` ignores whitespace around the decimal text of a natural number. */
  lemma PyIntPadded(a: string, n: nat, b: string)
    requires forall i | 0 <= i < |a| :: IsSpace(a[i])
    requires forall i | 0 <= i < |b| :: IsSpace(b[i])
    requires |DecimalString(n)| <= MaxStrDigits
    ensures PyInt(a + DecimalString(n) + b) == Some(n)
  {
    var d := DecimalString(n);
    assert Strip(a + d + b) == d by {
      assert IsDigitChar(d[0]) && IsDigitChar(d[|d| - 1]);
      StripSurrounded(a, d, b);
    }
    DecimalGroups(n);
    DigitCountOfDigits(d);
    PyIntOfGroups(a + d + b, d);
  }

  /**
   * Unsigned digit groups, whatever whitespace surrounds them, read as their
   * value exactly when they hold at most MaxStrDigits digits.
   */
  lemma PyIntOfGroups(s: string, d: string)
    requires Strip(s) == d && DigitGroups(d)
    ensures PyInt(s) == if DigitCount(d) <= MaxStrDigits then Some(GroupsValue(d) as int) else None
  {
  }

  /** `int` takes a leading minus sign. */
  lemma PyIntSigned()
    ensures PyInt("-7") == Some(-7)
  {
    StripTrailing("-7", []);
    assert "-7" + [] == "-7";
    assert "-7"[1..] == "7";
    assert "7"[..0] == [];
  }

  /** `int` skips an underscore between digits. */
  lemma PyIntUnderscore()
    ensures PyInt("1_0") == Some(10)
  {
    var t := "1_0";
    StripTrailing(t, []);
    assert t + [] == t;
    assert t[..2] == "1_" && "1_"[..1] == "1";
    assert GroupsValue(t) == GroupsValue("1_") * 10;
    assert DigitCount(t) == DigitCount("1_") + 1 == 2;
  }

  /** `int` rejects two underscores in a row, and the empty string. */
  lemma PyIntRejects()
    ensures PyInt("1__0") == None
    ensures PyInt("") == None
  {
    StripTrailing("1__0", []);
    assert "1__0" + [] == "1__0";
    assert "1__0"[1] == '_' && "1__0"[2] == '_';
  }

  // ---------------------------------------------------------------------------
  // read_message and send_message

  /** What read_message raises: a header line without ": ", or a Content-Length `int` rejects. */
  datatype ReadError = MissingSeparator(line: string) | NotAnInteger(value: string)

  /** The header loop's outcome: the headers and what follows the blank line, end of input, or an exception. */
  datatype HeaderRead = Headers(fields: map<string, string>, rest: string) | HeadersEof | HeadersRaised(error: ReadError)

  /** read_message's outcome: the body text and what follows it, `None`, or an exception. */
  datatype MessageRead = Content(text: string, rest: string) | NoMessage | Raised(error: ReadError)

  /** The header loop from `input` on, the headers read so far being `fields`; a later header overwrites an earlier one. */
  function ReadHeaders(input: string, fields: map<string, string>): (r: HeaderRead)
    ensures r.Headers? ==> |r.rest| < |input|
    decreases |input|
  {
    var (raw, rest) := ReadLine(input);
    if raw == [] then HeadersEof
    else
      var line := Strip(raw);
      if line == [] then Headers(fields, rest)
      else match SplitField(line)
        case None => HeadersRaised(MissingSeparator(line))
        case Some((key, value)) => ReadHeaders(rest, fields[key := value])
  }

  /** `int(headers.get("Content-Length", 0))`. */
  function ContentLength(fields: map<string, string>): (r: Result<int, ReadError>)
    ensures "Content-Length" !in fields ==> r == Success(0)
    ensures "Content-Length" in fields ==>
      (r.Success? <==> PyInt(fields["Content-Length"]).Some?)
      && (r.Success? ==> r.value == PyInt(fields["Content-Length"]).value)
  {
    if "Content-Length" !in fields then Success(0)
    else match PyInt(fields["Content-Length"])
      case None => Failure(NotAnInteger(fields["Content-Length"]))
      case Some(n) => Success(n)
  }

  /** `read(n)` on a text stream: `n` characters, fewer at the end, all of it for a negative `n`. */
  function ReadChars(s: string, n: int): (r: (string, string))
    ensures r.0 + r.1 == s
    ensures n >= 0 ==> |r.0| == if n < |s| then n else |s|
    ensures n < 0 ==> r == (s, [])
  {
    if n < 0 || n >= |s| then (s, []) else (s[..n], s[n..])
  }

  /** read_message as written: the body is read as Content-Length characters. */
  function ReadMessage(input: string): (r: MessageRead)
    ensures r.Content? ==> |r.rest| < |input|
  {
    match ReadHeaders(input, map[])
    case HeadersEof => NoMessage
    case HeadersRaised(e) => Raised(e)
    case Headers(fields, rest) =>
      match ContentLength(fields)
      case Failure(e) => Raised(e)
      case Success(n) =>
        if n == 0 then NoMessage
        else var (text, after) := ReadChars(rest, n); Content(text, after)
  }

  /** The text `send_message` writes for a JSON body: the length counts the body's UTF-8 bytes. */
  function FrameText(content: string): string {
    "Content-Length: " + DecimalString(|Utf8(content)|) + "\r\n\r\n" + content
  }

  /** The bytes `send_message` puts on standard output, UTF-8 encoded. */
  function SendMessage(content: string): seq<byte> {
    Utf8(FrameText(content))
  }

  /** send_message writes the LSP base-protocol frame of the body's UTF-8 bytes. */
  lemma SendMessageFrame(content: string)
    ensures SendMessage(content) == Stream.Frame(Utf8(content))
  {
    var a, d, b := "Content-Length: ", DecimalString(|Utf8(content)|), "\r\n\r\n";
    var head := a + d + b;
    assert FrameText(content) == head + content;
    assert IsAsciiText(head) && Ascii(head) == Ascii(a) + Ascii(d) + Ascii(b) by {
      assert IsAsciiText(a) && IsAsciiText(b);
      AsciiAppend(a, d);
      AsciiAppend(a + d, b);
    }
    assert Utf8(head + content) == Ascii(head) + Utf8(content) by {
      Utf8OfAscii(head);
      Utf8Append(head, content);
    }
    assert Ascii(b) == [CR, LF, CR, LF] by {
      var crlf := Ascii(b);
      assert crlf[0] == CR && crlf[1] == LF && crlf[2] == CR && crlf[3] == LF;
    }
  }

  /** The first line of a frame is the Content-Length field with its CR LF. */
  lemma FieldLineOfFrame(content: string, after: string)
    ensures ReadLine(FrameText(content) + after)
         == ("Content-Length: " + DecimalString(|Utf8(content)|) + "\r\n", "\r\n" + (content + after))
  {
    var d := DecimalString(|Utf8(content)|);
    var field := "Content-Length: " + d;
    var tail := "\r\n" + (content + after);
    assert FrameText(content) + after == (field + "\r") + "\n" + tail;
    assert '\n' !in field + "\r" by {
      assert forall i | 16 <= i < |field| :: field[i] == d[i - 16];
    }
    ReadLineOf(field + "\r", tail);
    assert field + "\r" + "\n" == field + "\r\n";
  }

  /** The Content-Length line strips to the field without its CR LF. */
  lemma FieldStripped(d: string)
    requires d != [] && AllDigitChars(d)
    ensures Strip("Content-Length: " + d + "\r\n") == "Content-Length: " + d
  {
    var field := "Content-Length: " + d;
    assert !IsSpace(field[|field| - 1]) by {
      assert field[|field| - 1] == d[|d| - 1];
    }
    StripTrailing(field, "\r\n");
  }

  /** The Content-Length line strips to the field, which splits into the key and the digits. */
  lemma FieldOfLine(d: string)
    requires d != [] && AllDigitChars(d)
    ensures SplitField(Strip("Content-Length: " + d + "\r\n")) == Some(("Content-Length", d))
  {
    FieldStripped(d);
    SplitFieldAt("Content-Length", d);
    assert "Content-Length" + ": " + d == "Content-Length: " + d;
  }

  /** A header line read: the field recorded and the loop going on with the rest. */
  lemma HeaderLineStep(input: string, fields: map<string, string>, line: string, rest: string, key: string, value: string)
    requires ReadLine(input) == (line, rest) && SplitField(Strip(line)) == Some((key, value))
    ensures ReadHeaders(input, fields) == ReadHeaders(rest, fields[key := value])
  {
  }

  /** A line of nothing but whitespace ends the header loop. */
  lemma WhiteLineStep(input: string, fields: map<string, string>, line: string, rest: string)
    requires ReadLine(input) == (line, rest) && line != [] && Strip(line) == []
    ensures ReadHeaders(input, fields) == Headers(fields, rest)
  {
  }

  /** The blank line ends the header loop. */
  lemma BlankLineStep(rest: string, fields: map<string, string>)
    ensures ReadHeaders("\r\n" + rest, fields) == Headers(fields, rest)
  {
    assert ReadLine("\r\n" + rest) == ("\r\n", rest) by {
      assert "\r\n" + rest == "\r" + "\n" + rest;
      ReadLineOf("\r", rest);
      assert "\r" + "\n" == "\r\n";
    }
    assert Strip("\r\n") == [] by {
      StripEmpty("\r\n");
    }
    WhiteLineStep("\r\n" + rest, fields, "\r\n", rest);
  }

  /** The first header line of a frame records the Content-Length field. */
  lemma FirstHeaderOfFrame(content: string, after: string)
    ensures ReadHeaders(FrameText(content) + after, map[])
         == ReadHeaders("\r\n" + (content + after), map["Content-Length" := DecimalString(|Utf8(content)|)])
  {
    var input, d := FrameText(content) + after, DecimalString(|Utf8(content)|);
    FieldLineOfFrame(content, after);
    FieldOfLine(d);
    HeaderLineStep(input, map[], "Content-Length: " + d + "\r\n", "\r\n" + (content + after), "Content-Length", d);
  }

  /** The headers of a frame: one Content-Length field holding the byte length; the body follows. */
  lemma HeadersOfFrame(content: string, after: string)
    ensures ReadHeaders(FrameText(content) + after, map[])
         == Headers(map["Content-Length" := DecimalString(|Utf8(content)|)], content + after)
  {
    FirstHeaderOfFrame(content, after);
    BlankLineStep(content + after, map["Content-Length" := DecimalString(|Utf8(content)|)]);
  }

  /** read_message after its header loop: a non-zero length reads the body from what follows the headers. */
  lemma ReadMessageStep(input: string, fields: map<string, string>, rest: string, n: int)
    requires ReadHeaders(input, map[]) == Headers(fields, rest)
    requires ContentLength(fields) == Success(n) && n != 0
    ensures ReadMessage(input) == Content(ReadChars(rest, n).0, ReadChars(rest, n).1)
  {
  }

  /** A Content-Length of more than MaxStrDigits digits makes read_message raise, whatever the body. */
  lemma TooManyDigitsRaises(input: string, fields: map<string, string>, rest: string)
    requires ReadHeaders(input, map[]) == Headers(fields, rest)
    requires "Content-Length" in fields
    requires AllDigitChars(fields["Content-Length"]) && |fields["Content-Length"]| > MaxStrDigits
    ensures ReadMessage(input) == Raised(NotAnInteger(fields["Content-Length"]))
  {
    var v := fields["Content-Length"];
    StripDigits(v);
    DigitCountOfDigits(v);
    PyIntOfGroups(v, v);
  }

  /**
   * read_message as written on a frame: it reads as many characters as the
   * body has UTF-8 bytes, from the body and whatever follows it.
   */
  lemma ReadMessageOfFrame(content: string, after: string)
    requires content != [] && |DecimalString(|Utf8(content)|)| <= MaxStrDigits
    ensures var n := |Utf8(content)|;
      ReadMessage(FrameText(content) + after) == Content(ReadChars(content + after, n).0, ReadChars(content + after, n).1)
  {
    var n := |Utf8(content)|;
    assert n > 0 by {
      assert Utf8(content) == Utf8Char(content[0]) + Utf8(content[1..]);
    }
    HeadersOfFrame(content, after);
    PyIntDecimal(n);
    var fields := map["Content-Length" := DecimalString(n)];
    assert ContentLength(fields) == Success(n);
    ReadMessageStep(FrameText(content) + after, fields, content + after, n);
  }

  /** read_message as written gives a frame back whole when its body is ASCII text. */
  lemma ReadMessageOfAsciiFrame(content: string, after: string)
    requires content != [] && IsAsciiText(content) && |DecimalString(|Utf8(content)|)| <= MaxStrDigits
    ensures ReadMessage(FrameText(content) + after) == Content(content, after)
  {
    ReadMessageOfFrame(content, after);
    Utf8OfAscii(content);
    assert (content + after)[..|content|] == content && (content + after)[|content|..] == after;
  }

  /**
   * read_message as written on a body with "é": the two-byte character makes
   * the Content-Length 2, and reading two characters takes the next one too.
   */
  lemma ReadMessageOverreads()
    ensures ReadMessage(FrameText("\U{00E9}") + "X") == Content("\U{00E9}X", [])
  {
    var c := "\U{00E9}";
    assert |Utf8(c)| == 2 by {
      assert Utf8(c) == Utf8Char(c[0]) + Utf8(c[1..]);
    }
    ReadMessageOfFrame(c, "X");
    assert c + "X" == "\U{00E9}X";
  }

  /** How many leading characters of `s` fill exactly the first `n` bytes of its UTF-8 encoding, at most. */
  function Utf8Prefix(s: string, n: nat): (k: nat)
    ensures k <= |s| && |Utf8(s[..k])| <= n
    decreases |s|
  {
    if s == [] || |Utf8Char(s[0])| > n then 0
    else
      var k := 1 + Utf8Prefix(s[1..], n - |Utf8Char(s[0])|);
      assert s[..k] == [s[0]] + s[1..][..k - 1];
      k
  }

  /** The characters of a text followed by more fill exactly the text's UTF-8 length. */
  lemma {:induction false} Utf8PrefixOf(c: string, after: string)
    ensures Utf8Prefix(c + after, |Utf8(c)|) == |c|
    decreases |c|
  {
    if c == [] {
      assert c + after == after;
      if after != [] {
        assert |Utf8Char(after[0])| >= 1;
      }
    } else {
      assert (c + after)[0] == c[0] && (c + after)[1..] == c[1..] + after;
      Utf8PrefixOf(c[1..], after);
    }
  }

  /** read_message reading the body as Content-Length bytes of the UTF-8 input, as the base protocol means it. */
  function ReadMessageByBytes(input: string): (r: MessageRead)
    ensures r.Content? ==> |r.rest| < |input|
  {
    match ReadHeaders(input, map[])
    case HeadersEof => NoMessage
    case HeadersRaised(e) => Raised(e)
    case Headers(fields, rest) =>
      match ContentLength(fields)
      case Failure(e) => Raised(e)
      case Success(n) =>
        if n == 0 then NoMessage
        else if n < 0 then Content(rest, [])
        else var k := Utf8Prefix(rest, n); Content(rest[..k], rest[k..])
  }

  /** Reading by bytes gives every non-empty body back whole, whatever follows it. */
  lemma ReadMessageByBytesRoundTrip(content: string, after: string)
    requires content != [] && |DecimalString(|Utf8(content)|)| <= MaxStrDigits
    ensures ReadMessageByBytes(FrameText(content) + after) == Content(content, after)
  {
    HeadersOfFrame(content, after);
    PyIntDecimal(|Utf8(content)|);
    assert |Utf8(content)| > 0 by {
      assert Utf8(content) == Utf8Char(content[0]) + Utf8(content[1..]);
    }
    Utf8PrefixOf(content, after);
    assert (content + after)[..|content|] == content && (content + after)[|content|..] == after;
  }

  /** read_message gives `None` at the end of the input and for a missing or zero Content-Length. */
  lemma ReadMessageNone(input: string)
    ensures input == [] ==> ReadMessage(input) == NoMessage
    ensures var h := ReadHeaders(input, map[]);
      h.Headers? && ("Content-Length" !in h.fields || PyInt(h.fields["Content-Length"]) == Some(0))
      ==> ReadMessage(input) == NoMessage
  {
  }

  // ---------------------------------------------------------------------------
  // analyze_document

  /** Where a regular-expression search matched: `match.start()` and `match.end()`. */
  datatype Span = Span(start: int, end: int)

  /** `re.search(pattern, line, re.IGNORECASE)` for the TODO and for the FIXME pattern. */
  datatype Finders = Finders(todo: string -> Option<Span>, fixme: string -> Option<Span>)

  const Source: string := "basic-lsp-server"
  const MaxLineLength: nat := 120

  function SpanDiagnostic(n: nat, s: Span, severity: int, message: string): P.Diagnostic {
    P.Diagnostic(P.Range(P.Position(n, s.start), P.Position(n, s.end)), severity, message, Source)
  }

  function TodoFinding(n: nat, s: Span): P.Diagnostic {
    SpanDiagnostic(n, s, P.SeverityInformation, "TODO found: Consider addressing this item")
  }

  function FixmeFinding(n: nat, s: Span): P.Diagnostic {
    // two literals: the verifier does not see the first character of a literal this long
    SpanDiagnostic(n, s, P.SeverityWarning, "FIXME" + " found: This requires immediate attention")
  }

  /** A line over 120 characters: a warning from character 120 to the end of the line. */
  function LongLineFinding(n: nat, line: string): P.Diagnostic {
    SpanDiagnostic(n, Span(MaxLineLength, |line|), P.SeverityWarning,
      "Line too long (" + DecimalString(|line|) + " > 120 characters)")
  }

  /** A repeated line: information over the whole line. */
  function DuplicateFinding(n: nat, line: string): P.Diagnostic {
    SpanDiagnostic(n, Span(0, |line|), P.SeverityInformation, "Duplicate line detected")
  }

  /** Line `n` is not blank and equals the line before it. */
  predicate IsDuplicate(lines: seq<string>, n: nat)
    requires n < |lines|
  {
    n > 0 && Strip(lines[n]) != [] && lines[n] == lines[n - 1]
  }

  /** The TODO check of line `n`. */
  function TodoPart(n: nat, line: string, finders: Finders): (r: seq<P.Diagnostic>)
    ensures forall d | d in r :: d.range.start.line == n && d.severity == P.SeverityInformation && d.message != [] && d.message[0] == 'T'
  {
    match finders.todo(line)
    case Some(s) => [TodoFinding(n, s)]
    case None => []
  }

  /** The FIXME check of line `n`. */
  function FixmePart(n: nat, line: string, finders: Finders): (r: seq<P.Diagnostic>)
    ensures forall d | d in r :: d.range.start.line == n && d.severity == P.SeverityWarning && d.message != [] && d.message[0] == 'F'
  {
    match finders.fixme(line)
    case Some(s) => [FixmeFinding(n, s)]
    case None => []
  }

  /** The length check of line `n`. */
  function LongLinePart(n: nat, line: string): (r: seq<P.Diagnostic>)
    ensures forall d | d in r :: d.range.start.line == n && d.severity == P.SeverityWarning && d.message != [] && d.message[0] == 'L'
  {
    if |line| > MaxLineLength then [LongLineFinding(n, line)] else []
  }

  /** The duplicate check of line `n`. */
  function DuplicatePart(lines: seq<string>, n: nat): (r: seq<P.Diagnostic>)
    requires n < |lines|
    ensures forall d | d in r :: d.range.start.line == n && d.severity == P.SeverityInformation && d.message != [] && d.message[0] == 'D'
  {
    if IsDuplicate(lines, n) then [DuplicateFinding(n, lines[n])] else []
  }

  /** The findings on line `n`, in the order the checks run. */
  function LineFindings(lines: seq<string>, n: nat, finders: Finders): (r: seq<P.Diagnostic>)
    requires n < |lines|
    ensures forall d | d in r :: d.range.start.line == n
  {
    TodoPart(n, lines[n], finders) + FixmePart(n, lines[n], finders) + LongLinePart(n, lines[n]) + DuplicatePart(lines, n)
  }

  /** The findings of each line by its number; none past the last line. */
  function FindingsByLine(lines: seq<string>, finders: Finders): nat -> seq<P.Diagnostic> {
    (j: nat) => if j < |lines| then LineFindings(lines, j, finders) else []
  }

  /** `parts(0) + ... + parts(k - 1)`. */
  function Collect(parts: nat -> seq<P.Diagnostic>, k: nat): seq<P.Diagnostic>
    decreases k
  {
    if k == 0 then [] else Collect(parts, k - 1) + parts(k - 1)
  }

  /** Everything collected comes from one of the first `k` parts. */
  lemma {:induction false} CollectSound(parts: nat -> seq<P.Diagnostic>, k: nat, d: P.Diagnostic)
    requires d in Collect(parts, k)
    ensures exists j :: 0 <= j < k && d in parts(j)
    decreases k
  {
    assert Collect(parts, k) == Collect(parts, k - 1) + parts(k - 1);
    if d in Collect(parts, k - 1) {
      CollectSound(parts, k - 1, d);
    }
  }

  /** Everything in one of the first `k` parts is collected. */
  lemma {:induction false} CollectComplete(parts: nat -> seq<P.Diagnostic>, k: nat, n: nat, d: P.Diagnostic)
    requires n < k && d in parts(n)
    ensures d in Collect(parts, k)
    decreases k
  {
    assert Collect(parts, k) == Collect(parts, k - 1) + parts(k - 1);
    if n < k - 1 {
      CollectComplete(parts, k - 1, n, d);
    }
  }

  /** The findings on the first `k` lines, line after line. */
  function Analysis(lines: seq<string>, k: nat, finders: Finders): seq<P.Diagnostic> {
    Collect(FindingsByLine(lines, finders), k)
  }

  /** The findings of the first `k + 1` lines: those of the first `k`, then those of line `k`. */
  lemma AnalysisStep(lines: seq<string>, k: nat, finders: Finders)
    requires k < |lines|
    ensures Analysis(lines, k + 1, finders) == Analysis(lines, k, finders) + LineFindings(lines, k, finders)
  {
    var parts := FindingsByLine(lines, finders);
    assert parts(k) == LineFindings(lines, k, finders);
  }

  /** A finding of a document is a finding of the line it names. */
  lemma AnalysisSound(lines: seq<string>, finders: Finders, d: P.Diagnostic)
    requires d in Analysis(lines, |lines|, finders)
    ensures 0 <= d.range.start.line < |lines| && d in LineFindings(lines, d.range.start.line, finders)
  {
    CollectSound(FindingsByLine(lines, finders), |lines|, d);
    var j :| 0 <= j < |lines| && d in FindingsByLine(lines, finders)(j);
    assert d in LineFindings(lines, j, finders);
  }

  /** Every finding of a line is a finding of the document. */
  lemma AnalysisComplete(lines: seq<string>, finders: Finders, n: nat, d: P.Diagnostic)
    requires n < |lines| && d in LineFindings(lines, n, finders)
    ensures d in Analysis(lines, |lines|, finders)
  {
    assert FindingsByLine(lines, finders)(n) == LineFindings(lines, n, finders);
    CollectComplete(FindingsByLine(lines, finders), |lines|, n, d);
  }

  /** A line gets the long-line warning exactly when it is over 120 characters. */
  lemma LongLineRule(lines: seq<string>, n: nat, finders: Finders)
    requires n < |lines|
    ensures LongLineFinding(n, lines[n]) in Analysis(lines, |lines|, finders) <==> |lines[n]| > MaxLineLength
  {
    var d := LongLineFinding(n, lines[n]);
    var t, f, l, u := TodoPart(n, lines[n], finders), FixmePart(n, lines[n], finders), LongLinePart(n, lines[n]), DuplicatePart(lines, n);
    assert LineFindings(lines, n, finders) == t + f + l + u;
    assert d.message[0] == 'L' && d.severity == P.SeverityWarning;
    if |lines[n]| > MaxLineLength {
      assert d in l;
      AnalysisComplete(lines, finders, n, d);
    }
    if d in Analysis(lines, |lines|, finders) {
      AnalysisSound(lines, finders, d);
      assert d !in t && d !in f && d !in u;
    }
  }

  /** A line gets the duplicate notice exactly when it repeats the non-blank line before it; line 0 never does. */
  lemma DuplicateRule(lines: seq<string>, n: nat, finders: Finders)
    requires n < |lines|
    ensures DuplicateFinding(n, lines[n]) in Analysis(lines, |lines|, finders) <==> IsDuplicate(lines, n)
    ensures n == 0 ==> DuplicateFinding(0, lines[0]) !in Analysis(lines, |lines|, finders)
  {
    var d := DuplicateFinding(n, lines[n]);
    var t, f, l, u := TodoPart(n, lines[n], finders), FixmePart(n, lines[n], finders), LongLinePart(n, lines[n]), DuplicatePart(lines, n);
    assert LineFindings(lines, n, finders) == t + f + l + u;
    assert d.message[0] == 'D' && d.severity == P.SeverityInformation;
    if IsDuplicate(lines, n) {
      assert d in u;
      AnalysisComplete(lines, finders, n, d);
    }
    if d in Analysis(lines, |lines|, finders) {
      AnalysisSound(lines, finders, d);
      assert d !in t && d !in f && d !in l;
    }
  }

  /** A line gets a TODO finding at the span the search reports, and none when the search finds nothing. */
  lemma TodoRule(lines: seq<string>, n: nat, finders: Finders, s: Span)
    requires n < |lines|
    ensures TodoFinding(n, s) in Analysis(lines, |lines|, finders) <==> finders.todo(lines[n]) == Some(s)
  {
    var d := TodoFinding(n, s);
    var t, f, l, u := TodoPart(n, lines[n], finders), FixmePart(n, lines[n], finders), LongLinePart(n, lines[n]), DuplicatePart(lines, n);
    assert LineFindings(lines, n, finders) == t + f + l + u;
    assert d.message[0] == 'T' && d.severity == P.SeverityInformation;
    if finders.todo(lines[n]) == Some(s) {
      assert d in t;
      AnalysisComplete(lines, finders, n, d);
    }
    if d in Analysis(lines, |lines|, finders) {
      AnalysisSound(lines, finders, d);
      assert d !in f && d !in l && d !in u;
    }
  }

  // ---------------------------------------------------------------------------
  // Messages and the server value

  /** The params fields the notification handlers read: the URI (None when absent), the text and each change's text ("" when absent). */
  datatype TextParams = TextParams(uri: Option<string>, text: string, changes: seq<string>)

  /** A decoded message: its method and id (None when absent or null) and its params. */
  datatype Message = Message(methodName: Option<string>, id: Option<P.Id>, params: TextParams)

  /** The result of a request. */
  datatype ResultValue =
    | NullResult
    | InitializeResult(sync: P.SyncOptions, interFileDependencies: bool, workspaceDiagnostics: bool, serverInfo: P.ServerInfo)

  /** The initialize result: full sync with open/close, save without text, a diagnostic provider. */
  const InitializeReply: ResultValue :=
    InitializeResult(P.SyncOptions(true, P.SyncFull, Some(P.SaveOptions(false))), false, false,
                     P.ServerInfo("basic-lsp-server", "0.1.0"))

  const InternalError: int := -32603

  /** A message the server sends. */
  datatype Outgoing =
    | Response(id: P.Id, result: ResultValue)
    | ErrorResponse(id: P.Id, code: int, message: string)
    | Publish(uri: Option<string>, diagnostics: seq<P.Diagnostic>)

  datatype State = State(documents: map<Option<string>, string>, running: bool, initialized: bool)

  /** analyze_document on a text. */
  function AnalyzeText(text: string, finders: Finders): seq<P.Diagnostic> {
    var lines := Strings.Split(text, '\n');
    Analysis(lines, |lines|, finders)
  }

  /**
   * handle_request: initialize and shutdown are answered with the request's
   * id, with an InternalError carrying the exception text when the handler
   * raised `raised`; any other method gets no reply at all.
   */
  function Request(s: State, id: P.Id, methodName: Option<string>, raised: Option<string>): (r: (State, seq<Outgoing>))
    ensures methodName in {Some("initialize"), Some("shutdown")} ==> |r.1| == 1 && !r.1[0].Publish? && r.1[0].id == id
    ensures methodName in {Some("initialize"), Some("shutdown")} && raised.Some? ==>
      r == (s, [ErrorResponse(id, InternalError, raised.value)])
    ensures methodName !in {Some("initialize"), Some("shutdown")} ==> r == (s, [])
    ensures r.0.documents == s.documents
  {
    if methodName == Some("initialize") then
      if raised.Some? then (s, [ErrorResponse(id, InternalError, raised.value)])
      else (s.(initialized := true), [Response(id, InitializeReply)])
    else if methodName == Some("shutdown") then
      if raised.Some? then (s, [ErrorResponse(id, InternalError, raised.value)])
      else (s.(running := false), [Response(id, NullResult)])
    else (s, [])
  }

  /** What a notification does: the new value, what it publishes, and whether it called `sys.exit(0)`. */
  datatype Effect = Effect(state: State, output: seq<Outgoing>, exit: bool)

  /** handle_notification. */
  function Notification(s: State, methodName: Option<string>, p: TextParams, finders: Finders): (e: Effect)
    ensures forall o | o in e.output :: o.Publish?
    ensures e.state.running == s.running && e.state.initialized == s.initialized
    ensures e.exit <==> methodName == Some("exit")
  {
    match methodName
    case Some("textDocument/didOpen") =>
      Effect(s.(documents := s.documents[p.uri := p.text]), [Publish(p.uri, AnalyzeText(p.text, finders))], false)
    case Some("textDocument/didChange") =>
      if p.changes == [] then Effect(s, [], false)
      else Effect(s.(documents := s.documents[p.uri := p.changes[0]]), [Publish(p.uri, AnalyzeText(p.changes[0], finders))], false)
    case Some("textDocument/didClose") =>
      Effect(s.(documents := s.documents - {p.uri}), [Publish(p.uri, [])], false)
    case Some("exit") => Effect(s, [], true)
    case _ => Effect(s, [], false)
  }

  /** didChange stores the first change's text, not the last, and changes nothing when there is none. */
  lemma ChangeTakesFirst(s: State, p: TextParams, finders: Finders)
    ensures var e := Notification(s, Some("textDocument/didChange"), p, finders);
      && (p.changes == [] ==> e == Effect(s, [], false))
      && (p.changes != [] ==> e.state.documents == s.documents[p.uri := p.changes[0]])
  {
  }

  /** didClose of a URI that is not open changes nothing, and still publishes an empty list for it. */
  lemma CloseAlwaysPublishes(s: State, p: TextParams, finders: Finders)
    ensures var e := Notification(s, Some("textDocument/didClose"), p, finders);
      && e.output == [Publish(p.uri, [])]
      && (p.uri !in s.documents ==> e.state == s)
  {
  }

  // ---------------------------------------------------------------------------
  // The run loop

  /**
   * `json.loads` on a body followed by the first `message.get`: an exception
   * (a decoding error, or a value that is not a dictionary, such as null, `[]`,
   * 0, "" or false, on which `get` raises AttributeError), the empty
   * dictionary `{}` (`None`, the only falsy value that reaches `break`), or a
   * message.
   */
  type Loads = string -> Result<Option<Message>, string>

  /** Why the loop ended: running turned false, no message, an exception, or `sys.exit(0)` from exit. */
  datatype StopReason = NotRunning | NoMessageRead | Crashed | Exited

  /** The value after the loop, everything it sent, and why it ended. */
  datatype Ending = Ending(state: State, output: seq<Outgoing>, stop: StopReason)

  function Prepend(out: seq<Outgoing>, e: Ending): Ending {
    e.(output := out + e.output)
  }

  lemma PrependTwice(a: seq<Outgoing>, b: seq<Outgoing>, e: Ending)
    ensures Prepend(a, Prepend(b, e)) == Prepend(a + b, e)
  {
    assert a + (b + e.output) == (a + b) + e.output;
  }

  /** One pass of the run loop's body: the loop ends, or it goes on from a new value over the rest of the input. */
  datatype Pass = Stopped(ending: Ending) | Continued(state: State, output: seq<Outgoing>, rest: string)

  /** One pass from the value `s`: read a message, decode it, and handle it as a request or a notification. */
  function LoopPass(s: State, input: string, loads: Loads, finders: Finders): (r: Pass)
    ensures r.Continued? ==> |r.rest| < |input|
  {
    match ReadMessage(input)
    case NoMessage => Stopped(Ending(s, [], NoMessageRead))
    case Raised(_) => Stopped(Ending(s, [], Crashed))
    case Content(text, rest) =>
      match loads(text)
      case Failure(_) => Stopped(Ending(s, [], Crashed))
      case Success(None) => Stopped(Ending(s, [], NoMessageRead))
      case Success(Some(m)) =>
        if m.id.Some? then
          var (t, out) := Request(s, m.id.value, m.methodName, None);
          Continued(t, out, rest)
        else
          var e := Notification(s, m.methodName, m.params, finders);
          if e.exit then Stopped(Ending(e.state, e.output, Exited))
          else Continued(e.state, e.output, rest)
  }

  /** The run loop from the value `s` over the unread input. */
  function Session(s: State, input: string, loads: Loads, finders: Finders): Ending
    decreases |input|
  {
    if !s.running then Ending(s, [], NotRunning)
    else match LoopPass(s, input, loads, finders)
      case Stopped(e) => e
      case Continued(t, out, rest) => Prepend(out, Session(t, rest, loads, finders))
  }

  /** A shutdown request is answered with its id and then ends the loop, whatever input follows. */
  lemma ShutdownEndsSession(s: State, input: string, loads: Loads, finders: Finders, id: P.Id, p: TextParams)
    requires s.running && ReadMessage(input).Content?
    requires loads(ReadMessage(input).text) == Success(Some(Message(Some("shutdown"), Some(id), p)))
    ensures Session(s, input, loads, finders) == Ending(s.(running := false), [Response(id, NullResult)], NotRunning)
  {
    var read, t, out := ReadMessage(input), s.(running := false), [Response(id, NullResult)];
    assert LoopPass(s, input, loads, finders) == Continued(t, out, read.rest) by {
      assert Request(s, id, Some("shutdown"), None) == (t, out);
    }
    SessionContinues(s, input, loads, finders);
    assert Session(t, read.rest, loads, finders) == Ending(t, [], NotRunning);
    assert out + [] == out;
  }

  /** A pass that does not stop the loop is followed by the session from where it left off. */
  lemma SessionContinues(s: State, input: string, loads: Loads, finders: Finders)
    requires s.running && LoopPass(s, input, loads, finders).Continued?
    ensures var p := LoopPass(s, input, loads, finders);
      Session(s, input, loads, finders) == Prepend(p.output, Session(p.state, p.rest, loads, finders))
  {
  }

  /** A message with an id is never handled as a notification: it changes no document. */
  lemma RequestsKeepDocuments(s: State, m: Message, finders: Finders)
    requires m.id.Some?
    ensures Request(s, m.id.value, m.methodName, None).0.documents == s.documents
    ensures Request(s, m.id.value, m.methodName, None).0.running == (s.running && m.methodName != Some("shutdown"))
  {
  }

  class LanguageServer {
    var documents: map<Option<string>, string>
    var running: bool
    var initialized: bool

    function Abstract(): State
      reads this
    {
      State(documents, running, initialized)
    }

    /** LSPServer(): no documents, running, not initialized. */
    constructor ()
      ensures Abstract() == State(map[], true, false)
    {
      documents := map[];
      running := true;
      initialized := false;
    }

    /** The body of analyze_document's loop for line `lineNum`: the four checks in order. */
    static method CheckLine(lines: seq<string>, lineNum: nat, finders: Finders) returns (found: seq<P.Diagnostic>)
      requires lineNum < |lines|
      ensures found == LineFindings(lines, lineNum, finders)
    {
      var line := lines[lineNum];
      found := [];
      var todo := finders.todo(line);
      if todo.Some? {
        found := found + [TodoFinding(lineNum, todo.value)];
      }
      assert found == TodoPart(lineNum, line, finders);
      var fixme := finders.fixme(line);
      if fixme.Some? {
        found := found + [FixmeFinding(lineNum, fixme.value)];
      }
      assert found == TodoPart(lineNum, line, finders) + FixmePart(lineNum, line, finders);
      if |line| > MaxLineLength {
        found := found + [LongLineFinding(lineNum, line)];
      }
      assert found == TodoPart(lineNum, line, finders) + FixmePart(lineNum, line, finders) + LongLinePart(lineNum, line);
      if lineNum > 0 && Strip(line) != [] && line == lines[lineNum - 1] {
        found := found + [DuplicateFinding(lineNum, line)];
      }
    }

    /** analyze_document: the findings of each line in turn. */
    static method AnalyzeDocument(text: string, finders: Finders) returns (diagnostics: seq<P.Diagnostic>)
      ensures diagnostics == AnalyzeText(text, finders)
    {
      diagnostics := [];
      var lines := Strings.Split(text, '\n');
      var lineNum := 0;
      while lineNum < |lines|
        invariant 0 <= lineNum <= |lines|
        invariant diagnostics == Analysis(lines, lineNum, finders)
      {
        var found := CheckLine(lines, lineNum, finders);
        AnalysisStep(lines, lineNum, finders);
        assert diagnostics + found == Analysis(lines, lineNum + 1, finders);
        diagnostics := diagnostics + found;
        lineNum := lineNum + 1;
      }
    }

    /** read_message: the header loop, then the body read by Content-Length characters. */
    static method ReadMessageFrom(input: string) returns (r: MessageRead)
      ensures r == ReadMessage(input)
    {
      var headers: map<string, string> := map[];
      var rest := input;
      while true
        invariant ReadHeaders(rest, headers) == ReadHeaders(input, map[])
        decreases |rest|
      {
        var (raw, after) := ReadLine(rest);
        if raw == [] {
          return NoMessage;
        }
        var line := Strip(raw);
        if line == [] {
          rest := after;
          break;
        }
        var field := SplitField(line);
        if field.None? {
          return Raised(MissingSeparator(line));
        }
        headers := headers[field.value.0 := field.value.1];
        rest := after;
      }
      var length := 0;
      if "Content-Length" in headers {
        var parsed := PyInt(headers["Content-Length"]);
        if parsed.None? {
          return Raised(NotAnInteger(headers["Content-Length"]));
        }
        length := parsed.value;
      }
      if length == 0 {
        return NoMessage;
      }
      var (text, left) := ReadChars(rest, length);
      r := Content(text, left);
    }

    method HandleRequest(id: P.Id, methodName: Option<string>, raised: Option<string>) returns (out: seq<Outgoing>)
      modifies this
      ensures (Abstract(), out) == Request(old(Abstract()), id, methodName, raised)
    {
      out := [];
      if methodName == Some("initialize") || methodName == Some("shutdown") {
        if raised.Some? {
          out := [ErrorResponse(id, InternalError, raised.value)];
        } else if methodName == Some("initialize") {
          initialized := true;
          out := [Response(id, InitializeReply)];
        } else {
          running := false;
          out := [Response(id, NullResult)];
        }
      }
    }

    method HandleNotification(methodName: Option<string>, p: TextParams, finders: Finders)
      returns (out: seq<Outgoing>, exit: bool)
      modifies this
      ensures Effect(Abstract(), out, exit) == Notification(old(Abstract()), methodName, p, finders)
    {
      out := [];
      exit := false;
      if methodName == Some("textDocument/didOpen") {
        documents := documents[p.uri := p.text];
        var diagnostics := AnalyzeDocument(p.text, finders);
        out := [Publish(p.uri, diagnostics)];
      } else if methodName == Some("textDocument/didChange") {
        if p.changes != [] {
          var text := p.changes[0];
          documents := documents[p.uri := text];
          var diagnostics := AnalyzeDocument(text, finders);
          out := [Publish(p.uri, diagnostics)];
        }
      } else if methodName == Some("textDocument/didClose") {
        if p.uri in documents {
          documents := documents - {p.uri};
        }
        out := [Publish(p.uri, [])];
      } else if methodName == Some("exit") {
        exit := true;
      }
    }

    /** The body of run's loop: read a message, decode it, handle it; `stop` says whether and why the loop ends. */
    method Pass(input: string, loads: Loads, finders: Finders) returns (out: seq<Outgoing>, rest: string, stop: Option<StopReason>)
      modifies this
      ensures LoopPass(old(Abstract()), input, loads, finders)
        == if stop.Some? then Stopped(Ending(Abstract(), out, stop.value)) else Continued(Abstract(), out, rest)
    {
      out, rest := [], input;
      var read := ReadMessageFrom(input);
      if !read.Content? {
        return [], input, Some(if read.NoMessage? then NoMessageRead else Crashed);
      }
      var decoded := loads(read.text);
      if decoded.Failure? {
        return [], input, Some(Crashed);
      }
      if decoded.value.None? {
        return [], input, Some(NoMessageRead);
      }
      var m := decoded.value.value;
      if m.id.Some? {
        out := HandleRequest(m.id.value, m.methodName, None);
        return out, read.rest, None;
      }
      var exit;
      out, exit := HandleNotification(m.methodName, m.params, finders);
      rest := read.rest;
      stop := if exit then Some(Exited) else None;
    }

    /** run: read, classify by id, handle, until running is false, nothing is read, or an exception or exit ends it. */
    method Run(input: string, loads: Loads, finders: Finders) returns (output: seq<Outgoing>, stop: StopReason)
      modifies this
      ensures Ending(Abstract(), output, stop) == Session(old(Abstract()), input, loads, finders)
    {
      output := [];
      var rest := input;
      while running
        invariant Session(old(Abstract()), input, loads, finders) == Prepend(output, Session(Abstract(), rest, loads, finders))
        decreases |rest|
      {
        ghost var current := Abstract();
        var out, next, ended := Pass(rest, loads, finders);
        if ended.Some? {
          assert Session(current, rest, loads, finders) == Ending(Abstract(), out, ended.value);
          return output + out, ended.value;
        }
        assert |next| < |rest|;
        PrependTwice(output, out, Session(Abstract(), next, loads, finders));
        output := output + out;
        rest := next;
      }
      stop := NotRunning;
      assert output + [] == output;
    }
  }
}
