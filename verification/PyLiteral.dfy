/**
  The Python-literal printer of scripts/convert_scanned_data.py and a reader for the grammar it
  emits: list and dict displays with trailing commas, double-quoted string literals with
  backslash escapes (Python Language Reference, section 2.4.1), numbers, True, False and None.
*/
module PyLiteral {
  import opened Wrappers

  /** Python's str is a sequence of code points; the source text itself is plain ASCII. */
  type CodePoint = c: int | 0 <= c < 0x110000
  type Text = seq<CodePoint>

  /** A JSON value as Python holds it.  A float is carried as the text `repr` gives it. */
  datatype Value =
    | Null
    | Bool(b: bool)
    | Int(n: int)
    | Float(repr: string)
    | Str(s: Text)
    | List(items: seq<Value>)
    | Dict(entries: seq<Entry>)

  datatype Entry = Entry(key: Text, value: Value)

  // ---------------------------------------------------------------- characters

  predicate IsDigit(c: char) { '0' <= c <= '9' }

  predicate IsNumberChar(c: char) { IsDigit(c) || c == '.' || c == 'e' || c == '+' || c == '-' }

  predicate IsSpace(c: char) { c == ' ' || c == '\n' || c == '\t' || c == '\r' }

  predicate AllDigits(s: string) { s != "" && forall i :: 0 <= i < |s| ==> IsDigit(s[i]) }

  predicate Blank(s: string) { forall i :: 0 <= i < |s| ==> IsSpace(s[i]) }

  function HexDigit(d: nat): (c: char)
    requires d < 16
    ensures HexValue(c) == Some(d)
  {
    if d < 10 then ('0' as int + d) as char else ('a' as int + d - 10) as char
  }

  function HexValue(c: char): (r: Option<nat>)
    ensures r.Some? ==> r.value < 16
  {
    if '0' <= c <= '9' then Some(c as int - '0' as int)
    else if 'a' <= c <= 'f' then Some(c as int - 'a' as int + 10)
    else if 'A' <= c <= 'F' then Some(c as int - 'A' as int + 10)
    else None
  }

  // ---------------------------------------------------------------- printing

  /** `\uXXXX` for a 16-bit unit. */
  function UnicodeEscape(u: nat): string
    requires u < 0x10000
  {
    ['\\', 'u', HexDigit(u / 4096), HexDigit(u / 256 % 16), HexDigit(u / 16 % 16), HexDigit(u % 16)]
  }

  function HighSurrogate(c: nat): (r: CodePoint)
    requires 0x10000 <= c < 0x110000
    ensures 0xd800 <= r < 0xdc00
  {
    0xd800 + (c - 0x10000) / 1024
  }

  function LowSurrogate(c: nat): (r: CodePoint)
    requires 0x10000 <= c < 0x110000
    ensures 0xdc00 <= r < 0xe000
  {
    0xdc00 + (c - 0x10000) % 1024
  }

  /** json.dumps with ensure_ascii, one code point. */
  function EscapeOne(c: CodePoint): string {
    if c == 34 then "\\\""
    else if c == 92 then "\\\\"
    else if c == 10 then "\\n"
    else if c == 13 then "\\r"
    else if c == 9 then "\\t"
    else if c == 12 then "\\f"
    else if c == 8 then "\\b"
    else if 32 <= c <= 126 then [c as char]
    else if c < 0x10000 then UnicodeEscape(c)
    else UnicodeEscape(HighSurrogate(c)) + UnicodeEscape(LowSurrogate(c))
  }

  function Escape(t: Text): string {
    if t == [] then "" else EscapeOne(t[0]) + Escape(t[1..])
  }

  function Dumps(t: Text): string { "\"" + Escape(t) + "\"" }

  function Digits(n: nat): (r: string)
    ensures AllDigits(r)
  {
    if n < 10 then [('0' as int + n) as char] else Digits(n / 10) + [('0' as int + n % 10) as char]
  }

  function IntRepr(n: int): string { if n < 0 then "-" + Digits(-n) else Digits(n) }

  function Pad(level: nat): (r: string)
    ensures Blank(r)
  {
    if level == 0 then "" else "  " + Pad(level - 1)
  }

  function ToPythonLiteral(v: Value, level: nat): string
    decreases v, 1
  {
    match v
    case Dict(entries) =>
      if entries == [] then "{}" else "{\n" + PrintEntries(entries, level + 1) + Pad(level) + "}"
    case List(items) =>
      if items == [] then "[]" else "[\n" + PrintItems(items, level + 1) + Pad(level) + "]"
    case Bool(b) => if b then "True" else "False"
    case Null => "None"
    case Str(s) => Dumps(s)
    case Int(n) => IntRepr(n)
    case Float(repr) => repr
  }

  /** The items joined by ",\n" with a trailing ",\n": each item line ends in a comma. */
  function PrintItems(items: seq<Value>, level: nat): string
    decreases items, 0
  {
    if items == [] then ""
    else Pad(level) + ToPythonLiteral(items[0], level) + ",\n" + PrintItems(items[1..], level)
  }

  function PrintEntries(entries: seq<Entry>, level: nat): string
    decreases entries, 0
  {
    if entries == [] then ""
    else Pad(level) + Dumps(entries[0].key) + ": " + ToPythonLiteral(entries[0].value, level) + ",\n" +
         PrintEntries(entries[1..], level)
  }

  // ---------------------------------------------------------------- reading

  function ReadHex4(s: string): Option<CodePoint> {
    if |s| < 4 then None
    else
      var a, b, c, d := HexValue(s[0]), HexValue(s[1]), HexValue(s[2]), HexValue(s[3]);
      if a.Some? && b.Some? && c.Some? && d.Some?
      then Some(a.value * 4096 + b.value * 256 + c.value * 16 + d.value) else None
  }

  /** The body of a string literal, up to and including the closing quote. */
  function ReadChars(s: string): (r: Option<(Text, string)>)
    ensures r.Some? ==> |r.value.1| < |s|
  {
    if s == "" || s[0] == '\n' then None
    else if s[0] == '"' then Some(([], s[1..]))
    else if s[0] != '\\' then
      Prepend(s[0] as int, ReadChars(s[1..]))
    else if |s| < 2 then None
    else if s[1] == 'u' then
      var unit := ReadHex4(s[2..]);
      if unit.None? then None else Prepend(unit.value, ReadChars(s[6..]))
    else
      var c := Unescape(s[1]);
      if c.None? then None else Prepend(c.value, ReadChars(s[2..]))
  }

  function Prepend(c: CodePoint, r: Option<(Text, string)>): Option<(Text, string)> {
    if r.None? then None else Some(([c] + r.value.0, r.value.1))
  }

  function Unescape(c: char): Option<CodePoint> {
    match c
    case '"' => Some(34)
    case '\\' => Some(92)
    case 'n' => Some(10)
    case 'r' => Some(13)
    case 't' => Some(9)
    case 'f' => Some(12)
    case 'b' => Some(8)
    case _ => None
  }

  /** The longest prefix made of number characters. */
  function NumberToken(s: string): (r: string)
    ensures r <= s
  {
    if s != "" && IsNumberChar(s[0]) then [s[0]] + NumberToken(s[1..]) else ""
  }

  function DigitsValue(s: string): nat
    requires AllDigits(s)
  {
    var last := s[|s| - 1] as int - '0' as int;
    if |s| == 1 then last else DigitsValue(s[..|s| - 1]) * 10 + last
  }

  function ReadNumber(token: string): Value {
    if AllDigits(token) then Int(DigitsValue(token))
    else if token != "" && token[0] == '-' && AllDigits(token[1..]) then Int(0 - DigitsValue(token[1..]))
    else Float(token)
  }

  /** A dict display keeps the first position and the last value of a repeated key. */
  function Insert(entries: seq<Entry>, e: Entry): seq<Entry> {
    if entries == [] then [e]
    else if entries[0].key == e.key then [e] + entries[1..]
    else [entries[0]] + Insert(entries[1..], e)
  }

  function DictOf(entries: seq<Entry>): seq<Entry> {
    if entries == [] then [] else Insert(DictOf(entries[..|entries| - 1]), entries[|entries| - 1])
  }

  datatype Token =
    | Mark(c: char)        // one of [ ] { } , :
    | Name(word: string)
    | Number(value: Value)
    | Literal(text: Text)

  predicate IsMark(c: char) { c in {'[', ']', '{', '}', ',', ':'} }

  predicate IsLetter(c: char) { 'a' <= c <= 'z' || 'A' <= c <= 'Z' }

  /** The longest prefix made of letters. */
  function NameToken(s: string): (r: string)
    ensures r <= s
  {
    if s != "" && IsLetter(s[0]) then [s[0]] + NameToken(s[1..]) else ""
  }

  function Then(tokens: seq<Token>, rest: Option<seq<Token>>): Option<seq<Token>> {
    if rest.None? then None else Some(tokens + rest.value)
  }

  /** The tokenizer; None on a lexical error. */
  function Lex(s: string): Option<seq<Token>>
    decreases |s|
  {
    if s == "" then Some([])
    else if IsSpace(s[0]) then Lex(s[1..])
    else if IsMark(s[0]) then Then([Mark(s[0])], Lex(s[1..]))
    else if s[0] == '"' then
      var r := ReadChars(s[1..]);
      if r.None? then None else Then([Literal(r.value.0)], Lex(r.value.1))
    else if s[0] == '-' || IsDigit(s[0]) then
      var token := NumberToken(s);
      Then([Number(ReadNumber(token))], Lex(s[|token|..]))
    else if IsLetter(s[0]) then
      var word := NameToken(s);
      Then([Name(word)], Lex(s[|word|..]))
    else None
  }

  /** Reads one value and returns the tokens behind it. */
  function ParseValue(ts: seq<Token>): (r: Option<(Value, seq<Token>)>)
    ensures r.Some? ==> |r.value.1| < |ts|
    decreases |ts|, 0
  {
    if ts == [] then None
    else match ts[0]
      case Literal(t) => Some((Str(t), ts[1..]))
      case Number(v) => Some((v, ts[1..]))
      case Name(w) =>
        if w == "True" then Some((Bool(true), ts[1..]))
        else if w == "False" then Some((Bool(false), ts[1..]))
        else if w == "None" then Some((Null, ts[1..]))
        else None
      case Mark(c) =>
        if c == '[' then
          var r := ParseItems(ts[1..]);
          if r.None? then None else Some((List(r.value.0), r.value.1))
        else if c == '{' then
          var r := ParseEntries(ts[1..]);
          if r.None? then None else Some((Dict(DictOf(r.value.0)), r.value.1))
        else None
  }

  /** The rest of a list display: items separated by commas, one trailing comma allowed. */
  function ParseItems(ts: seq<Token>): (r: Option<(seq<Value>, seq<Token>)>)
    ensures r.Some? ==> |r.value.1| < |ts|
    decreases |ts|, 1
  {
    if ts != [] && ts[0] == Mark(']') then Some(([], ts[1..]))
    else
      var item := ParseValue(ts);
      if item.None? || item.value.1 == [] then None
      else
        var after := item.value.1;
        if after[0] == Mark(']') then Some(([item.value.0], after[1..]))
        else if after[0] == Mark(',') then
          var rest := ParseItems(after[1..]);
          if rest.None? then None else Some(([item.value.0] + rest.value.0, rest.value.1))
        else None
  }

  function ParseEntries(ts: seq<Token>): (r: Option<(seq<Entry>, seq<Token>)>)
    ensures r.Some? ==> |r.value.1| < |ts|
    decreases |ts|, 1
  {
    if ts != [] && ts[0] == Mark('}') then Some(([], ts[1..]))
    else if |ts| < 2 || !ts[0].Literal? || ts[1] != Mark(':') then None
    else
      var value := ParseValue(ts[2..]);
      if value.None? || value.value.1 == [] then None
      else
        var e, after := Entry(ts[0].text, value.value.0), value.value.1;
        if after[0] == Mark('}') then Some(([e], after[1..]))
        else if after[0] == Mark(',') then
          var rest := ParseEntries(after[1..]);
          if rest.None? then None else Some(([e] + rest.value.0, rest.value.1))
        else None
  }

  /** literal_eval: one value and nothing behind it. */
  function LiteralEval(text: string): Option<Value> {
    var tokens := Lex(text);
    if tokens.None? then None
    else
      var r := ParseValue(tokens.value);
      if r.Some? && r.value.1 == [] then Some(r.value.0) else None
  }

  // ---------------------------------------------------------------- the script's own check

  function AfterEquals(s: string): string {
    if s == "" then "" else if s[0] == '=' then s[1..] else AfterEquals(s[1..])
  }

  function Block(varName: string, v: Value): string {
    varName + " = " + ToPythonLiteral(v, 0) + "\n"
  }

  /** The run-time sanity check: the generated source reads back as the same data. */
  predicate SanityCheck(varName: string, v: Value) {
    LiteralEval(AfterEquals(Block(varName, v))) == Some(v)
  }
}
