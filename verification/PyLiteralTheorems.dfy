/**
  The printer round trip: reading the emitted literal gives the printed value back exactly when
  every string in it stays in the Basic Multilingual Plane.
*/
module PyLiteralTheorems {
  import opened Wrappers
  import opened PyLiteral

  // ---------------------------------------------------------------- values

  /** What `repr` gives for a finite float: a number token that is not an integer. */
  predicate FiniteRepr(repr: string) {
    && repr != "" && (repr[0] == '-' || IsDigit(repr[0]))
    && (forall i :: 0 <= i < |repr| ==> IsNumberChar(repr[i]))
    && ReadNumber(repr) == Float(repr)
  }

  predicate UniqueKeys(entries: seq<Entry>) {
    forall i, j :: 0 <= i < j < |entries| ==> entries[i].key != entries[j].key
  }

  /** JSON data: finite numbers, and dicts hold each key once. */
  predicate WellFormed(v: Value) {
    match v
    case Float(repr) => FiniteRepr(repr)
    case List(items) => forall i :: 0 <= i < |items| ==> WellFormed(items[i])
    case Dict(entries) => UniqueKeys(entries) && forall i :: 0 <= i < |entries| ==> WellFormed(entries[i].value)
    case _ => true
  }

  predicate BmpText(t: Text) { forall i :: 0 <= i < |t| ==> t[i] < 0x10000 }

  /** Every string and every key lies in the Basic Multilingual Plane. */
  predicate Bmp(v: Value) {
    match v
    case Str(s) => BmpText(s)
    case List(items) => forall i :: 0 <= i < |items| ==> Bmp(items[i])
    case Dict(entries) => forall i :: 0 <= i < |entries| ==> BmpText(entries[i].key) && Bmp(entries[i].value)
    case _ => true
  }

  /** What Python reads for one printed code point: a surrogate pair stays two code points. */
  function Units(c: CodePoint): Text {
    if c < 0x10000 then [c] else [HighSurrogate(c), LowSurrogate(c)]
  }

  function TextAsRead(t: Text): Text {
    if t == [] then [] else Units(t[0]) + TextAsRead(t[1..])
  }

  /** The value that comes back from the printed literal. */
  function AsRead(v: Value): Value
    decreases v, 1
  {
    match v
    case Str(s) => Str(TextAsRead(s))
    case List(items) => List(ItemsAsRead(items))
    case Dict(entries) => Dict(DictOf(EntriesAsRead(entries)))
    case _ => v
  }

  function ItemsAsRead(items: seq<Value>): (r: seq<Value>)
    ensures |r| == |items|
    decreases items, 0
  {
    if items == [] then [] else [AsRead(items[0])] + ItemsAsRead(items[1..])
  }

  function EntriesAsRead(entries: seq<Entry>): (r: seq<Entry>)
    ensures |r| == |entries|
    decreases entries, 0
  {
    if entries == [] then []
    else [Entry(TextAsRead(entries[0].key), AsRead(entries[0].value))] + EntriesAsRead(entries[1..])
  }

  // ---------------------------------------------------------------- strings

  lemma HexSum(u: nat)
    requires u < 0x10000
    ensures u / 4096 < 16
    ensures u / 4096 * 4096 + u / 256 % 16 * 256 + u / 16 % 16 * 16 + u % 16 == u
  {
    assert u / 256 == u / 4096 * 16 + u / 256 % 16;
    assert u / 16 == u / 256 * 16 + u / 16 % 16;
  }

  lemma ReadHexDigits(s: string, a: nat, b: nat, c: nat, d: nat)
    requires a < 16 && b < 16 && c < 16 && d < 16
    requires |s| >= 4 && s[0] == HexDigit(a) && s[1] == HexDigit(b) && s[2] == HexDigit(c) && s[3] == HexDigit(d)
    ensures ReadHex4(s) == Some(a * 4096 + b * 256 + c * 16 + d)
  {
  }

  lemma ReadUnicodeEscape(u: nat, tail: string)
    requires u < 0x10000
    ensures ReadChars(UnicodeEscape(u) + tail) == Prepend(u, ReadChars(tail))
  {
    var s := UnicodeEscape(u) + tail;
    HexSum(u);
    ReadHexDigits(s[2..], u / 4096, u / 256 % 16, u / 16 % 16, u % 16);
    assert s[6..] == tail;
  }

  function PrependAll(units: Text, r: Option<(Text, string)>): Option<(Text, string)> {
    if r.None? then None else Some((units + r.value.0, r.value.1))
  }

  lemma ReadShortEscape(letter: char, c: CodePoint, tail: string)
    requires letter != 'u' && Unescape(letter) == Some(c)
    ensures ReadChars(['\\', letter] + tail) == Prepend(c, ReadChars(tail))
  {
    assert (['\\', letter] + tail)[2..] == tail;
  }

  lemma ReadPlain(c: char, tail: string)
    requires c != '\\' && c != '"' && c != '\n'
    ensures ReadChars([c] + tail) == Prepend(c as int, ReadChars(tail))
  {
    assert ([c] + tail)[1..] == tail;
  }

  lemma ReadEscapeOne(c: CodePoint, tail: string)
    ensures ReadChars(EscapeOne(c) + tail) == PrependAll(Units(c), ReadChars(tail))
  {
    if c == 34 { ReadShortEscape('"', c, tail); }
    else if c == 92 { ReadShortEscape('\\', c, tail); }
    else if c == 10 { ReadShortEscape('n', c, tail); }
    else if c == 13 { ReadShortEscape('r', c, tail); }
    else if c == 9 { ReadShortEscape('t', c, tail); }
    else if c == 12 { ReadShortEscape('f', c, tail); }
    else if c == 8 { ReadShortEscape('b', c, tail); }
    else if 32 <= c <= 126 { ReadPlain(c as char, tail); }
    else if c < 0x10000 { ReadUnicodeEscape(c, tail); }
    else { ReadSurrogates(c, tail); }
  }

  lemma PrependTwice(a: CodePoint, b: CodePoint, r: Option<(Text, string)>)
    ensures Prepend(a, Prepend(b, r)) == PrependAll([a, b], r)
  {
    if r.Some? { assert [a] + ([b] + r.value.0) == [a, b] + r.value.0; }
  }

  lemma ReadSurrogates(c: CodePoint, tail: string)
    requires c >= 0x10000
    ensures ReadChars(EscapeOne(c) + tail) == PrependAll(Units(c), ReadChars(tail))
  {
    var first, second := UnicodeEscape(HighSurrogate(c)), UnicodeEscape(LowSurrogate(c));
    ReadUnicodeEscape(HighSurrogate(c), second + tail);
    ReadUnicodeEscape(LowSurrogate(c), tail);
    PrependTwice(HighSurrogate(c), LowSurrogate(c), ReadChars(tail));
    assert first + second + tail == first + (second + tail);
    assert EscapeOne(c) == first + second;
  }

  /** A dumped string reads back as its sequence of 16-bit units. */
  lemma {:induction false} ReadEscaped(t: Text, rest: string)
    ensures ReadChars(Escape(t) + "\"" + rest) == Some((TextAsRead(t), rest))
  {
    if t == [] {
      assert Escape(t) + "\"" + rest == "\"" + rest;
      assert ("\"" + rest)[1..] == rest;
    } else {
      var tail := Escape(t[1..]) + "\"" + rest;
      ReadEscaped(t[1..], rest);
      ReadEscapeOne(t[0], tail);
      assert Escape(t) + "\"" + rest == EscapeOne(t[0]) + tail;
    }
  }

  // ---------------------------------------------------------------- numbers

  /** A number or a name ends where the rest begins. */
  predicate Ends(rest: string) { rest == "" || !(IsNumberChar(rest[0]) || IsLetter(rest[0])) }

  lemma {:induction false} TokenOf(token: string, rest: string)
    requires (forall i :: 0 <= i < |token| ==> IsNumberChar(token[i])) && Ends(rest)
    ensures NumberToken(token + rest) == token
  {
    if token != "" {
      TokenOf(token[1..], rest);
      assert (token + rest)[1..] == token[1..] + rest;
    } else {
      assert token + rest == rest;
    }
  }

  lemma {:induction false} DigitsRoundTrip(n: nat)
    ensures DigitsValue(Digits(n)) == n
  {
    if n >= 10 { DigitsRoundTrip(n / 10); }
  }

  /** The text of an integer literal: digits, possibly behind a minus sign. */
  predicate IntToken(s: string) {
    && s != "" && (s[0] == '-' || IsDigit(s[0]))
    && forall i :: 0 <= i < |s| ==> IsNumberChar(s[i])
  }

  lemma Negative(digits: string)
    requires AllDigits(digits)
    ensures IntToken("-" + digits) && ReadNumber("-" + digits) == Int(0 - DigitsValue(digits))
  {
    var s := "-" + digits;
    assert !IsDigit(s[0]);
    assert s[1..] == digits;
  }

  lemma IntRoundTrip(n: int)
    ensures IntToken(IntRepr(n)) && ReadNumber(IntRepr(n)) == Int(n)
  {
    if n < 0 {
      DigitsRoundTrip(-n);
      Negative(Digits(-n));
    } else {
      DigitsRoundTrip(n);
    }
  }

  // ---------------------------------------------------------------- tokens of a printed value

  /** The token sequence of the printed value. */
  function Tokens(v: Value): seq<Token>
    decreases v, 1
  {
    match v
    case Null => [Name("None")]
    case Bool(b) => [Name(if b then "True" else "False")]
    case Str(t) => [Literal(TextAsRead(t))]
    case List(items) => [Mark('[')] + ItemTokens(items) + [Mark(']')]
    case Dict(entries) => [Mark('{')] + EntryTokens(entries) + [Mark('}')]
    case _ => [Number(v)]
  }

  function ItemTokens(items: seq<Value>): seq<Token>
    decreases items, 0
  {
    if items == [] then [] else Tokens(items[0]) + [Mark(',')] + ItemTokens(items[1..])
  }

  function EntryTokens(entries: seq<Entry>): seq<Token>
    decreases entries, 0
  {
    if entries == [] then []
    else [Literal(TextAsRead(entries[0].key)), Mark(':')] + Tokens(entries[0].value) + [Mark(',')] +
         EntryTokens(entries[1..])
  }

  lemma {:induction false} LexBlank(blank: string, s: string)
    requires Blank(blank)
    ensures Lex(blank + s) == Lex(s)
  {
    if blank == "" {
      assert blank + s == s;
    } else {
      LexBlank(blank[1..], s);
      assert (blank + s)[1..] == blank[1..] + s;
    }
  }

  lemma LexMark(c: char, s: string)
    requires IsMark(c)
    ensures Lex([c] + s) == Then([Mark(c)], Lex(s))
  {
    assert ([c] + s)[1..] == s;
  }

  lemma LexString(t: Text, s: string)
    ensures Lex(Dumps(t) + s) == Then([Literal(TextAsRead(t))], Lex(s))
  {
    ReadEscaped(t, s);
    assert (Dumps(t) + s)[1..] == Escape(t) + "\"" + s;
  }

  lemma LexNumber(token: string, s: string)
    requires token != "" && (token[0] == '-' || IsDigit(token[0])) && Ends(s)
    requires forall i :: 0 <= i < |token| ==> IsNumberChar(token[i])
    ensures Lex(token + s) == Then([Number(ReadNumber(token))], Lex(s))
  {
    TokenOf(token, s);
    assert (token + s)[|token|..] == s;
  }

  lemma {:induction false} WordOf(word: string, s: string)
    requires (forall i :: 0 <= i < |word| ==> IsLetter(word[i])) && Ends(s)
    ensures NameToken(word + s) == word
  {
    if word != "" {
      WordOf(word[1..], s);
      assert (word + s)[1..] == word[1..] + s;
    } else {
      assert word + s == s;
    }
  }

  lemma LexWord(word: string, s: string)
    requires word in {"True", "False", "None"} && Ends(s)
    ensures Lex(word + s) == Then([Name(word)], Lex(s))
  {
    WordOf(word, s);
    assert (word + s)[|word|..] == s;
  }

  /** Tokenizing the printed value gives its tokens and goes on behind it. */
  lemma {:induction false} LexPrinted(v: Value, level: nat, rest: string)
    requires WellFormed(v) && Ends(rest)
    ensures Lex(ToPythonLiteral(v, level) + rest) == Then(Tokens(v), Lex(rest))
    decreases v, 1
  {
    match v
    case Null => LexWord("None", rest);
    case Bool(b) => LexWord(if b then "True" else "False", rest);
    case Int(n) => IntRoundTrip(n); LexNumber(IntRepr(n), rest);
    case Float(repr) => LexNumber(repr, rest);
    case Str(t) => LexString(t, rest);
    case List(items) => LexPrintedList(items, level, rest);
    case Dict(entries) => LexPrintedDict(entries, level, rest);
  }

  lemma ThenThen(a: seq<Token>, b: seq<Token>, rest: Option<seq<Token>>)
    ensures Then(a, Then(b, rest)) == Then(a + b, rest)
  {
    if rest.Some? { assert a + (b + rest.value) == a + b + rest.value; }
  }

  lemma ThenNothing(rest: Option<seq<Token>>)
    ensures Then([], rest) == rest
  {
    if rest.Some? { assert [] + rest.value == rest.value; }
  }

  lemma Reassociate<T>(a: seq<T>, b: seq<T>, c: seq<T>, d: seq<T>, e: seq<T>)
    ensures a + b + c + d + e == a + (b + (c + (d + e)))
  {
  }

  /** A display: opening mark, white space, the lines, white space, closing mark. */
  lemma LexDisplay(open: char, body: string, tokens: seq<Token>, blank: string, pad: string, close: char, rest: string)
    requires IsMark(open) && IsMark(close) && Blank(blank) && Blank(pad)
    requires var tail := pad + ([close] + rest); Lex(body + tail) == Then(tokens, Lex(tail))
    ensures Lex([open] + (blank + (body + (pad + ([close] + rest)))))
         == Then([Mark(open)] + tokens + [Mark(close)], Lex(rest))
  {
    var inner := body + (pad + ([close] + rest));
    LexMark(open, blank + inner);
    LexBlank(blank, inner);
    LexBlank(pad, [close] + rest);
    LexMark(close, rest);
    ThenThen(tokens, [Mark(close)], Lex(rest));
    ThenThen([Mark(open)], tokens + [Mark(close)], Lex(rest));
    assert [Mark(open)] + (tokens + [Mark(close)]) == [Mark(open)] + tokens + [Mark(close)];
  }

  /** One line: indentation, a piece, a comma, a line break, and the lines after it. */
  lemma LexLine(pad: string, piece: string, tokens: seq<Token>, tail: string)
    requires Blank(pad)
    requires Lex(piece + ("," + ("\n" + tail))) == Then(tokens, Lex("," + ("\n" + tail)))
    ensures Lex(pad + (piece + ("," + ("\n" + tail)))) == Then(tokens + [Mark(',')], Lex(tail))
  {
    LexBlank(pad, piece + ("," + ("\n" + tail)));
    LexMark(',', "\n" + tail);
    LexBlank("\n", tail);
    ThenThen(tokens, [Mark(',')], Lex(tail));
  }

  function LineBreak(empty: bool): string { if empty then "" else "\n" }

  function ClosingPad(empty: bool, level: nat): string { if empty then "" else Pad(level) }

  lemma ListText(items: seq<Value>, level: nat, rest: string)
    ensures ToPythonLiteral(List(items), level) + rest
         == "[" + (LineBreak(items == [])
             + (PrintItems(items, level + 1) + (ClosingPad(items == [], level) + ("]" + rest))))
  {
    if items == [] {
      assert "" + ("" + ("" + ("]" + rest))) == "]" + rest;
    } else {
      Reassociate("[\n", PrintItems(items, level + 1), Pad(level), "]", rest);
      Reassociate("[", "\n", PrintItems(items, level + 1), Pad(level), "]" + rest);
    }
  }

  lemma DictText(entries: seq<Entry>, level: nat, rest: string)
    ensures ToPythonLiteral(Dict(entries), level) + rest
         == "{" + (LineBreak(entries == [])
             + (PrintEntries(entries, level + 1) + (ClosingPad(entries == [], level) + ("}" + rest))))
  {
    if entries == [] {
      assert "" + ("" + ("" + ("}" + rest))) == "}" + rest;
    } else {
      Reassociate("{\n", PrintEntries(entries, level + 1), Pad(level), "}", rest);
      Reassociate("{", "\n", PrintEntries(entries, level + 1), Pad(level), "}" + rest);
    }
  }

  lemma {:induction false} LexPrintedList(items: seq<Value>, level: nat, rest: string)
    requires forall i :: 0 <= i < |items| ==> WellFormed(items[i])
    ensures Lex(ToPythonLiteral(List(items), level) + rest) == Then(Tokens(List(items)), Lex(rest))
    decreases items, 1
  {
    var pad, body := ClosingPad(items == [], level), PrintItems(items, level + 1);
    LexPrintedItems(items, level + 1, pad + ("]" + rest));
    LexDisplay('[', body, ItemTokens(items), LineBreak(items == []), pad, ']', rest);
    ListText(items, level, rest);
  }

  lemma {:induction false} LexPrintedDict(entries: seq<Entry>, level: nat, rest: string)
    requires forall i :: 0 <= i < |entries| ==> WellFormed(entries[i].value)
    ensures Lex(ToPythonLiteral(Dict(entries), level) + rest) == Then(Tokens(Dict(entries)), Lex(rest))
    decreases entries, 1
  {
    var pad, body := ClosingPad(entries == [], level), PrintEntries(entries, level + 1);
    LexPrintedEntries(entries, level + 1, pad + ("}" + rest));
    LexDisplay('{', body, EntryTokens(entries), LineBreak(entries == []), pad, '}', rest);
    DictText(entries, level, rest);
  }

  lemma {:induction false} LexPrintedItems(items: seq<Value>, level: nat, rest: string)
    requires forall i :: 0 <= i < |items| ==> WellFormed(items[i])
    ensures Lex(PrintItems(items, level) + rest) == Then(ItemTokens(items), Lex(rest))
    decreases items, 0
  {
    if items == [] {
      assert PrintItems(items, level) + rest == rest;
      ThenNothing(Lex(rest));
    } else {
      var tail := PrintItems(items[1..], level) + rest;
      var piece, tokens := ToPythonLiteral(items[0], level), Tokens(items[0]);
      LexPrinted(items[0], level, "," + ("\n" + tail));
      LexLine(Pad(level), piece, tokens, tail);
      LexPrintedItems(items[1..], level, rest);
      ThenThen(tokens + [Mark(',')], ItemTokens(items[1..]), Lex(rest));
      ItemLineText(items, level, rest);
    }
  }

  lemma ItemLineText(items: seq<Value>, level: nat, rest: string)
    requires items != []
    ensures PrintItems(items, level) + rest
         == Pad(level) + (ToPythonLiteral(items[0], level) + ("," + ("\n" + (PrintItems(items[1..], level) + rest))))
  {
    Reassociate(Pad(level), ToPythonLiteral(items[0], level), ",\n", PrintItems(items[1..], level), rest);
    assert ",\n" + (PrintItems(items[1..], level) + rest) == "," + ("\n" + (PrintItems(items[1..], level) + rest));
  }

  /** `"key": value`. */
  function PrintEntry(e: Entry, level: nat): string {
    Dumps(e.key) + (":" + (" " + ToPythonLiteral(e.value, level)))
  }

  lemma EntryTail(key: string, literal: string, rest: string)
    ensures key + (":" + (" " + literal)) + rest == key + (":" + (" " + (literal + rest)))
  {
  }

  lemma LexPrintedEntry(e: Entry, level: nat, rest: string)
    requires WellFormed(e.value) && Ends(rest)
    requires Lex(ToPythonLiteral(e.value, level) + rest) == Then(Tokens(e.value), Lex(rest))
    ensures Lex(PrintEntry(e, level) + rest)
         == Then([Literal(TextAsRead(e.key)), Mark(':')] + Tokens(e.value), Lex(rest))
  {
    var literal := ToPythonLiteral(e.value, level);
    var value := literal + rest;
    LexBlank(" ", value);
    LexMark(':', " " + value);
    LexString(e.key, ":" + (" " + value));
    ThenThen([Mark(':')], Tokens(e.value), Lex(rest));
    ThenThen([Literal(TextAsRead(e.key))], [Mark(':')] + Tokens(e.value), Lex(rest));
    EntryTail(Dumps(e.key), literal, rest);
    assert [Literal(TextAsRead(e.key))] + ([Mark(':')] + Tokens(e.value))
        == [Literal(TextAsRead(e.key)), Mark(':')] + Tokens(e.value);
  }

  lemma EntryLineText(entries: seq<Entry>, level: nat, rest: string)
    requires entries != []
    ensures PrintEntries(entries, level) + rest
         == Pad(level) + (PrintEntry(entries[0], level) + ("," + ("\n" + (PrintEntries(entries[1..], level) + rest))))
  {
    var e := entries[0];
    Reassociate(Pad(level), Dumps(e.key), ": ", ToPythonLiteral(e.value, level), ",\n");
    EntryText(e, level);
    Reassociate(Pad(level), PrintEntry(e, level), ",\n", PrintEntries(entries[1..], level), rest);
    assert ",\n" + (PrintEntries(entries[1..], level) + rest)
            == "," + ("\n" + (PrintEntries(entries[1..], level) + rest));
    LineText(Pad(level), Dumps(e.key), ToPythonLiteral(e.value, level));
  }

  lemma EntryText(e: Entry, level: nat)
    ensures PrintEntry(e, level) == Dumps(e.key) + ": " + ToPythonLiteral(e.value, level)
  {
    assert ": " + ToPythonLiteral(e.value, level) == ":" + (" " + ToPythonLiteral(e.value, level));
  }

  lemma LineText(pad: string, key: string, value: string)
    ensures pad + key + ": " + value == pad + (key + ": " + value)
  {
  }

  lemma {:induction false} LexPrintedEntries(entries: seq<Entry>, level: nat, rest: string)
    requires forall i :: 0 <= i < |entries| ==> WellFormed(entries[i].value)
    ensures Lex(PrintEntries(entries, level) + rest) == Then(EntryTokens(entries), Lex(rest))
    decreases entries, 0
  {
    if entries == [] {
      assert PrintEntries(entries, level) + rest == rest;
      ThenNothing(Lex(rest));
    } else {
      var e, tail := entries[0], PrintEntries(entries[1..], level) + rest;
      var tokens := [Literal(TextAsRead(e.key)), Mark(':')] + Tokens(e.value);
      LexPrinted(e.value, level, "," + ("\n" + tail));
      LexPrintedEntry(e, level, "," + ("\n" + tail));
      LexLine(Pad(level), PrintEntry(e, level), tokens, tail);
      LexPrintedEntries(entries[1..], level, rest);
      ThenThen(tokens + [Mark(',')], EntryTokens(entries[1..]), Lex(rest));
      EntryLineText(entries, level, rest);
    }
  }

  // ---------------------------------------------------------------- parsing the tokens

  /** Parsing the tokens of a value gives AsRead of it and stops right behind it. */
  lemma {:induction false} ParseTokens(v: Value, rest: seq<Token>)
    ensures ParseValue(Tokens(v) + rest) == Some((AsRead(v), rest))
    decreases v, 1
  {
    match v
    case List(items) =>
      ParseItemTokens(items, rest);
      ParseDisplay(ItemTokens(items), ']', rest);
    case Dict(entries) =>
      ParseEntryTokens(entries, rest);
      ParseDisplay(EntryTokens(entries), '}', rest);
    case _ => assert (Tokens(v) + rest)[1..] == rest;
  }

  lemma ParseDisplay(body: seq<Token>, close: char, rest: seq<Token>)
    ensures forall open: Token :: ([open] + body + [Mark(close)] + rest)[1..] == body + [Mark(close)] + rest
  {
  }

  lemma {:induction false} ParseItemTokens(items: seq<Value>, rest: seq<Token>)
    ensures ParseItems(ItemTokens(items) + [Mark(']')] + rest) == Some((ItemsAsRead(items), rest))
    decreases items, 0
  {
    var ts := ItemTokens(items) + [Mark(']')] + rest;
    if items == [] {
      assert ts[1..] == rest;
    } else {
      var tail := ItemTokens(items[1..]) + [Mark(']')] + rest;
      ParseItemTokens(items[1..], rest);
      ParseTokens(items[0], [Mark(',')] + tail);
      assert ts == Tokens(items[0]) + ([Mark(',')] + tail);
      assert ([Mark(',')] + tail)[1..] == tail;
    }
  }

  lemma {:induction false} ParseEntryTokens(entries: seq<Entry>, rest: seq<Token>)
    ensures ParseEntries(EntryTokens(entries) + [Mark('}')] + rest) == Some((EntriesAsRead(entries), rest))
    decreases entries, 0
  {
    var ts := EntryTokens(entries) + [Mark('}')] + rest;
    if entries == [] {
      assert ts[1..] == rest;
    } else {
      var tail := EntryTokens(entries[1..]) + [Mark('}')] + rest;
      ParseEntryTokens(entries[1..], rest);
      ParseTokens(entries[0].value, [Mark(',')] + tail);
      ParseEntryLine(TextAsRead(entries[0].key), Tokens(entries[0].value), AsRead(entries[0].value), tail,
                     EntriesAsRead(entries[1..]), rest);
      EntryTokensText(entries, rest);
    }
  }

  lemma EntryTokensText(entries: seq<Entry>, rest: seq<Token>)
    requires entries != []
    ensures EntryTokens(entries) + [Mark('}')] + rest
         == [Literal(TextAsRead(entries[0].key)), Mark(':')] + (Tokens(entries[0].value) + ([Mark(',')] +
            (EntryTokens(entries[1..]) + [Mark('}')] + rest)))
  {
    TokenText([Literal(TextAsRead(entries[0].key)), Mark(':')], Tokens(entries[0].value), [Mark(',')],
              EntryTokens(entries[1..]), [Mark('}')], rest);
  }

  lemma TokenText(a: seq<Token>, b: seq<Token>, c: seq<Token>, d: seq<Token>, e: seq<Token>, f: seq<Token>)
    ensures a + b + c + d + e + f == a + (b + (c + (d + e + f)))
  {
  }

  lemma ParseEntryLine(key: Text, tokens: seq<Token>, v: Value, tail: seq<Token>, entries: seq<Entry>, rest: seq<Token>)
    requires ParseValue(tokens + ([Mark(',')] + tail)) == Some((v, [Mark(',')] + tail))
    requires ParseEntries(tail) == Some((entries, rest))
    ensures ParseEntries([Literal(key), Mark(':')] + (tokens + ([Mark(',')] + tail)))
         == Some(([Entry(key, v)] + entries, rest))
  {
    var ts := [Literal(key), Mark(':')] + (tokens + ([Mark(',')] + tail));
    assert ts[2..] == tokens + ([Mark(',')] + tail);
    assert ([Mark(',')] + tail)[1..] == tail;
  }

  // ---------------------------------------------------------------- exactly the BMP

  lemma {:induction false} TextUnchanged(t: Text)
    ensures BmpText(TextAsRead(t))
    ensures BmpText(t) ==> TextAsRead(t) == t
  {
    if t != [] { TextUnchanged(t[1..]); }
  }

  lemma {:induction false} InsertFresh(entries: seq<Entry>, e: Entry)
    requires forall i :: 0 <= i < |entries| ==> entries[i].key != e.key
    ensures Insert(entries, e) == entries + [e]
  {
    if entries != [] { InsertFresh(entries[1..], e); }
  }

  lemma {:induction false} DictOfUnique(entries: seq<Entry>)
    requires UniqueKeys(entries)
    ensures DictOf(entries) == entries
  {
    if entries != [] {
      DictOfUnique(entries[..|entries| - 1]);
      InsertFresh(entries[..|entries| - 1], entries[|entries| - 1]);
    }
  }

  predicate BmpEntry(e: Entry) { BmpText(e.key) && Bmp(e.value) }

  lemma {:induction false} InsertBmp(entries: seq<Entry>, e: Entry)
    requires (forall i :: 0 <= i < |entries| ==> BmpEntry(entries[i])) && BmpEntry(e)
    ensures forall i :: 0 <= i < |Insert(entries, e)| ==> BmpEntry(Insert(entries, e)[i])
  {
    if entries != [] && entries[0].key != e.key { InsertBmp(entries[1..], e); }
  }

  lemma {:induction false} DictOfBmp(entries: seq<Entry>)
    requires forall i :: 0 <= i < |entries| ==> BmpEntry(entries[i])
    ensures forall i :: 0 <= i < |DictOf(entries)| ==> BmpEntry(DictOf(entries)[i])
  {
    if entries != [] {
      DictOfBmp(entries[..|entries| - 1]);
      InsertBmp(DictOf(entries[..|entries| - 1]), entries[|entries| - 1]);
    }
  }

  /** Nothing outside the Basic Multilingual Plane is ever read back. */
  lemma {:induction false} AsReadBmp(v: Value)
    ensures Bmp(AsRead(v))
    decreases v, 1
  {
    match v
    case Str(s) => TextUnchanged(s);
    case List(items) => ItemsBmp(items);
    case Dict(entries) =>
      EntriesBmp(entries);
      DictOfBmp(EntriesAsRead(entries));
    case _ =>
  }

  lemma {:induction false} ItemsBmp(items: seq<Value>)
    ensures forall i :: 0 <= i < |items| ==> Bmp(ItemsAsRead(items)[i])
    decreases items, 0
  {
    if items != [] {
      AsReadBmp(items[0]);
      ItemsBmp(items[1..]);
    }
  }

  lemma {:induction false} EntriesBmp(entries: seq<Entry>)
    ensures forall i :: 0 <= i < |entries| ==> BmpEntry(EntriesAsRead(entries)[i])
    decreases entries, 0
  {
    if entries != [] {
      TextUnchanged(entries[0].key);
      AsReadBmp(entries[0].value);
      EntriesBmp(entries[1..]);
    }
  }

  lemma {:induction false} AsReadIdentity(v: Value)
    requires WellFormed(v) && Bmp(v)
    ensures AsRead(v) == v
    decreases v, 1
  {
    match v
    case Str(s) => TextUnchanged(s);
    case List(items) => ItemsIdentity(items);
    case Dict(entries) =>
      EntriesIdentity(entries);
      DictOfUnique(entries);
    case _ =>
  }

  lemma {:induction false} ItemsIdentity(items: seq<Value>)
    requires forall i :: 0 <= i < |items| ==> WellFormed(items[i]) && Bmp(items[i])
    ensures ItemsAsRead(items) == items
    decreases items, 0
  {
    if items != [] {
      AsReadIdentity(items[0]);
      ItemsIdentity(items[1..]);
    }
  }

  lemma {:induction false} EntriesIdentity(entries: seq<Entry>)
    requires forall i :: 0 <= i < |entries| ==> WellFormed(entries[i].value) && BmpEntry(entries[i])
    ensures EntriesAsRead(entries) == entries
    decreases entries, 0
  {
    if entries != [] {
      TextUnchanged(entries[0].key);
      AsReadIdentity(entries[0].value);
      EntriesIdentity(entries[1..]);
    }
  }

  /** Printer round trip: at every indent level the literal is read back as AsRead of the
      value, which is the value itself exactly when all its strings are in the BMP. */
  lemma RoundTrip(v: Value, level: nat)
    requires WellFormed(v)
    ensures LiteralEval(ToPythonLiteral(v, level)) == Some(AsRead(v))
    ensures LiteralEval(ToPythonLiteral(v, level)) == Some(v) <==> Bmp(v)
  {
    LexPrinted(v, level, "");
    assert ToPythonLiteral(v, level) + "" == ToPythonLiteral(v, level);
    ParseTokens(v, []);
    assert Tokens(v) + [] == Tokens(v);
    AsReadBmp(v);
    if Bmp(v) { AsReadIdentity(v); }
  }

  lemma {:induction false} SplitAtEquals(varName: string, rest: string)
    requires '=' !in varName
    ensures AfterEquals(varName + "=" + rest) == rest
  {
    var s := varName + "=" + rest;
    if varName == "" {
      assert s == "=" + rest && s[1..] == rest;
    } else {
      assert varName[0] in varName;
      SplitAtEquals(varName[1..], rest);
      assert s[1..] == varName[1..] + "=" + rest;
    }
  }

  /** The script's sanity check passes exactly on data whose strings are in the BMP. */
  lemma SanityCheckPasses(varName: string, v: Value)
    requires WellFormed(v) && '=' !in varName
    ensures SanityCheck(varName, v) <==> Bmp(v)
  {
    var literal := ToPythonLiteral(v, 0) + "\n";
    assert Block(varName, v) == (varName + " ") + "=" + (" " + literal);
    SplitAtEquals(varName + " ", " " + literal);
    LexBlank(" ", literal);
    LexPrinted(v, 0, "\n");
    LexPrinted(v, 0, "");
    LexBlank("\n", "");
    assert ToPythonLiteral(v, 0) + "" == ToPythonLiteral(v, 0) && "\n" + "" == "\n";
    RoundTrip(v, 0);
  }

  /** A single code point beyond the BMP, an emoji say, comes back as two surrogates, so the
      check rejects the data. */
  lemma EmojiFails(varName: string, c: CodePoint)
    requires c >= 0x10000 && '=' !in varName
    ensures !SanityCheck(varName, Str([c]))
    ensures AsRead(Str([c])) == Str([HighSurrogate(c), LowSurrogate(c)])
  {
    SanityCheckPasses(varName, Str([c]));
    assert TextAsRead([c]) == Units(c) + TextAsRead([c][1..]);
  }
}
