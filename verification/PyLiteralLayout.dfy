/**
  How the printed literal looks: its lines and their indentation, and the form of each escape.  The
  round trip says that the text reads back; this file says which of the texts that do is printed.
*/
module PyLiteralLayout {
  import opened PyLiteral

  // ---------------------------------------------------------------- lines

  /** A line of the printed text: its depth and what stands behind the indentation. */
  datatype Line = Line(depth: nat, text: string)

  /** The lines of a value whose first line begins with `before` and whose last ends in `after`: a
      display that is not empty puts its opener, each item with a comma, and its closer on lines of
      their own, the items one level deeper. */
  function Lines(v: Value, depth: nat, before: string, after: string): seq<Line>
    decreases v, 1
  {
    match v
    case Dict(entries) =>
      if entries == [] then [Line(depth, before + "{}" + after)]
      else [Line(depth, before + "{")] + EntryLines(entries, depth + 1) + [Line(depth, "}" + after)]
    case List(items) =>
      if items == [] then [Line(depth, before + "[]" + after)]
      else [Line(depth, before + "[")] + ItemLines(items, depth + 1) + [Line(depth, "]" + after)]
    case Bool(b) => [Line(depth, before + (if b then "True" else "False") + after)]
    case Null => [Line(depth, before + "None" + after)]
    case Str(s) => [Line(depth, before + Dumps(s) + after)]
    case Int(n) => [Line(depth, before + IntRepr(n) + after)]
    case Float(repr) => [Line(depth, before + repr + after)]
  }

  function ItemLines(items: seq<Value>, depth: nat): seq<Line>
    decreases items, 0
  {
    if items == [] then [] else Lines(items[0], depth, "", ",") + ItemLines(items[1..], depth)
  }

  function EntryLines(entries: seq<Entry>, depth: nat): seq<Line>
    decreases entries, 0
  {
    if entries == [] then []
    else Lines(entries[0].value, depth, Dumps(entries[0].key) + ": ", ",") + EntryLines(entries[1..], depth)
  }

  function Spaces(n: nat): string { seq(n, _ => ' ') }

  function Render(lines: seq<Line>): string {
    if lines == [] then "" else Spaces(2 * lines[0].depth) + lines[0].text + "\n" + Render(lines[1..])
  }

  lemma {:induction false} RenderJoins(a: seq<Line>, b: seq<Line>)
    ensures Render(a + b) == Render(a) + Render(b)
    decreases |a|
  {
    if a == [] {
      assert a + b == b;
    } else {
      RenderJoins(a[1..], b);
      assert (a + b)[1..] == a[1..] + b;
      JoinAll(Spaces(2 * a[0].depth), a[0].text, "\n", Render(a[1..]), Render(b));
    }
  }

  lemma JoinAll(a: string, b: string, c: string, d: string, e: string)
    ensures a + b + c + (d + e) == a + b + c + d + e
  {
  }

  lemma OneLine(line: Line)
    ensures Render([line]) == Spaces(2 * line.depth) + line.text + "\n"
  {
    assert [line][1..] == [];
  }

  lemma {:induction false} PadIsSpaces(level: nat)
    ensures Pad(level) == Spaces(2 * level)
    decreases level
  {
    if level > 0 {
      PadIsSpaces(level - 1);
      assert Spaces(2 * level) == "  " + Spaces(2 * level - 2);
    }
  }

  lemma Associates(pad: string, before: string, literal: string, after: string)
    ensures pad + (before + literal + after) + "\n" == pad + before + literal + after + "\n"
  {
  }

  /** The lines of a display with its items between opener and closer. */
  lemma Display(pad: string, depth: nat, before: string, open: string, items: seq<Line>, close: string, after: string)
    requires pad == Spaces(2 * depth)
    ensures Render([Line(depth, before + open)] + items + [Line(depth, close + after)])
         == pad + before + (open + "\n" + Render(items) + pad + close) + after + "\n"
  {
    var first, last := Line(depth, before + open), Line(depth, close + after);
    RenderJoins([first] + items, [last]);
    RenderJoins([first], items);
    OneLine(first);
    OneLine(last);
    DisplayText(pad, before, open, Render(items), close, after);
  }

  lemma DisplayText(pad: string, before: string, open: string, items: string, close: string, after: string)
    ensures pad + (before + open) + "\n" + items + (pad + (close + after) + "\n")
         == pad + before + (open + "\n" + items + pad + close) + after + "\n"
  {
    assert pad + (before + open) + "\n" + items + (pad + (close + after) + "\n")
        == pad + before + open + "\n" + items + pad + close + after + "\n";
  }

  /** The printed literal is its lines, each indented by two spaces for every level. */
  lemma {:induction false} PrintedInLines(v: Value, level: nat, before: string, after: string)
    ensures Pad(level) + before + ToPythonLiteral(v, level) + after + "\n" == Render(Lines(v, level, before, after))
    decreases v, 1
  {
    PadIsSpaces(level);
    if v.Dict? && v.entries != [] {
      EntriesInLines(v.entries, level + 1);
      DictInLines(v.entries, level, before, after);
    } else if v.List? && v.items != [] {
      ItemsInLines(v.items, level + 1);
      ListInLines(v.items, level, before, after);
    } else {
      var literal := ToPythonLiteral(v, level);
      assert Lines(v, level, before, after) == [Line(level, before + literal + after)];
      OneLine(Line(level, before + literal + after));
      Associates(Pad(level), before, literal, after);
    }
  }

  lemma DictInLines(entries: seq<Entry>, level: nat, before: string, after: string)
    requires entries != [] && Pad(level) == Spaces(2 * level)
    requires PrintEntries(entries, level + 1) == Render(EntryLines(entries, level + 1))
    ensures Pad(level) + before + ToPythonLiteral(Dict(entries), level) + after + "\n"
         == Render(Lines(Dict(entries), level, before, after))
  {
    Display(Pad(level), level, before, "{", EntryLines(entries, level + 1), "}", after);
    assert "{" + "\n" == "{\n";
  }

  lemma ListInLines(items: seq<Value>, level: nat, before: string, after: string)
    requires items != [] && Pad(level) == Spaces(2 * level)
    requires PrintItems(items, level + 1) == Render(ItemLines(items, level + 1))
    ensures Pad(level) + before + ToPythonLiteral(List(items), level) + after + "\n"
         == Render(Lines(List(items), level, before, after))
  {
    Display(Pad(level), level, before, "[", ItemLines(items, level + 1), "]", after);
    assert "[" + "\n" == "[\n";
  }

  lemma {:induction false} ItemsInLines(items: seq<Value>, level: nat)
    ensures PrintItems(items, level) == Render(ItemLines(items, level))
    decreases items, 0
  {
    if items != [] {
      ItemsInLines(items[1..], level);
      PrintedInLines(items[0], level, "", ",");
      RenderJoins(Lines(items[0], level, "", ","), ItemLines(items[1..], level));
      LineText(Pad(level), "", ToPythonLiteral(items[0], level), PrintItems(items[1..], level));
    }
  }

  lemma LineText(pad: string, before: string, literal: string, rest: string)
    ensures pad + before + literal + "," + "\n" + rest == pad + before + literal + ",\n" + rest
    ensures pad + "" == pad
  {
    assert "," + "\n" == ",\n";
  }

  lemma {:induction false} EntriesInLines(entries: seq<Entry>, level: nat)
    ensures PrintEntries(entries, level) == Render(EntryLines(entries, level))
    decreases entries, 0
  {
    if entries != [] {
      var e := entries[0];
      EntriesInLines(entries[1..], level);
      PrintedInLines(e.value, level, Dumps(e.key) + ": ", ",");
      RenderJoins(Lines(e.value, level, Dumps(e.key) + ": ", ","), EntryLines(entries[1..], level));
      KeyText(Pad(level), Dumps(e.key), ToPythonLiteral(e.value, level), PrintEntries(entries[1..], level));
    }
  }

  lemma KeyText(pad: string, key: string, literal: string, rest: string)
    ensures pad + (key + ": ") + literal + "," + "\n" + rest == pad + key + ": " + literal + ",\n" + rest
  {
    LineText(pad, key + ": ", literal, rest);
    assert pad + (key + ": ") == pad + key + ": ";
  }

  // ---------------------------------------------------------------- escapes

  predicate IsLowerHex(c: char) { '0' <= c <= '9' || 'a' <= c <= 'f' }

  /** The code points with a letter of their own. */
  predicate HasLetter(c: CodePoint) {
    c == 8 || c == 9 || c == 10 || c == 12 || c == 13 || c == 34 || c == 92
  }

  /** Printable ASCII stands for itself, the seven with a letter take two characters, any other code
      point of the Basic Multilingual Plane a \u with four small hexadecimal digits, and one beyond
      it two of these. */
  lemma EscapeForm(c: CodePoint)
    ensures HasLetter(c) <==> |EscapeOne(c)| == 2
    ensures 32 <= c <= 126 && !HasLetter(c) <==> |EscapeOne(c)| == 1
    ensures c >= 0x10000 <==> |EscapeOne(c)| == 12
    ensures c < 0x10000 && !HasLetter(c) && !(32 <= c <= 126) <==> |EscapeOne(c)| == 6
    ensures |EscapeOne(c)| >= 6 ==>
      && EscapeOne(c)[0] == '\\' && EscapeOne(c)[1] == 'u'
      && forall i :: 2 <= i < 6 ==> IsLowerHex(EscapeOne(c)[i])
    ensures |EscapeOne(c)| == 12 ==>
      && EscapeOne(c)[6] == '\\' && EscapeOne(c)[7] == 'u'
      && forall i :: 8 <= i < 12 ==> IsLowerHex(EscapeOne(c)[i])
  {
    if c < 0x10000 {
      UnicodeForm(c);
    } else {
      UnicodeForm(HighSurrogate(c));
      UnicodeForm(LowSurrogate(c));
    }
  }

  /** The two units of a code point beyond the Basic Multilingual Plane are its surrogates in UTF-16. */
  lemma SurrogatesMean(c: nat)
    requires 0x10000 <= c < 0x110000
    ensures 0x10000 + 1024 * (HighSurrogate(c) - 0xd800) + (LowSurrogate(c) - 0xdc00) == c
  {
    var d := c - 0x10000;
    assert d == 1024 * (d / 1024) + d % 1024;
  }

  lemma UnicodeForm(u: nat)
    requires u < 0x10000
    ensures |UnicodeEscape(u)| == 6 && UnicodeEscape(u)[0] == '\\' && UnicodeEscape(u)[1] == 'u'
    ensures forall i :: 2 <= i < 6 ==> IsLowerHex(UnicodeEscape(u)[i])
  {
    var s := UnicodeEscape(u);
    LowerHex(u / 4096);
    LowerHex(u / 256 % 16);
    LowerHex(u / 16 % 16);
    LowerHex(u % 16);
  }

  lemma LowerHex(d: nat)
    requires d < 16
    ensures IsLowerHex(HexDigit(d))
  {
  }

  lemma {:induction false} NoLeadingZero(n: nat)
    ensures Digits(n)[0] == '0' <==> n == 0
    decreases n
  {
    if n >= 10 { NoLeadingZero(n / 10); }
  }

  /** A sign stands in front of negative integers only, and no zero in front of another digit. */
  lemma IntForm(n: int)
    ensures |IntRepr(n)| > 0 && (IntRepr(n)[0] == '-' <==> n < 0)
    ensures IntRepr(n)[0] == '0' <==> n == 0
    ensures n < 0 ==> |IntRepr(n)| > 1 && IntRepr(n)[1] != '0'
  {
    NoLeadingZero(if n < 0 then -n else n);
  }

  /** The block is the name, " = ", the lines of the value from level zero, and a line end. */
  lemma BlockInLines(varName: string, v: Value)
    ensures Block(varName, v) == Render(Lines(v, 0, varName + " = ", ""))
  {
    PrintedInLines(v, 0, varName + " = ", "");
    BlockText(varName, ToPythonLiteral(v, 0));
  }

  lemma BlockText(varName: string, literal: string)
    ensures "" + (varName + " = ") + literal + "" + "\n" == varName + " = " + literal + "\n"
  {
  }
}
