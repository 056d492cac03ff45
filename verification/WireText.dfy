// The compact text of JSON, part by part, against RFC 8259 (values, its section 7 for
// strings) and RFC 3629 (UTF-8); and the texts of the messages.
module WireText {
  import opened Wrappers
  import opened Json
  import opened Message
  import opened JsonText
  import opened WireForms
  import JsonUnique

  function AsByte(c: char): Byte {
    if c as int < 0x80 then c as int else '?' as int
  }

  /** A text of ASCII characters as bytes. */
  function Ascii(text: string): (bytes: seq<Byte>)
    ensures |bytes| == |text| && forall i | 0 <= i < |text| :: bytes[i] == AsByte(text[i])
  {
    seq(|text|, i requires 0 <= i < |text| => AsByte(text[i]))
  }

  /** Texts with commas between them. */
  function Joined(texts: seq<seq<Byte>>): seq<Byte> {
    if texts == [] then [] else if |texts| == 1 then texts[0] else texts[0] + Ascii(",") + Joined(texts[1..])
  }

  function Texts(items: seq<Json>): (texts: seq<seq<Byte>>)
    ensures |texts| == |items|
  {
    if items == [] then [] else [Print(items[0])] + Texts(items[1..])
  }

  function FieldText(f: Field): seq<Byte> {
    Print(Str(f.key)) + Ascii(":") + Print(f.value)
  }

  function FieldTexts(fields: seq<Field>): (texts: seq<seq<Byte>>)
    ensures |texts| == |fields|
  {
    if fields == [] then [] else [FieldText(fields[0])] + FieldTexts(fields[1..])
  }

  // ---- Writing in front is appending --------------------------------------------------

  lemma {:induction false} EscapedAppends(s: string, rest: seq<Byte>)
    ensures EscapedTo(s, rest) == EscapedTo(s, []) + rest
  {
    if s != [] {
      EscapedAppends(s[1..], rest);
      assert EscapedChar(s[0]) + (EscapedTo(s[1..], []) + rest) == EscapedChar(s[0]) + EscapedTo(s[1..], []) + rest;
    } else {
      assert [] + rest == rest;
    }
  }

  lemma QuotedAppends(s: string, rest: seq<Byte>)
    ensures QuotedTo(s, rest) == QuotedTo(s, []) + rest
  {
    EscapedAppends(s, [0x22] + rest);
    EscapedAppends(s, [0x22] + []);
  }

  /** What a value's text is, without what follows it. */
  lemma {:induction false} PrintAppends(j: Json, rest: seq<Byte>)
    ensures PrintTo(j, rest) == Print(j) + rest
    decreases j, 1
  {
    match j
    case Str(s) => QuotedAppends(s, rest);
    case Arr(items) => ItemsAppend(items, [0x5D] + rest); ItemsAppend(items, [0x5D] + []);
    case Obj(fields) => FieldsAppend(fields, [0x7D] + rest); FieldsAppend(fields, [0x7D] + []);
    case _ =>
  }

  lemma {:induction false} ItemsAppend(items: seq<Json>, rest: seq<Byte>)
    ensures ItemsTo(items, rest) == ItemsTo(items, []) + rest
    decreases items, 1
  {
    if items != [] {
      MoreItemsAppend(items[1..], rest);
      PrintAppends(items[0], MoreItemsTo(items[1..], rest));
      PrintAppends(items[0], MoreItemsTo(items[1..], []));
    }
  }

  lemma {:induction false} MoreItemsAppend(items: seq<Json>, rest: seq<Byte>)
    ensures MoreItemsTo(items, rest) == MoreItemsTo(items, []) + rest
    decreases items, 0
  {
    if items != [] {
      MoreItemsAppend(items[1..], rest);
      PrintAppends(items[0], MoreItemsTo(items[1..], rest));
      PrintAppends(items[0], MoreItemsTo(items[1..], []));
    }
  }

  lemma {:induction false} FieldsAppend(fields: seq<Field>, rest: seq<Byte>)
    ensures FieldsTo(fields, rest) == FieldsTo(fields, []) + rest
    decreases fields, 1
  {
    if fields != [] {
      MoreFieldsAppend(fields[1..], rest);
      FieldAppends(fields[0], MoreFieldsTo(fields[1..], rest));
      FieldAppends(fields[0], MoreFieldsTo(fields[1..], []));
    }
  }

  lemma {:induction false} MoreFieldsAppend(fields: seq<Field>, rest: seq<Byte>)
    ensures MoreFieldsTo(fields, rest) == MoreFieldsTo(fields, []) + rest
    decreases fields, 0
  {
    if fields != [] {
      MoreFieldsAppend(fields[1..], rest);
      FieldAppends(fields[0], MoreFieldsTo(fields[1..], rest));
      FieldAppends(fields[0], MoreFieldsTo(fields[1..], []));
    }
  }

  lemma {:induction false} FieldAppends(f: Field, rest: seq<Byte>)
    ensures FieldTo(f, rest) == FieldTo(f, []) + rest
    ensures FieldTo(f, []) == FieldText(f)
    decreases f, 2
  {
    PrintAppends(f.value, rest);
    PrintAppends(f.value, []);
    QuotedAppends(f.key, [0x3A] + PrintTo(f.value, rest));
    QuotedAppends(f.key, [0x3A] + PrintTo(f.value, []));
    assert Print(f.value) + [] == Print(f.value);
  }

  // ---- Values --------------------------------------------------------------------------

  lemma JoinedCons(text: seq<Byte>, more: seq<seq<Byte>>)
    ensures Joined([text] + more) == if more == [] then text else text + (Ascii(",") + Joined(more))
  {
    assert ([text] + more)[1..] == more;
    if more != [] {
      assert text + Ascii(",") + Joined(more) == text + (Ascii(",") + Joined(more));
    }
  }

  lemma {:induction false} ItemsJoined(items: seq<Json>)
    requires items != []
    ensures ItemsTo(items, []) == Joined(Texts(items))
  {
    JoinedCons(Print(items[0]), Texts(items[1..]));
    if |items| > 1 {
      PrintAppends(items[0], MoreItemsTo(items[1..], []));
      ItemsJoined(items[1..]);
      assert MoreItemsTo(items[1..], []) == Ascii(",") + ItemsTo(items[1..], []);
    }
  }

  lemma MoreIsComma(fields: seq<Field>)
    requires fields != []
    ensures MoreFieldsTo(fields, []) == Ascii(",") + FieldsTo(fields, [])
  {
  }

  lemma {:induction false} FieldsJoined(fields: seq<Field>)
    requires fields != []
    ensures FieldsTo(fields, []) == Joined(FieldTexts(fields))
  {
    JoinedCons(FieldText(fields[0]), FieldTexts(fields[1..]));
    FieldAppends(fields[0], MoreFieldsTo(fields[1..], []));
    if |fields| > 1 {
      FieldsJoined(fields[1..]);
      MoreIsComma(fields[1..]);
    } else {
      FieldAppends(fields[0], []);
    }
  }

  lemma Between(open: seq<Byte>, inner: seq<Byte>, close: seq<Byte>)
    ensures open + (inner + (close + [])) == open + inner + close
  {
  }

  lemma LiteralTexts()
    ensures Print(Null) == Ascii("null") && Print(Bool(true)) == Ascii("true") && Print(Bool(false)) == Ascii("false")
  {
  }

  /** Arrays and objects are the texts of their parts between brackets and braces, with
      commas between them and no white space. */
  lemma ArrayText(items: seq<Json>)
    ensures Print(Arr(items)) == Ascii("[") + Joined(Texts(items)) + Ascii("]")
  {
    ItemsAppend(items, [0x5D] + []);
    Between([0x5B], ItemsTo(items, []), [0x5D]);
    assert Ascii("[") == [0x5B] && Ascii("]") == [0x5D];
    if items != [] {
      ItemsJoined(items);
    }
  }

  lemma ObjectText(fields: seq<Field>)
    ensures Print(Obj(fields)) == Ascii("{") + Joined(FieldTexts(fields)) + Ascii("}")
  {
    FieldsAppend(fields, [0x7D] + []);
    Between([0x7B], FieldsTo(fields, []), [0x7D]);
    assert Ascii("{") == [0x7B] && Ascii("}") == [0x7D];
    if fields != [] {
      FieldsJoined(fields);
    }
  }

  // ---- Numbers -------------------------------------------------------------------------

  /** What decimal digits denote. */
  function Decimal(digits: seq<Byte>): int {
    if digits == [] then 0 else 10 * Decimal(digits[..|digits| - 1]) + (digits[|digits| - 1] as int - '0' as int)
  }

  lemma {:induction false} DigitsDenote(n: nat)
    ensures Decimal(Digits(n)) == n && |Digits(n)| > 0
    ensures forall b | b in Digits(n) :: '0' as int <= b <= '9' as int
    ensures Digits(n)[0] == '0' as int ==> n == 0 && |Digits(n)| == 1
  {
    if n >= 10 {
      DigitsDenote(n / 10);
      assert Digits(n)[..|Digits(n)| - 1] == Digits(n / 10);
    } else {
      assert Digits(n)[..0] == [];
    }
  }

  /** A number is its decimal digits without leading zeros, after a minus sign if it is
      negative. */
  lemma NumberText(n: Number)
    ensures var digits := if n < 0 then Print(Num(n))[1..] else Print(Num(n));
            && Print(Num(n)) == (if n < 0 then Ascii("-") + digits else digits)
            && (forall b | b in digits :: '0' as int <= b <= '9' as int)
            && |digits| > 0 && (digits[0] == '0' as int ==> n == 0 && |digits| == 1)
            && Decimal(digits) == if n < 0 then -n else n
  {
    DigitsDenote(if n < 0 then -n else n);
    assert Numeral(n) + [] == Numeral(n);
    assert n < 0 ==> Numeral(n)[1..] == Digits(-n);
  }

  // ---- Strings -------------------------------------------------------------------------

  /** The two-character escapes, \u00XX with lower-case digits for the other control
      characters, and every other character as it is. */
  lemma EscapeTable(c: char)
    ensures EscapedChar('"') == Ascii("\\\"") && EscapedChar('\\') == Ascii("\\\\")
    ensures EscapedChar('\n') == Ascii("\\n") && EscapedChar('\r') == Ascii("\\r")
    ensures EscapedChar('\t') == Ascii("\\t") && EscapedChar(8 as char) == Ascii("\\b")
    ensures EscapedChar(12 as char) == Ascii("\\f")
    ensures c as int >= 0x20 && c != '"' && c != '\\' ==> EscapedChar(c) == Utf8(c)
  {
  }

  lemma OtherControls(c: char)
    requires c as int < 0x20 && c as int !in {8, 9, 10, 12, 13}
    ensures var digits := Ascii("0123456789abcdef");
            EscapedChar(c) == Ascii("\\u00") + [digits[c as int / 16], digits[c as int % 16]]
  {
    HexDigits(c as int / 16);
    HexDigits(c as int % 16);
    assert Ascii("\\u00") == [0x5C, 0x75, 0x30, 0x30];
  }

  lemma HexDigits(n: nat)
    requires n < 16
    ensures HexDigit(n) == Ascii("0123456789abcdef")[n]
  {
  }

  /** UTF-8: one byte for ASCII, else a lead byte and continuation bytes that carry the
      code point, as few as can. */
  lemma Utf8Form(c: char)
    ensures var u := Utf8(c);
            var n := c as int;
            && |u| == (if n < 0x80 then 1 else if n < 0x800 then 2 else if n < 0x1_0000 then 3 else 4)
            && (|u| == 1 ==> u[0] == n)
            && (|u| == 2 ==> 0xC0 <= u[0] < 0xE0)
            && (|u| == 3 ==> 0xE0 <= u[0] < 0xF0)
            && (|u| == 4 ==> 0xF0 <= u[0] < 0xF8)
            && (forall i | 1 <= i < |u| :: 0x80 <= u[i] < 0xC0)
            && JsonUnique.Utf8Value(u) == n
  {
    JsonUnique.Utf8Code(c);
  }

  /** A string is its characters, escaped, between quotes. */
  lemma StringText(s: string)
    ensures Print(Str(s)) == Ascii("\"") + Escapes(s) + Ascii("\"")
  {
    EscapedAppends(s, [0x22] + []);
    EscapesAre(s);
    Between([0x22], Escapes(s), [0x22]);
    assert Ascii("\"") == [0x22];
  }

  function Escapes(s: string): seq<Byte> {
    if s == "" then [] else EscapedChar(s[0]) + Escapes(s[1..])
  }

  lemma {:induction false} EscapesAre(s: string)
    ensures EscapedTo(s, []) == Escapes(s)
  {
    if s != "" {
      EscapesAre(s[1..]);
    }
  }

  predicate Plain(s: string) {
    forall c | c in s :: 0x20 <= c as int < 0x7F && c != '"' && c != '\\'
  }

  lemma {:induction false} PlainEscapes(s: string)
    requires Plain(s)
    ensures Escapes(s) == Ascii(s)
  {
    if s != "" {
      assert s[0] in s && forall c | c in s[1..] :: c in s;
      PlainEscapes(s[1..]);
      assert EscapedChar(s[0]) == [AsByte(s[0])];
      assert Ascii(s) == [AsByte(s[0])] + Ascii(s[1..]);
    }
  }

  lemma PlainText(s: string)
    requires Plain(s)
    ensures Print(Str(s)) == Ascii("\"") + Ascii(s) + Ascii("\"")
  {
    StringText(s);
    PlainEscapes(s);
  }

  // ---- A message ----------------------------------------------------------------------

  lemma KeyText(key: string, value: Json)
    requires Plain(key)
    ensures FieldText(Field(key, value)) == Ascii("\"" + key + "\":") + Print(value)
  {
    PlainText(key);
    assert Ascii("\"" + key + "\":") == Ascii("\"") + Ascii(key) + Ascii("\"") + Ascii(":");
  }

  lemma VersionText()
    ensures FieldText(Field("jsonrpc", Str("2.0"))) == Ascii("\"jsonrpc\":\"2.0\"")
  {
    KeyText("jsonrpc", Str("2.0"));
    PlainText("2.0");
    TwoPoint0();
  }

  lemma TwoPoint0()
    ensures Ascii("\"" + "jsonrpc" + "\":") + (Ascii("\"") + Ascii("2.0") + Ascii("\"")) == Ascii("\"jsonrpc\":\"2.0\"")
  {
  }

  lemma MethodText(value: Json)
    ensures FieldText(Field("method", value)) == Ascii("\"method\":") + Print(value)
  {
    KeyText("method", value);
    assert "\"" + "method" + "\":" == "\"method\":";
  }

  lemma ParamsText(value: Json)
    ensures FieldText(Field("params", value)) == Ascii("\"params\":") + Print(value)
  {
    KeyText("params", value);
    assert "\"" + "params" + "\":" == "\"params\":";
  }

  lemma IdText(value: Json)
    ensures FieldText(Field("id", value)) == Ascii("\"id\":") + Print(value)
  {
    KeyText("id", value);
    assert "\"" + "id" + "\":" == "\"id\":";
  }

  /** The text of a request on the wire. */
  lemma RequestText(name: string, p: Json, id: Json)
    ensures Print(ToJson(RequestMsg(Request(name, Some(p), id))).value)
         == Ascii("{")
            + Joined([Ascii("\"jsonrpc\":\"2.0\""), Ascii("\"method\":") + Print(Str(name)),
                      Ascii("\"params\":") + Print(p), Ascii("\"id\":") + Print(id)])
            + Ascii("}")
  {
    var fields := [Field("jsonrpc", Str("2.0")), Field("method", Str(name)), Field("params", p), Field("id", id)];
    WrittenRequest(name, p, id);
    ObjectText(fields);
    VersionText();
    MethodText(Str(name));
    ParamsText(p);
    IdText(id);
    FourTexts(fields);
  }

  lemma FourTexts(fields: seq<Field>)
    requires |fields| == 4
    ensures FieldTexts(fields)
         == [FieldText(fields[0]), FieldText(fields[1]), FieldText(fields[2]), FieldText(fields[3])]
  {
    assert fields[1..][1..] == fields[2..] && fields[2..][1..] == fields[3..] && fields[3..][1..] == [];
    assert FieldTexts(fields[3..]) == [FieldText(fields[3])];
    assert FieldTexts(fields[2..]) == [FieldText(fields[2])] + FieldTexts(fields[3..]);
    assert FieldTexts(fields[1..]) == [FieldText(fields[1])] + FieldTexts(fields[2..]);
  }
}
