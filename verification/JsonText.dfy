// The compact JSON text serde_json writes, as bytes: RFC 8259 with the escapes of
// its section 7, UTF-8 encoded.
module JsonText {
  import opened Wrappers
  import opened Json

  type Byte = b: int | 0 <= b < 256

  const NEWLINE: Byte := 10

  // ---- Writing ---------------------------------------------------------------

  function Utf8(c: char): seq<Byte> {
    var n := c as int;
    if n < 0x80 then [n]
    else if n < 0x800 then [0xC0 + n / 64, 0x80 + n % 64]
    else if n < 0x1_0000 then [0xE0 + n / 4096, 0x80 + n / 64 % 64, 0x80 + n % 64]
    else [0xF0 + n / 262144, 0x80 + n / 4096 % 64, 0x80 + n / 64 % 64, 0x80 + n % 64]
  }

  function HexDigit(n: nat): Byte
    requires n < 16
  {
    if n < 10 then 48 + n else 87 + n
  }

  // The writers below put the text of something in front of what follows it.

  /** A character inside a string: the two-character escapes, \u00XX for the other
      control characters, and everything else as it is. */
  function EscapedChar(c: char): seq<Byte> {
    var n := c as int;
    if n == 0x22 || n == 0x5C then [0x5C, n]
    else if n == 0x08 then [0x5C, 0x62]
    else if n == 0x09 then [0x5C, 0x74]
    else if n == 0x0A then [0x5C, 0x6E]
    else if n == 0x0C then [0x5C, 0x66]
    else if n == 0x0D then [0x5C, 0x72]
    else if n < 0x20 then [0x5C, 0x75, 0x30, 0x30, HexDigit(n / 16), HexDigit(n % 16)]
    else Utf8(c)
  }

  function Digits(n: nat): seq<Byte> {
    if n < 10 then [48 + n] else Digits(n / 10) + [48 + n % 10]
  }

  function Numeral(n: int): seq<Byte> {
    if n < 0 then [0x2D] + Digits(-n) else Digits(n)
  }

  function EscapedTo(s: string, rest: seq<Byte>): seq<Byte> {
    if s == [] then rest else EscapedChar(s[0]) + EscapedTo(s[1..], rest)
  }

  function QuotedTo(s: string, rest: seq<Byte>): seq<Byte> {
    [0x22] + EscapedTo(s, [0x22] + rest)
  }

  function PrintTo(j: Json, rest: seq<Byte>): seq<Byte>
    decreases j, 1
  {
    match j
    case Null => [0x6E, 0x75, 0x6C, 0x6C] + rest
    case Bool(true) => [0x74, 0x72, 0x75, 0x65] + rest
    case Bool(false) => [0x66, 0x61, 0x6C, 0x73, 0x65] + rest
    case Num(n) => Numeral(n) + rest
    case Str(s) => QuotedTo(s, rest)
    case Arr(items) => [0x5B] + ItemsTo(items, [0x5D] + rest)
    case Obj(fields) => [0x7B] + FieldsTo(fields, [0x7D] + rest)
  }

  function ItemsTo(items: seq<Json>, rest: seq<Byte>): seq<Byte>
    decreases items, 1
  {
    if items == [] then rest else PrintTo(items[0], MoreItemsTo(items[1..], rest))
  }

  function MoreItemsTo(items: seq<Json>, rest: seq<Byte>): seq<Byte>
    decreases items, 0
  {
    if items == [] then rest else [0x2C] + PrintTo(items[0], MoreItemsTo(items[1..], rest))
  }

  function FieldTo(f: Field, rest: seq<Byte>): seq<Byte>
    decreases f, 2
  {
    QuotedTo(f.key, [0x3A] + PrintTo(f.value, rest))
  }

  function FieldsTo(fields: seq<Field>, rest: seq<Byte>): seq<Byte>
    decreases fields, 1
  {
    if fields == [] then rest else FieldTo(fields[0], MoreFieldsTo(fields[1..], rest))
  }

  function MoreFieldsTo(fields: seq<Field>, rest: seq<Byte>): seq<Byte>
    decreases fields, 0
  {
    if fields == [] then rest else [0x2C] + FieldTo(fields[0], MoreFieldsTo(fields[1..], rest))
  }

  /** The compact text of a value. */
  function Print(j: Json): seq<Byte> {
    PrintTo(j, [])
  }

  // ---- No newline --------------------------------------------------------------

  predicate NoNewline(bytes: seq<Byte>) {
    NEWLINE !in bytes
  }

  lemma {:induction false} EscapedHasNoNewline(s: string, rest: seq<Byte>)
    requires NoNewline(rest)
    ensures NoNewline(EscapedTo(s, rest))
  {
    if s != [] {
      EscapedHasNoNewline(s[1..], rest);
      assert NoNewline(EscapedChar(s[0]));
    }
  }

  lemma {:induction false} DigitsAreDigits(n: nat)
    ensures forall b | b in Digits(n) :: 48 <= b < 58
    ensures |Digits(n)| > 0
  {
    if n >= 10 {
      DigitsAreDigits(n / 10);
    }
  }

  lemma {:induction false} NoNewlineBefore(j: Json, rest: seq<Byte>)
    requires NoNewline(rest)
    ensures NoNewline(PrintTo(j, rest))
    decreases j, 1
  {
    match j
    case Num(n) => DigitsAreDigits(if n < 0 then -n else n);
    case Str(s) => EscapedHasNoNewline(s, [0x22] + rest);
    case Arr(items) =>
      if items != [] {
        NoNewlineInItems(items[1..], [0x5D] + rest);
        NoNewlineBefore(items[0], MoreItemsTo(items[1..], [0x5D] + rest));
      }
    case Obj(fields) =>
      if fields != [] {
        NoNewlineInFields(fields[1..], [0x7D] + rest);
        NoNewlineInField(fields[0], MoreFieldsTo(fields[1..], [0x7D] + rest));
      }
    case _ =>
  }

  lemma {:induction false} NoNewlineInItems(items: seq<Json>, rest: seq<Byte>)
    requires NoNewline(rest)
    ensures NoNewline(MoreItemsTo(items, rest))
    decreases items, 0
  {
    if items != [] {
      NoNewlineInItems(items[1..], rest);
      NoNewlineBefore(items[0], MoreItemsTo(items[1..], rest));
    }
  }

  lemma {:induction false} NoNewlineInField(f: Field, rest: seq<Byte>)
    requires NoNewline(rest)
    ensures NoNewline(FieldTo(f, rest))
    decreases f, 2
  {
    NoNewlineBefore(f.value, rest);
    EscapedHasNoNewline(f.key, [0x22] + ([0x3A] + PrintTo(f.value, rest)));
  }

  lemma {:induction false} NoNewlineInFields(fields: seq<Field>, rest: seq<Byte>)
    requires NoNewline(rest)
    ensures NoNewline(MoreFieldsTo(fields, rest))
    decreases fields, 0
  {
    if fields != [] {
      NoNewlineInFields(fields[1..], rest);
      NoNewlineInField(fields[0], MoreFieldsTo(fields[1..], rest));
    }
  }

  /** Compact JSON text contains no newline, whatever the value. */
  lemma PrintHasNoNewline(j: Json)
    ensures NoNewline(Print(j))
  {
    NoNewlineBefore(j, []);
  }
}
