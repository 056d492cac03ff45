// Compact JSON text is uniquely readable: no value's text is another value's, nor a
// prefix of it unless a digit follows.  So a reader that inverts the writer exists.
module JsonUnique {
  import opened Wrappers
  import opened Json
  import opened JsonText

  /** A + B == C + D with A and C equally long. */
  lemma SameLength(a: seq<Byte>, b: seq<Byte>, c: seq<Byte>, d: seq<Byte>)
    requires a + b == c + d && |a| == |c|
    ensures a == c && b == d
  {
    assert a == (a + b)[..|a|] && c == (c + d)[..|c|];
    assert b == (a + b)[|a|..] && d == (c + d)[|c|..];
  }

  // ---- Characters and strings --------------------------------------------------

  function Utf8Value(u: seq<Byte>): int {
    if |u| == 1 then u[0] as int
    else if |u| == 2 then (u[0] as int - 0xC0) * 64 + (u[1] as int - 0x80)
    else if |u| == 3 then (u[0] as int - 0xE0) * 4096 + (u[1] as int - 0x80) * 64 + (u[2] as int - 0x80)
    else if |u| == 4 then
      (u[0] as int - 0xF0) * 262144 + (u[1] as int - 0x80) * 4096 + (u[2] as int - 0x80) * 64 + (u[3] as int - 0x80)
    else 0
  }

  lemma TwoDigits(n: nat)
    ensures n == n / 64 * 64 + n % 64
    ensures n / 4096 == n / 64 / 64 && n / 262144 == n / 4096 / 64
  {
  }

  lemma Utf8Code(c: char)
    ensures Utf8Value(Utf8(c)) == c as int
  {
    var n := c as int;
    TwoDigits(n);
    TwoDigits(n / 64);
    TwoDigits(n / 4096);
    if n < 0x80 {
    } else if n < 0x800 {
      assert n % 64 + 0x80 - 0x80 == n % 64;
    } else if n < 0x1_0000 {
      assert n == (n / 4096 * 64 + n / 64 % 64) * 64 + n % 64;
    } else {
      assert n == ((n / 262144 * 64 + n / 4096 % 64) * 64 + n / 64 % 64) * 64 + n % 64;
    }
  }

  lemma Utf8Start(c: char)
    ensures var u := Utf8(c);
            && 1 <= |u| <= 4
            && (|u| == 1 <==> u[0] < 0x80)
            && (|u| == 2 <==> 0xC0 <= u[0] < 0xE0)
            && (|u| == 3 <==> 0xE0 <= u[0] < 0xF0)
  {
  }

  lemma Utf8Unique(c: char, d: char, x: seq<Byte>, y: seq<Byte>)
    requires Utf8(c) + x == Utf8(d) + y
    ensures c == d && x == y
  {
    Utf8Start(c);
    Utf8Start(d);
    Utf8Code(c);
    Utf8Code(d);
    assert (Utf8(c) + x)[0] == Utf8(c)[0] && (Utf8(d) + y)[0] == Utf8(d)[0];
    SameLength(Utf8(c), x, Utf8(d), y);
  }

  predicate Control(c: char) {
    c as int < 0x20 || c as int == 0x22 || c as int == 0x5C
  }

  lemma EscapeUnique(c: char, d: char, x: seq<Byte>, y: seq<Byte>)
    requires Control(c) && Control(d)
    requires EscapedChar(c) + x == EscapedChar(d) + y
    ensures c == d && x == y
  {
    var u, v := EscapedChar(c), EscapedChar(d);
    assert u[1] == (u + x)[1] && v[1] == (v + y)[1];
    assert |u| == |v|;
    SameLength(u, x, v, y);
    if |u| == 6 {
      assert u[4] == v[4] && u[5] == v[5];
      HexUnique(c as int / 16, d as int / 16);
      HexUnique(c as int % 16, d as int % 16);
    }
  }

  lemma HexUnique(a: nat, b: nat)
    requires a < 16 && b < 16 && HexDigit(a) == HexDigit(b)
    ensures a == b
  {
  }

  lemma RawStart(c: char)
    requires !Control(c)
    ensures EscapedChar(c) == Utf8(c) && Utf8(c)[0] != 0x22 && Utf8(c)[0] != 0x5C
  {
  }

  lemma CharUnique(c: char, d: char, x: seq<Byte>, y: seq<Byte>)
    requires EscapedChar(c) + x == EscapedChar(d) + y
    ensures c == d && x == y
  {
    assert (EscapedChar(c) + x)[0] == EscapedChar(c)[0] && (EscapedChar(d) + y)[0] == EscapedChar(d)[0];
    if Control(c) && Control(d) {
      EscapeUnique(c, d, x, y);
    } else {
      if !Control(c) { RawStart(c); }
      if !Control(d) { RawStart(d); }
      Utf8Unique(c, d, x, y);
    }
  }

  lemma CharStart(c: char)
    ensures EscapedChar(c)[0] != 0x22
  {
    if !Control(c) { RawStart(c); }
  }

  lemma {:induction false} EscapedUnique(s: string, t: string, x: seq<Byte>, y: seq<Byte>)
    requires EscapedTo(s, [0x22] + x) == EscapedTo(t, [0x22] + y)
    ensures s == t && x == y
    decreases s
  {
    if s != [] {
      CharStart(s[0]);
    }
    if t != [] {
      CharStart(t[0]);
    }
    if s != [] && t != [] {
      CharUnique(s[0], t[0], EscapedTo(s[1..], [0x22] + x), EscapedTo(t[1..], [0x22] + y));
      EscapedUnique(s[1..], t[1..], x, y);
    } else {
      Cons(0x22, x);
      Cons(0x22, y);
    }
  }

  lemma Cons(b: Byte, x: seq<Byte>)
    ensures ([b] + x)[0] == b && ([b] + x)[1..] == x
  {
  }

  lemma QuotedUnique(s: string, t: string, x: seq<Byte>, y: seq<Byte>)
    requires QuotedTo(s, x) == QuotedTo(t, y)
    ensures s == t && x == y
  {
    Cons(0x22, EscapedTo(s, [0x22] + x));
    Cons(0x22, EscapedTo(t, [0x22] + y));
    EscapedUnique(s, t, x, y);
  }

  // ---- Numbers -------------------------------------------------------------------

  predicate IsDigit(b: Byte) {
    48 <= b < 58
  }

  /** What may follow a value in a text. */
  predicate Ends(x: seq<Byte>) {
    x == [] || !IsDigit(x[0])
  }

  function DigitsValue(ds: seq<Byte>): int {
    if ds == [] then 0 else DigitsValue(ds[..|ds| - 1]) * 10 + (ds[|ds| - 1] as int - 48)
  }

  lemma {:induction false} DigitsRead(n: nat)
    ensures DigitsValue(Digits(n)) == n
  {
    var ds := Digits(n);
    if n >= 10 {
      DigitsRead(n / 10);
      assert ds[..|ds| - 1] == Digits(n / 10);
    } else {
      assert ds[..0] == [];
    }
  }

  lemma {:induction false} DigitRuns(a: seq<Byte>, b: seq<Byte>, x: seq<Byte>, y: seq<Byte>)
    requires a + x == b + y && Ends(x) && Ends(y)
    requires (forall d | d in a :: IsDigit(d)) && (forall d | d in b :: IsDigit(d))
    ensures a == b && x == y
    decreases a
  {
    assert [] + x == x && [] + y == y;
    if a != [] {
      assert a[0] in a && (a + x)[0] == a[0] && (a + x)[1..] == a[1..] + x;
    }
    if b != [] {
      assert b[0] in b && (b + y)[0] == b[0] && (b + y)[1..] == b[1..] + y;
    }
    if a != [] && b != [] {
      DigitRuns(a[1..], b[1..], x, y);
    }
  }

  lemma DigitsUnique(m: nat, n: nat, x: seq<Byte>, y: seq<Byte>)
    requires Digits(m) + x == Digits(n) + y && Ends(x) && Ends(y)
    ensures m == n && x == y
  {
    DigitsAreDigits(m);
    DigitsAreDigits(n);
    DigitRuns(Digits(m), Digits(n), x, y);
    DigitsRead(m);
    DigitsRead(n);
  }

  lemma NumeralStart(n: int)
    ensures |Numeral(n)| > 0 && (Numeral(n)[0] == 0x2D <==> n < 0) && (n >= 0 ==> IsDigit(Numeral(n)[0]))
  {
    DigitsAreDigits(if n < 0 then -n else n);
    assert n >= 0 ==> Digits(n)[0] in Digits(n);
  }

  lemma NumeralUnique(m: int, n: int, x: seq<Byte>, y: seq<Byte>)
    requires Numeral(m) + x == Numeral(n) + y && Ends(x) && Ends(y)
    ensures m == n && x == y
  {
    NumeralStart(m);
    NumeralStart(n);
    assert (Numeral(m) + x)[0] == Numeral(m)[0] && (Numeral(n) + y)[0] == Numeral(n)[0];
    if m < 0 {
      NegativeTail(m, x);
      NegativeTail(n, y);
      DigitsUnique(-m, -n, x, y);
    } else {
      DigitsUnique(m, n, x, y);
    }
  }

  lemma NegativeTail(n: int, x: seq<Byte>)
    requires n < 0
    ensures (Numeral(n) + x)[1..] == Digits(-n) + x
  {
  }

  // ---- Values ----------------------------------------------------------------------

  /** The first byte of a text tells what kind of value it is. */
  function Kind(b: Byte): nat {
    if b == 0x6E then 1 else if b == 0x74 then 2 else if b == 0x66 then 3
    else if b == 0x2D || IsDigit(b) then 4 else if b == 0x22 then 5
    else if b == 0x5B then 6 else if b == 0x7B then 7 else 0
  }

  function KindOf(j: Json): nat {
    match j
    case Null => 1
    case Bool(true) => 2
    case Bool(false) => 3
    case Num(_) => 4
    case Str(_) => 5
    case Arr(_) => 6
    case Obj(_) => 7
  }

  lemma PrintStart(j: Json, rest: seq<Byte>)
    ensures |PrintTo(j, rest)| > 0 && Kind(PrintTo(j, rest)[0]) == KindOf(j)
  {
    if j.Num? {
      NumeralStart(j.n);
    }
  }

  lemma {:induction false} PrintUnique(a: Json, b: Json, x: seq<Byte>, y: seq<Byte>)
    requires PrintTo(a, x) == PrintTo(b, y) && Ends(x) && Ends(y)
    ensures a == b && x == y
    decreases a, 1
  {
    PrintStart(a, x);
    PrintStart(b, y);
    match a
    case Null => SameLength([0x6E, 0x75, 0x6C, 0x6C], x, [0x6E, 0x75, 0x6C, 0x6C], y);
    case Bool(v) =>
      if v {
        SameLength([0x74, 0x72, 0x75, 0x65], x, [0x74, 0x72, 0x75, 0x65], y);
      } else {
        SameLength([0x66, 0x61, 0x6C, 0x73, 0x65], x, [0x66, 0x61, 0x6C, 0x73, 0x65], y);
      }
    case Num(n) => NumeralUnique(n, b.n, x, y);
    case Str(s) => QuotedUnique(s, b.s, x, y);
    case Arr(items) =>
      Cons(0x5B, ItemsTo(items, [0x5D] + x));
      Cons(0x5B, ItemsTo(b.items, [0x5D] + y));
      ItemsUnique(items, b.items, x, y);
    case Obj(fields) =>
      Cons(0x7B, FieldsTo(fields, [0x7D] + x));
      Cons(0x7B, FieldsTo(b.fields, [0x7D] + y));
      FieldsUnique(fields, b.fields, x, y);
  }

  lemma {:induction false} ItemsUnique(a: seq<Json>, b: seq<Json>, x: seq<Byte>, y: seq<Byte>)
    requires ItemsTo(a, [0x5D] + x) == ItemsTo(b, [0x5D] + y)
    ensures a == b && x == y
    decreases a, 2
  {
    Cons(0x5D, x);
    Cons(0x5D, y);
    if a != [] && b != [] {
      MoreItemsStart(a[1..], x);
      MoreItemsStart(b[1..], y);
      PrintUnique(a[0], b[0], MoreItemsTo(a[1..], [0x5D] + x), MoreItemsTo(b[1..], [0x5D] + y));
      MoreItemsUnique(a[1..], b[1..], x, y);
    } else if a != [] {
      PrintStart(a[0], MoreItemsTo(a[1..], [0x5D] + x));
    } else if b != [] {
      PrintStart(b[0], MoreItemsTo(b[1..], [0x5D] + y));
    }
  }

  lemma MoreItemsStart(items: seq<Json>, x: seq<Byte>)
    ensures var t := MoreItemsTo(items, [0x5D] + x);
            |t| > 0 && t[0] == (if items == [] then 0x5D else 0x2C) && Ends(t)
  {
  }

  lemma {:induction false} MoreItemsUnique(a: seq<Json>, b: seq<Json>, x: seq<Byte>, y: seq<Byte>)
    requires MoreItemsTo(a, [0x5D] + x) == MoreItemsTo(b, [0x5D] + y)
    ensures a == b && x == y
    decreases a, 0
  {
    MoreItemsStart(a, x);
    MoreItemsStart(b, y);
    if a == [] {
      Cons(0x5D, x);
      Cons(0x5D, y);
    } else {
      var u, v := MoreItemsTo(a[1..], [0x5D] + x), MoreItemsTo(b[1..], [0x5D] + y);
      MoreItemsStart(a[1..], x);
      MoreItemsStart(b[1..], y);
      Cons(0x2C, PrintTo(a[0], u));
      Cons(0x2C, PrintTo(b[0], v));
      PrintUnique(a[0], b[0], u, v);
      MoreItemsUnique(a[1..], b[1..], x, y);
    }
  }

  lemma {:induction false} FieldUnique(f: Field, g: Field, x: seq<Byte>, y: seq<Byte>)
    requires FieldTo(f, x) == FieldTo(g, y) && Ends(x) && Ends(y)
    ensures f == g && x == y
    decreases f, 2
  {
    QuotedUnique(f.key, g.key, [0x3A] + PrintTo(f.value, x), [0x3A] + PrintTo(g.value, y));
    Cons(0x3A, PrintTo(f.value, x));
    Cons(0x3A, PrintTo(g.value, y));
    PrintUnique(f.value, g.value, x, y);
  }

  lemma FieldStart(f: Field, rest: seq<Byte>)
    ensures |FieldTo(f, rest)| > 0 && FieldTo(f, rest)[0] == 0x22
  {
  }

  lemma {:induction false} FieldsUnique(a: seq<Field>, b: seq<Field>, x: seq<Byte>, y: seq<Byte>)
    requires FieldsTo(a, [0x7D] + x) == FieldsTo(b, [0x7D] + y)
    ensures a == b && x == y
    decreases a, 3
  {
    Cons(0x7D, x);
    Cons(0x7D, y);
    if a != [] && b != [] {
      MoreFieldsStart(a[1..], x);
      MoreFieldsStart(b[1..], y);
      FieldUnique(a[0], b[0], MoreFieldsTo(a[1..], [0x7D] + x), MoreFieldsTo(b[1..], [0x7D] + y));
      MoreFieldsUnique(a[1..], b[1..], x, y);
    } else if a != [] {
      FieldStart(a[0], MoreFieldsTo(a[1..], [0x7D] + x));
    } else if b != [] {
      FieldStart(b[0], MoreFieldsTo(b[1..], [0x7D] + y));
    }
  }

  lemma MoreFieldsStart(fields: seq<Field>, x: seq<Byte>)
    ensures var t := MoreFieldsTo(fields, [0x7D] + x);
            |t| > 0 && t[0] == (if fields == [] then 0x7D else 0x2C) && Ends(t)
  {
  }

  lemma {:induction false} MoreFieldsUnique(a: seq<Field>, b: seq<Field>, x: seq<Byte>, y: seq<Byte>)
    requires MoreFieldsTo(a, [0x7D] + x) == MoreFieldsTo(b, [0x7D] + y)
    ensures a == b && x == y
    decreases a, 0
  {
    MoreFieldsStart(a, x);
    MoreFieldsStart(b, y);
    if a == [] {
      Cons(0x7D, x);
      Cons(0x7D, y);
    } else {
      var u, v := MoreFieldsTo(a[1..], [0x7D] + x), MoreFieldsTo(b[1..], [0x7D] + y);
      MoreFieldsStart(a[1..], x);
      MoreFieldsStart(b[1..], y);
      Cons(0x2C, FieldTo(a[0], u));
      Cons(0x2C, FieldTo(b[0], v));
      FieldUnique(a[0], b[0], u, v);
      MoreFieldsUnique(a[1..], b[1..], x, y);
    }
  }

  // ---- Reading ----------------------------------------------------------------------

  /** The value a compact text is the text of, if it is one. */
  ghost function Read(bytes: seq<Byte>): Option<Json> {
    if exists j :: Print(j) == bytes then
      var j :| Print(j) == bytes;
      Some(j)
    else None
  }

  /** Reading inverts writing. */
  lemma ReadPrint(j: Json)
    ensures Read(Print(j)) == Some(j)
  {
    var k := Read(Print(j)).value;
    PrintUnique(k, j, [], []);
  }
}
