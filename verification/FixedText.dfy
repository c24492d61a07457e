/**
 Text made of zero-padded numbers and literal characters: how it is written and read back.
 Timestamps in ISO 8601 form and UUIDs are such texts.
 */
module FixedText {
  import opened Options
  import opened Decimals

  /** What a text consists of, from front to back: decimal or hexadecimal fields and literal characters. */
  datatype Layout = End | Num(hex: bool, width: nat, next: Layout) | Lit(c: char, next: Layout)

  datatype Values = Nil | Cons(head: nat, tail: Values)

  function Join(high: nat, digit: nat, hex: bool): nat {
    if hex then 16 * high + digit else 10 * high + digit
  }

  function High(n: nat, hex: bool): nat {
    if hex then n / 16 else n / 10
  }

  function Low(n: nat, hex: bool): nat {
    if hex then n % 16 else n % 10
  }

  /** How many numbers a field of this width can hold. */
  function Capacity(hex: bool, width: nat): nat {
    if width == 0 then 1 else Join(Capacity(hex, width - 1), 0, hex)
  }

  function DigitChar(d: nat): char
    requires d < 16
  {
    if d < 10 then '0' + d as char else 'a' + (d - 10) as char
  }

  function DigitValue(c: char): Option<nat> {
    if '0' <= c <= '9' then Some((c - '0') as nat)
    else if 'a' <= c <= 'f' then Some((c - 'a') as nat + 10)
    else if 'A' <= c <= 'F' then Some((c - 'A') as nat + 10)
    else None
  }

  function Pad(n: nat, hex: bool, width: nat): string {
    if width == 0 then "" else Pad(High(n, hex), hex, width - 1) + [DigitChar(Low(n, hex))]
  }

  lemma {:induction false} PadWidth(n: nat, hex: bool, width: nat)
    ensures |Pad(n, hex, width)| == width
    decreases width
  {
    if width > 0 {
      PadWidth(High(n, hex), hex, width - 1);
    }
  }

  /** A decimal field holds its number in ordinary notation, with leading zeros. */
  lemma {:induction false} PadIsDecimal(n: nat, width: nat)
    requires n < Capacity(false, width)
    ensures ReadDecimal(Pad(n, false, width)) == n
    decreases width
  {
    if width > 0 {
      PadIsDecimal(n / 10, width - 1);
      var s := Pad(n, false, width);
      assert s[..|s| - 1] == Pad(n / 10, false, width - 1);
    }
  }

  function ReadDigits(s: string, hex: bool): Option<nat> {
    if s == "" then Some(0)
    else
      var high, low := ReadDigits(s[..|s| - 1], hex), DigitValue(s[|s| - 1]);
      if high.None? || low.None? || (!hex && low.value >= 10) then None else Some(Join(high.value, low.value, hex))
  }

  lemma ReadAppend(s: string, hex: bool, high: nat, d: nat)
    requires d < 16 && (!hex ==> d < 10) && ReadDigits(s, hex) == Some(high)
    ensures ReadDigits(s + [DigitChar(d)], hex) == Some(Join(high, d, hex))
  {
    var t := s + [DigitChar(d)];
    assert t[..|t| - 1] == s && DigitValue(t[|t| - 1]) == Some(d);
  }

  lemma {:induction false} ReadPad(n: nat, hex: bool, width: nat)
    requires n < Capacity(hex, width)
    ensures |Pad(n, hex, width)| == width && ReadDigits(Pad(n, hex, width), hex) == Some(n)
  {
    if width > 0 {
      ReadPad(High(n, hex), hex, width - 1);
      ReadAppend(Pad(High(n, hex), hex, width - 1), hex, High(n, hex), Low(n, hex));
      assert Join(High(n, hex), Low(n, hex), hex) == n;
    }
  }

  /** The numbers fit their fields, and there is one for each. */
  predicate Fits(layout: Layout, values: Values) {
    match layout
    case End => values.Nil?
    case Lit(_, next) => Fits(next, values)
    case Num(hex, width, next) => values.Cons? && values.head < Capacity(hex, width) && Fits(next, values.tail)
  }

  function Write(layout: Layout, values: Values): string
    requires Fits(layout, values)
  {
    match layout
    case End => ""
    case Lit(c, next) => [c] + Write(next, values)
    case Num(hex, width, next) => Pad(values.head, hex, width) + Write(next, values.tail)
  }

  datatype Parsed = Parsed(values: Values, rest: string)

  /** Reads the layout from the front of the text. */
  function Read(layout: Layout, s: string): Option<Parsed> {
    match layout
    case End => Some(Parsed(Nil, s))
    case Lit(c, next) => if s == "" || s[0] != c then None else Read(next, s[1..])
    case Num(hex, width, next) =>
      if |s| < width then None
      else
        var n, p := ReadDigits(s[..width], hex), Read(next, s[width..]);
        if n.None? || p.None? then None else Some(Parsed(Cons(n.value, p.value.values), p.value.rest))
  }

  lemma ReadNumber(layout: Layout, values: Values, text: string, tail: string, rest: string)
    requires layout.Num? && Fits(layout, values) && text == Pad(values.head, layout.hex, layout.width) + tail
    requires Read(layout.next, tail) == Some(Parsed(values.tail, rest))
    ensures Read(layout, text) == Some(Parsed(values, rest))
  {
    ReadPad(values.head, layout.hex, layout.width);
    assert text[..layout.width] == Pad(values.head, layout.hex, layout.width) && text[layout.width..] == tail;
  }

  lemma ReadLiteral(layout: Layout, values: Values, text: string, tail: string, rest: string)
    requires layout.Lit? && text == [layout.c] + tail && Read(layout.next, tail) == Some(Parsed(values, rest))
    ensures Read(layout, text) == Some(Parsed(values, rest))
  {
    assert text[1..] == tail;
  }

  /** Reading what was written gives the values back and leaves what follows. */
  lemma {:induction false} ReadWrite(layout: Layout, values: Values, rest: string)
    requires Fits(layout, values)
    ensures Read(layout, Write(layout, values) + rest) == Some(Parsed(values, rest))
    decreases layout
  {
    var text := Write(layout, values) + rest;
    match layout
    case End => assert text == rest;
    case Lit(c, next) =>
      ReadWrite(next, values, rest);
      ReadLiteral(layout, values, text, Write(next, values) + rest, rest);
    case Num(hex, width, next) =>
      ReadWrite(next, values.tail, rest);
      ReadNumber(layout, values, text, Write(next, values.tail) + rest, rest);
  }

  function Literals(layout: Layout): set<char> {
    match layout
    case End => {}
    case Lit(c, next) => {c} + Literals(next)
    case Num(_, _, next) => Literals(next)
  }

  predicate AllDigits(s: string) {
    forall c :: c in s ==> DigitValue(c).Some?
  }

  lemma OneMoreDigit(s: string, d: nat)
    requires AllDigits(s) && d < 16
    ensures AllDigits(s + [DigitChar(d)])
  {
  }

  lemma {:induction false} PadIsDigits(n: nat, hex: bool, width: nat)
    ensures AllDigits(Pad(n, hex, width))
  {
    if width > 0 {
      PadIsDigits(High(n, hex), hex, width - 1);
      OneMoreDigit(Pad(High(n, hex), hex, width - 1), Low(n, hex));
    }
  }

  /** Only digits and the layout's own literals occur in a written text. */
  lemma {:induction false} WrittenIsPlain(layout: Layout, values: Values, c: char)
    requires Fits(layout, values) && c in Write(layout, values)
    ensures DigitValue(c).Some? || c in Literals(layout)
  {
    match layout
    case Lit(d, next) =>
      if c != d {
        WrittenIsPlain(next, values, c);
      }
    case Num(hex, width, next) =>
      if c in Pad(values.head, hex, width) {
        PadIsDigits(values.head, hex, width);
      } else {
        WrittenIsPlain(next, values.tail, c);
      }
  }
}
