/**
 Pagination cursors: a creation time and an id, written as text, then in base 64.
 */
module Cursors {
  import opened Options
  import opened Base64Url
  import opened FixedText

  /** A UTC timestamp with microseconds. */
  datatype DateTime = DateTime(year: nat, month: nat, day: nat, hour: nat, minute: nat, second: nat, micro: nat)

  predicate IsLeap(year: nat) {
    year % 4 == 0 && (year % 100 != 0 || year % 400 == 0)
  }

  function DaysIn(year: nat, month: nat): nat {
    if month == 2 then (if IsLeap(year) then 29 else 28)
    else if month == 4 || month == 6 || month == 9 || month == 11 then 30
    else 31
  }

  predicate ValidTime(t: DateTime) {
    && 1 <= t.year <= 9999 && 1 <= t.month <= 12 && 1 <= t.day <= DaysIn(t.year, t.month)
    && t.hour < 24 && t.minute < 60 && t.second < 60 && t.micro < 1000000
  }

  /** The five groups of a UUID. */
  datatype Uuid = Uuid(low: nat, mid: nat, high: nat, clock: nat, node: nat)

  predicate ValidUuid(u: Uuid) {
    u.low < 0x1_0000_0000 && u.mid < 0x1_0000 && u.high < 0x1_0000 && u.clock < 0x1_0000 && u.node < 0x1_0000_0000_0000
  }

  const UTC := "+00:00"

  /** YYYY-MM-DDTHH:MM:SS */
  function SecondsLayout(): Layout {
    Num(false, 4, Lit('-', Num(false, 2, Lit('-', Num(false, 2, Lit('T', TimeLayout()))))))
  }

  function TimeLayout(): Layout {
    Num(false, 2, Lit(':', Num(false, 2, Lit(':', Num(false, 2, End)))))
  }

  function FractionLayout(): Layout {
    Lit('.', Num(false, 6, End))
  }

  /** 8-4-4-4-12 hexadecimal digits. */
  function UuidLayout(): Layout {
    Num(true, 8, Lit('-', Num(true, 4, Lit('-', UuidTailLayout()))))
  }

  function UuidTailLayout(): Layout {
    Num(true, 4, Lit('-', Num(true, 4, Lit('-', Num(true, 12, End)))))
  }

  function TimeValues(t: DateTime): Values {
    Cons(t.hour, Cons(t.minute, Cons(t.second, Nil)))
  }

  function SecondsValues(t: DateTime): Values {
    Cons(t.year, Cons(t.month, Cons(t.day, TimeValues(t))))
  }

  function UuidTailValues(u: Uuid): Values {
    Cons(u.high, Cons(u.clock, Cons(u.node, Nil)))
  }

  function UuidValues(u: Uuid): Values {
    Cons(u.low, Cons(u.mid, UuidTailValues(u)))
  }

  lemma {:induction false} DecimalPowers()
    ensures Capacity(false, 2) == 100 && Capacity(false, 4) == 10000 && Capacity(false, 6) == 1000000
  {
    assert Capacity(false, 1) == 10 && Capacity(false, 3) == 1000 && Capacity(false, 5) == 100000;
  }

  lemma {:induction false} HexPowers()
    ensures Capacity(true, 4) == 0x1_0000 && Capacity(true, 8) == 0x1_0000_0000 &&
            Capacity(true, 12) == 0x1_0000_0000_0000
  {
    assert Capacity(true, 2) == 0x100;
    assert Capacity(true, 6) == 0x100_0000;
    assert Capacity(true, 10) == 0x100_0000_0000;
  }

  lemma TimeFits(t: DateTime)
    requires ValidTime(t)
    ensures Fits(SecondsLayout(), SecondsValues(t)) && Fits(FractionLayout(), Cons(t.micro, Nil))
  {
    DecimalPowers();
    assert Fits(Num(false, 2, End), Cons(t.second, Nil));
    assert Fits(Num(false, 2, Lit(':', Num(false, 2, End))), Cons(t.minute, Cons(t.second, Nil)));
    assert Fits(TimeLayout(), TimeValues(t));
    assert Fits(Num(false, 2, Lit('T', TimeLayout())), Cons(t.day, TimeValues(t)));
    assert Fits(Num(false, 2, Lit('-', Num(false, 2, Lit('T', TimeLayout())))),
           Cons(t.month, Cons(t.day, TimeValues(t))));
  }

  lemma UuidFits(u: Uuid)
    requires ValidUuid(u)
    ensures Fits(UuidLayout(), UuidValues(u))
  {
    HexPowers();
    assert Fits(Num(true, 12, End), Cons(u.node, Nil));
    assert Fits(Num(true, 4, Lit('-', Num(true, 12, End))), Cons(u.clock, Cons(u.node, Nil)));
    assert Fits(UuidTailLayout(), UuidTailValues(u));
    assert Fits(Num(true, 4, Lit('-', UuidTailLayout())), Cons(u.mid, UuidTailValues(u)));
  }

  /** `isoformat` of an aware UTC timestamp: the fraction is left out when it is zero. */
  function IsoFormat(t: DateTime): string
    requires ValidTime(t)
  {
    TimeFits(t);
    Write(SecondsLayout(), SecondsValues(t))
    + (if t.micro == 0 then "" else Write(FractionLayout(), Cons(t.micro, Nil)))
    + UTC
  }

  function UuidText(u: Uuid): string
    requires ValidUuid(u)
  {
    UuidFits(u);
    Write(UuidLayout(), UuidValues(u))
  }

  lemma WriteField(hex: bool, width: nat, c: char, next: Layout, v: nat, rest: Values)
    requires Fits(Num(hex, width, Lit(c, next)), Cons(v, rest))
    ensures Fits(next, rest)
    ensures Write(Num(hex, width, Lit(c, next)), Cons(v, rest)) == Pad(v, hex, width) + [c] + Write(next, rest)
  {
    assert Fits(Lit(c, next), rest);
    assert Write(Lit(c, next), rest) == [c] + Write(next, rest);
  }

  lemma WriteLast(hex: bool, width: nat, v: nat)
    requires Fits(Num(hex, width, End), Cons(v, Nil))
    ensures Write(Num(hex, width, End), Cons(v, Nil)) == Pad(v, hex, width)
  {
    assert Write(End, Nil) == "";
  }

  function ClockText(t: DateTime): string {
    Pad(t.hour, false, 2) + ":" + (Pad(t.minute, false, 2) + ":" + Pad(t.second, false, 2))
  }

  function DateText(t: DateTime): string {
    Pad(t.year, false, 4) + "-" + (Pad(t.month, false, 2) + "-" + (Pad(t.day, false, 2) + "T" + ClockText(t)))
  }

  /** The text is an ISO 8601 timestamp: date, clock, fraction unless it is zero, and offset. */
  lemma IsoShape(t: DateTime)
    requires ValidTime(t)
    ensures IsoFormat(t) == DateText(t) + (if t.micro == 0 then "" else "." + Pad(t.micro, false, 6)) + "+00:00"
  {
    TimeFits(t);
    var last := Num(false, 2, End);
    WriteField(false, 4, '-', Num(false, 2, Lit('-', Num(false, 2, Lit('T', TimeLayout())))), t.year,
               Cons(t.month, Cons(t.day, TimeValues(t))));
    WriteField(false, 2, '-', Num(false, 2, Lit('T', TimeLayout())), t.month, Cons(t.day, TimeValues(t)));
    WriteField(false, 2, 'T', TimeLayout(), t.day, TimeValues(t));
    WriteField(false, 2, ':', Num(false, 2, Lit(':', last)), t.hour, Cons(t.minute, Cons(t.second, Nil)));
    WriteField(false, 2, ':', last, t.minute, Cons(t.second, Nil));
    WriteLast(false, 2, t.second);
    WriteLast(false, 6, t.micro);
  }

  /** The text has the form 8-4-4-4-12. */
  lemma UuidShape(u: Uuid)
    requires ValidUuid(u)
    ensures UuidText(u) ==
            Pad(u.low, true, 8) + "-" + (Pad(u.mid, true, 4) + "-" + (Pad(u.high, true, 4) + "-"
            + (Pad(u.clock, true, 4) + "-" + Pad(u.node, true, 12))))
  {
    UuidFits(u);
    var last := Num(true, 12, End);
    WriteField(true, 8, '-', Num(true, 4, Lit('-', UuidTailLayout())), u.low, Cons(u.mid, UuidTailValues(u)));
    WriteField(true, 4, '-', UuidTailLayout(), u.mid, UuidTailValues(u));
    WriteField(true, 4, '-', Num(true, 4, Lit('-', last)), u.high, Cons(u.clock, Cons(u.node, Nil)));
    WriteField(true, 4, '-', last, u.clock, Cons(u.node, Nil));
    WriteLast(true, 12, u.node);
  }

  function TimeFrom(v: Values, micro: nat): Option<DateTime> {
    match v
    case Cons(y, Cons(mo, Cons(d, Cons(h, Cons(mi, Cons(s, Nil)))))) =>
      var t := DateTime(y, mo, d, h, mi, s, micro);
      if ValidTime(t) then Some(t) else None
    case _ => None
  }

  function UuidFrom(v: Values): Option<Uuid> {
    match v
    case Cons(a, Cons(b, Cons(c, Cons(d, Cons(e, Nil))))) => Some(Uuid(a, b, c, d, e))
    case _ => None
  }

  /** A timestamp with offset zero or, read as UTC, with none. */
  function ParseTime(s: string): Option<DateTime> {
    var head := Read(SecondsLayout(), s);
    if head.None? then None
    else
      var rest := head.value.rest;
      if rest == UTC || rest == "" then TimeFrom(head.value.values, 0)
      else
        var fraction := Read(FractionLayout(), rest);
        if fraction.None? || fraction.value.values.Nil? || (fraction.value.rest != UTC && fraction.value.rest != "")
          then None
        else TimeFrom(head.value.values, fraction.value.values.head)
  }

  function ParseUuid(s: string): Option<Uuid> {
    var p := Read(UuidLayout(), s);
    if p.None? || p.value.rest != "" then None else UuidFrom(p.value.values)
  }

  lemma ParseFormattedTime(t: DateTime)
    requires ValidTime(t)
    ensures ParseTime(IsoFormat(t)) == Some(t)
  {
    TimeFits(t);
    var fraction := Write(FractionLayout(), Cons(t.micro, Nil));
    var rest := (if t.micro == 0 then "" else fraction) + UTC;
    ReadWrite(SecondsLayout(), SecondsValues(t), rest);
    ReadWrite(FractionLayout(), Cons(t.micro, Nil), UTC);
    assert IsoFormat(t) == Write(SecondsLayout(), SecondsValues(t)) + rest;
    if t.micro != 0 {
      assert rest[0] == '.';
    }
  }

  lemma ParseFormattedUuid(u: Uuid)
    requires ValidUuid(u)
    ensures ParseUuid(UuidText(u)) == Some(u)
  {
    UuidFits(u);
    ReadWrite(UuidLayout(), UuidValues(u), "");
    assert UuidText(u) + "" == UuidText(u);
  }

  // ---------------------------------------------------------------- bytes

  predicate Ascii(s: string) {
    forall c :: c in s ==> (c as int) < 128
  }

  function ToBytes(s: string): seq<Byte>
    requires Ascii(s)
  {
    seq<Byte>(|s|, i requires 0 <= i < |s| => assert s[i] in s; s[i] as Byte)
  }

  function FromBytes(b: seq<Byte>): Option<string> {
    if forall i :: 0 <= i < |b| ==> b[i] < 128 then Some(seq(|b|, i requires 0 <= i < |b| => b[i] as char)) else None
  }

  lemma BytesRoundTrip(s: string)
    requires Ascii(s)
    ensures FromBytes(ToBytes(s)) == Some(s)
  {
    var b := ToBytes(s);
    forall i | 0 <= i < |b| ensures b[i] < 128 && b[i] as char == s[i] {
      assert s[i] in s;
    }
    assert FromBytes(b).value == s;
  }

  /** Written timestamps and ids are ASCII, and a timestamp has no bar. */
  lemma TextIsPlain(t: DateTime, u: Uuid)
    requires ValidTime(t) && ValidUuid(u)
    ensures Ascii(IsoFormat(t)) && Ascii(UuidText(u)) && '|' !in IsoFormat(t)
  {
    TimeFits(t);
    UuidFits(u);
    forall c | c in Write(SecondsLayout(), SecondsValues(t)) ensures (c as int) < 128 && c != '|' {
      WrittenIsPlain(SecondsLayout(), SecondsValues(t), c);
      LayoutLiterals();
    }
    forall c | c in Write(FractionLayout(), Cons(t.micro, Nil)) ensures (c as int) < 128 && c != '|' {
      WrittenIsPlain(FractionLayout(), Cons(t.micro, Nil), c);
    }
    forall c | c in UuidText(u) ensures (c as int) < 128 {
      WrittenIsPlain(UuidLayout(), UuidValues(u), c);
      LayoutLiterals();
    }
  }

  lemma LayoutLiterals()
    ensures Literals(SecondsLayout()) == {'-', 'T', ':'} && Literals(FractionLayout()) == {'.'} &&
            Literals(UuidLayout()) == {'-'}
  {
  }

  // ---------------------------------------------------------------- cursors

  datatype Position = Position(at: DateTime, id: Uuid)

  predicate ValidPosition(p: Position) {
    ValidTime(p.at) && ValidUuid(p.id)
  }

  function CursorBytes(p: Position): seq<Byte>
    requires ValidPosition(p)
  {
    TextIsPlain(p.at, p.id);
    ToBytes(IsoFormat(p.at) + "|" + UuidText(p.id))
  }

  function EncodeCursor(p: Position): string
    requires ValidPosition(p)
  {
    Encode(CursorBytes(p))
  }

  /** Where the first bar is, or the length of the text. */
  function BarIndex(s: string): (k: nat)
    ensures k <= |s|
  {
    if s == "" || s[0] == '|' then 0 else 1 + BarIndex(s[1..])
  }

  function ParseText(text: string): Option<Position> {
    var k := BarIndex(text);
    if k == |text| then None
    else
      var at, id := ParseTime(text[..k]), ParseUuid(text[k + 1..]);
      if at.None? || id.None? || at.value.year < 1970 || at.value.year > 9999 then None
      else Some(Position(at.value, id.value))
  }

  /** `decode_cursor`: None stands for the 400 response. */
  function DecodeCursor(cursor: string): Option<Position> {
    var bytes := Decode(Repad(cursor));
    var text := if bytes.Some? then FromBytes(bytes.value) else None;
    if text.None? then None else ParseText(text.value)
  }

  lemma {:induction false} BarAfter(a: string, b: string)
    requires '|' !in a
    ensures BarIndex(a + "|" + b) == |a|
    decreases |a|
  {
    if a == "" {
      assert ("" + "|" + b)[0] == '|';
    } else {
      assert (a + "|" + b)[1..] == a[1..] + "|" + b;
      BarAfter(a[1..], b);
    }
  }

  lemma ParseWrittenText(p: Position)
    requires ValidPosition(p)
    ensures ParseText(IsoFormat(p.at) + "|" + UuidText(p.id)) == if p.at.year < 1970 then None else Some(p)
  {
    var a, b := IsoFormat(p.at), UuidText(p.id);
    var text := a + "|" + b;
    TextIsPlain(p.at, p.id);
    BarAfter(a, b);
    assert text[..|a|] == a && text[|a| + 1..] == b;
    ParseFormattedTime(p.at);
    ParseFormattedUuid(p.id);
  }

  lemma DecodeBytes(cursor: string, bytes: seq<Byte>, text: string)
    requires Repad(cursor) == Encode(bytes) && FromBytes(bytes) == Some(text)
    ensures DecodeCursor(cursor) == ParseText(text)
  {
    DecodeEncode(bytes);
  }

  /**
   The cursor round trip: decoding an encoded position, with all, some or none of the padding
   stripped, gives the position back if and only if its year is 1970 or later; an earlier
   one is refused.
   */
  lemma CursorRoundTrip(p: Position, stripped: nat)
    requires ValidPosition(p) && stripped <= PaddingLength(CursorBytes(p))
    ensures stripped <= |EncodeCursor(p)|
    ensures DecodeCursor(EncodeCursor(p)[..|EncodeCursor(p)| - stripped]) == if p.at.year < 1970 then None else Some(p)
  {
    var text := IsoFormat(p.at) + "|" + UuidText(p.id);
    TextIsPlain(p.at, p.id);
    RepadRestores(CursorBytes(p), stripped);
    BytesRoundTrip(text);
    ParseWrittenText(p);
    DecodeBytes(EncodeCursor(p)[..|EncodeCursor(p)| - stripped], CursorBytes(p), text);
  }
}
