/**
 The base 64 encoding with the URL and filename safe alphabet, section 5 of RFC 4648, and the
 re-padding that lets a decoder accept text whose padding was stripped.
 */
module Base64Url {
  import opened Options

  type Byte = n: nat | n < 256 witness 0

  function Symbol(n: nat): char
    requires n < 64
  {
    if n < 26 then 'A' + n as char
    else if n < 52 then 'a' + (n - 26) as char
    else if n < 62 then '0' + (n - 52) as char
    else if n == 62 then '-' else '_'
  }

  function Value(c: char): (v: Option<nat>)
    ensures v.Some? ==> v.value < 64
  {
    if 'A' <= c <= 'Z' then Some((c - 'A') as nat)
    else if 'a' <= c <= 'z' then Some((c - 'a') as nat + 26)
    else if '0' <= c <= '9' then Some((c - '0') as nat + 52)
    else if c == '-' then Some(62)
    else if c == '_' then Some(63)
    else None
  }

  lemma SymbolValue(n: nat)
    requires n < 64
    ensures Value(Symbol(n)) == Some(n) && Symbol(n) != '='
  {
  }

  /** Three bytes as four symbols. */
  function Group(x: Byte, y: Byte, z: Byte): string {
    [Symbol(x / 4), Symbol(x % 4 * 16 + y / 16), Symbol(y % 16 * 4 + z / 64), Symbol(z % 64)]
  }

  function Encode(b: seq<Byte>): string {
    if |b| == 0 then ""
    else if |b| == 1 then [Symbol(b[0] / 4), Symbol(b[0] % 4 * 16), '=', '=']
    else if |b| == 2 then [Symbol(b[0] / 4), Symbol(b[0] % 4 * 16 + b[1] / 16), Symbol(b[1] % 16 * 4), '=']
    else Group(b[0], b[1], b[2]) + Encode(b[3..])
  }

  /** Test vectors of section 10 of RFC 4648, and the two symbols in which the URL safe alphabet differs. */
  lemma Vectors()
    ensures Encode([102]) == "Zg==" && Encode([102, 111]) == "Zm8=" && Encode([102, 111, 111]) == "Zm9v"
    ensures Encode([251, 255]) == "-_8="
  {
    assert [102, 111, 111][3..] == [];
  }

  /** One byte from two symbols, two from three, three from four. */
  function First(v: nat, w: nat): Byte
    requires v < 64 && w < 64
  {
    v * 4 + w / 16
  }

  function Second(v: nat, w: nat): Byte
    requires v < 64 && w < 64
  {
    v % 16 * 16 + w / 4
  }

  function Third(v: nat, w: nat): Byte
    requires v < 64 && w < 64
  {
    v % 4 * 64 + w
  }

  function Decode(s: string): Option<seq<Byte>> {
    if s == "" then Some([])
    else if |s| < 4 then None
    else
      var v0, v1, v2, v3 := Value(s[0]), Value(s[1]), Value(s[2]), Value(s[3]);
      if v0.None? || v1.None? then None
      else if |s| == 4 && s[2] == '=' && s[3] == '=' then Some([First(v0.value, v1.value)])
      else if v2.None? then None
      else if |s| == 4 && s[3] == '=' then Some([First(v0.value, v1.value), Second(v1.value, v2.value)])
      else if v3.None? then None
      else
        var rest := Decode(s[4..]);
        if rest.None? then None
        else Some([First(v0.value, v1.value), Second(v1.value, v2.value), Third(v2.value, v3.value)] + rest.value)
  }

  /** The three byte functions undo how the encoder splits bytes. */
  lemma GroupArithmetic(x: Byte, y: Byte, z: Byte)
    ensures First(x / 4, x % 4 * 16 + y / 16) == x && First(x / 4, x % 4 * 16) == x
    ensures Second(x % 4 * 16 + y / 16, y % 16 * 4 + z / 64) == y && Second(x % 4 * 16 + y / 16, y % 16 * 4) == y
    ensures Third(y % 16 * 4 + z / 64, z % 64) == z
  {
  }

  /** Decoding one full group and the text after it. */
  lemma DecodeGroup(a: nat, b: nat, c: nat, d: nat, rest: string)
    requires a < 64 && b < 64 && c < 64 && d < 64 && Decode(rest).Some?
    ensures Decode([Symbol(a), Symbol(b), Symbol(c), Symbol(d)] + rest) ==
            Some([First(a, b), Second(b, c), Third(c, d)] + Decode(rest).value)
  {
    SymbolValue(a);
    SymbolValue(b);
    SymbolValue(c);
    SymbolValue(d);
    assert ([Symbol(a), Symbol(b), Symbol(c), Symbol(d)] + rest)[4..] == rest;
  }

  lemma DecodeTail(a: nat, b: nat, c: nat)
    requires a < 64 && b < 64 && c < 64
    ensures Decode([Symbol(a), Symbol(b), '=', '=']) == Some([First(a, b)])
    ensures Decode([Symbol(a), Symbol(b), Symbol(c), '=']) == Some([First(a, b), Second(b, c)])
  {
    SymbolValue(a);
    SymbolValue(b);
    SymbolValue(c);
  }

  lemma OneByte(x: Byte)
    ensures Decode(Encode([x])) == Some([x])
  {
    GroupArithmetic(x, 0, 0);
    DecodeTail(x / 4, x % 4 * 16, 0);
  }

  lemma TwoBytes(x: Byte, y: Byte)
    ensures Decode(Encode([x, y])) == Some([x, y])
  {
    var a, b, c := x / 4, x % 4 * 16 + y / 16, y % 16 * 4;
    assert Encode([x, y]) == [Symbol(a), Symbol(b), Symbol(c), '='];
    assert First(a, b) == x && Second(b, c) == y by {
      GroupArithmetic(x, y, 0);
    }
    DecodeTail(a, b, c);
  }

  lemma ThreeBytes(x: Byte, y: Byte, z: Byte, rest: string)
    requires Decode(rest).Some?
    ensures Decode(Group(x, y, z) + rest) == Some([x, y, z] + Decode(rest).value)
  {
    GroupArithmetic(x, y, z);
    DecodeGroup(x / 4, x % 4 * 16 + y / 16, y % 16 * 4 + z / 64, z % 64, rest);
  }

  lemma MoreBytes(b: seq<Byte>, s: string, rest: string)
    requires |b| >= 3 && s == Group(b[0], b[1], b[2]) + rest && Decode(rest) == Some(b[3..])
    ensures Decode(s) == Some(b)
  {
    ThreeBytes(b[0], b[1], b[2], rest);
    assert b == [b[0], b[1], b[2]] + b[3..];
  }

  /** Decoding undoes encoding, for every sequence of bytes. */
  lemma {:induction false} DecodeEncode(b: seq<Byte>)
    ensures Decode(Encode(b)) == Some(b)
    decreases |b|
  {
    if |b| == 1 {
      assert b == [b[0]];
      OneByte(b[0]);
    } else if |b| == 2 {
      assert b == [b[0], b[1]];
      TwoBytes(b[0], b[1]);
    } else if |b| >= 3 {
      DecodeEncode(b[3..]);
      MoreBytes(b, Encode(b), Encode(b[3..]));
    }
  }

  function Padding(n: nat): string {
    if n == 0 then "" else "=" + Padding(n - 1)
  }

  /** The text with enough padding to make its length a multiple of four. */
  function Repad(s: string): string {
    s + Padding((4 - |s| % 4) % 4)
  }

  lemma {:induction false} EncodedLength(b: seq<Byte>)
    ensures |Encode(b)| % 4 == 0
    decreases |b|
  {
    if |b| >= 3 {
      EncodedLength(b[3..]);
    }
  }

  /** The padding of an encoding is its last 0, 1 or 2 characters. */
  function PaddingLength(b: seq<Byte>): nat {
    (3 - |b| % 3) % 3
  }

  lemma {:induction false} EncodingEndsInPadding(b: seq<Byte>, k: nat)
    requires k <= PaddingLength(b)
    ensures k <= |Encode(b)| && Encode(b)[|Encode(b)| - k..] == Padding(k)
    decreases |b|
  {
    assert Padding(1) == "=" && Padding(2) == "==";
    if |b| == 1 {
      assert Encode(b)[2..] == "==" && Encode(b)[3..] == "=";
    } else if |b| == 2 {
      assert Encode(b)[3..] == "=";
    } else if |b| >= 3 {
      EncodingEndsInPadding(b[3..], k);
      var rest := Encode(b[3..]);
      assert Encode(b)[4..] == rest;
      assert Encode(b)[|Encode(b)| - k..] == rest[|rest| - k..];
    }
  }

  lemma RepadAmount(length: nat, k: nat)
    requires length % 4 == 0 && k <= 2 && k <= length
    ensures (4 - (length - k) % 4) % 4 == k
  {
  }

  /** However much of the padding was stripped, re-padding restores the encoding. */
  lemma RepadRestores(b: seq<Byte>, k: nat)
    requires k <= PaddingLength(b)
    ensures k <= |Encode(b)| && Repad(Encode(b)[..|Encode(b)| - k]) == Encode(b)
  {
    EncodedLength(b);
    EncodingEndsInPadding(b, k);
    var s := Encode(b);
    var cut := s[..|s| - k];
    RepadAmount(|s|, k);
    assert s == cut + s[|s| - k..];
  }
}
