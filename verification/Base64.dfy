/** The unpadded URL alphabet of section 5 of RFC 4648, decoded as Go does outside strict mode:
    line breaks are skipped and the spare bits of the last character are ignored. */
module Base64 {
  import opened Wrappers

  type Byte = x: int | 0 <= x < 0x100

  type Bytes = seq<Byte>

  type Sextet = x: int | 0 <= x < 64

  function Letter(n: Sextet): char {
    if n < 26 then 'A' + n as char
    else if n < 52 then 'a' + (n - 26) as char
    else if n < 62 then '0' + (n - 52) as char
    else if n == 62 then '-'
    else '_'
  }

  function Value(c: char): Option<Sextet> {
    if 'A' <= c <= 'Z' then Some((c - 'A') as int)
    else if 'a' <= c <= 'z' then Some(26 + (c - 'a') as int)
    else if '0' <= c <= '9' then Some(52 + (c - '0') as int)
    else if c == '-' then Some(62)
    else if c == '_' then Some(63)
    else None
  }

  lemma LetterValue(n: Sextet)
    ensures Value(Letter(n)) == Some(n) && Letter(n) != '.' && Letter(n) != '\r' && Letter(n) != '\n'
  {
  }

  // Three bytes are four characters' worth of bits, and back.

  function First(x: Byte): Sextet {
    x / 4
  }

  function Second(x: Byte, y: Byte): Sextet {
    x % 4 * 16 + y / 16
  }

  function Third(y: Byte, z: Byte): Sextet {
    y % 16 * 4 + z / 64
  }

  function Fourth(z: Byte): Sextet {
    z % 64
  }

  function High(p: Sextet, q: Sextet): Byte {
    p * 4 + q / 16
  }

  function Middle(q: Sextet, r: Sextet): Byte {
    q % 16 * 16 + r / 4
  }

  function Low(r: Sextet, s: Sextet): Byte {
    r % 4 * 64 + s
  }

  lemma HighBack(x: Byte, y: Byte)
    ensures High(First(x), Second(x, y)) == x
  {
  }

  lemma MiddleBack(x: Byte, y: Byte, z: Byte)
    ensures Middle(Second(x, y), Third(y, z)) == y
  {
    LowPart(x % 4, y / 16);
    HighPart(y % 16, z / 64);
    assert y / 16 * 16 + y % 16 == y;
    hide *;
    MiddleIs(x, y, z);
  }

  lemma LowPart(a: nat, low: nat)
    requires low < 16
    ensures (a * 16 + low) % 16 == low
  {
  }

  lemma HighPart(a: nat, low: nat)
    requires low < 4
    ensures (a * 4 + low) / 4 == a
  {
  }

  lemma MiddleIs(x: Byte, y: Byte, z: Byte)
    ensures Middle(Second(x, y), Third(y, z)) == (x % 4 * 16 + y / 16) % 16 * 16 + (y % 16 * 4 + z / 64) / 4
  {
  }

  lemma LowBack(y: Byte, z: Byte)
    ensures Low(Third(y, z), Fourth(z)) == z
  {
  }

  /** How many values the spare bits of the last character have. */
  function Spare(length: nat): nat {
    if length % 3 == 0 then 1 else if length % 3 == 1 then 16 else 4
  }

  /** The text of the bytes with `spare` in the last character's spare bits. */
  function EncodeAs(b: Bytes, spare: nat): string
    requires spare < Spare(|b|)
  {
    if b == [] then ""
    else if |b| == 1 then [Letter(First(b[0])), Letter(Second(b[0], spare * 16))]
    else if |b| == 2 then [Letter(First(b[0])), Letter(Second(b[0], b[1])), Letter(Third(b[1], spare * 64))]
    else [Letter(First(b[0])), Letter(Second(b[0], b[1])), Letter(Third(b[1], b[2])), Letter(Fourth(b[2]))] + EncodeAs(b[3..], spare)
  }

  /** `EncodeToString` */
  function Encode(b: Bytes): string {
    EncodeAs(b, 0)
  }

  function WithoutBreaks(s: string): string {
    if s == "" then "" else (if s[0] == '\r' || s[0] == '\n' then "" else [s[0]]) + WithoutBreaks(s[1..])
  }

  function DecodeSolid(s: string): Option<Bytes> {
    if s == "" then Some([])
    else if |s| == 1 || Value(s[0]).None? || Value(s[1]).None? then None
    else
      var x, y := Value(s[0]).value, Value(s[1]).value;
      if |s| == 2 then Some([High(x, y)])
      else if Value(s[2]).None? then None
      else
        var z := Value(s[2]).value;
        if |s| == 3 then Some([High(x, y), Middle(y, z)])
        else if Value(s[3]).None? then None
        else
          var rest := DecodeSolid(s[4..]);
          if rest.None? then None else Some([High(x, y), Middle(y, z), Low(z, Value(s[3]).value)] + rest.value)
  }

  /** `DecodeString` */
  function Decode(s: string): Option<Bytes> {
    DecodeSolid(WithoutBreaks(s))
  }

  lemma {:induction false} AlphabetOnly(b: Bytes, spare: nat)
    requires spare < Spare(|b|)
    ensures forall c :: c in EncodeAs(b, spare) ==> c != '.' && c != '\r' && c != '\n'
    decreases |b|
  {
    if |b| > 2 {
      AlphabetOnly(b[3..], spare);
    }
  }

  lemma {:induction false} NothingToSkip(s: string)
    requires '\r' !in s && '\n' !in s
    ensures WithoutBreaks(s) == s
  {
    if s != "" {
      assert s[0] in s && forall c :: c in s[1..] ==> c in s;
      NothingToSkip(s[1..]);
    }
  }

  /** Whatever is in the spare bits, the bytes come back. */
  lemma {:induction false} DecodesSolid(b: Bytes, spare: nat)
    requires spare < Spare(|b|)
    ensures DecodeSolid(EncodeAs(b, spare)) == Some(b)
    decreases |b|
  {
    hide Letter, Value, First, Second, Third, Fourth, High, Middle, Low, DecodeSolid;
    if |b| > 2 {
      DecodesSolid(b[3..], spare);
      QuantumDecodes(b[0], b[1], b[2], EncodeAs(b[3..], spare), b[3..]);
      assert [b[0], b[1], b[2]] + b[3..] == b;
    } else if |b| == 2 {
      PairDecodes(b[0], b[1], spare * 64);
      assert b == [b[0], b[1]];
    } else if |b| == 1 {
      OneDecodes(b[0], spare * 16);
      assert b == [b[0]];
    } else {
      NothingDecodes();
    }
  }

  lemma NothingDecodes()
    ensures DecodeSolid("") == Some([])
  {
  }

  lemma OneDecodes(x: Byte, next: Byte)
    ensures DecodeSolid([Letter(First(x)), Letter(Second(x, next))]) == Some([x])
  {
    HighBack(x, next);
    LetterValue(First(x));
    LetterValue(Second(x, next));
    hide Letter, Value, First, Second, High;
  }

  lemma PairDecodes(x: Byte, y: Byte, next: Byte)
    ensures DecodeSolid([Letter(First(x)), Letter(Second(x, y)), Letter(Third(y, next))]) == Some([x, y])
  {
    HighBack(x, y);
    MiddleBack(x, y, next);
    LetterValue(First(x));
    LetterValue(Second(x, y));
    LetterValue(Third(y, next));
    hide Letter, Value, First, Second, Third, High, Middle;
  }

  lemma QuantumDecodes(x: Byte, y: Byte, z: Byte, rest: string, bytes: Bytes)
    requires DecodeSolid(rest) == Some(bytes)
    ensures DecodeSolid([Letter(First(x)), Letter(Second(x, y)), Letter(Third(y, z)), Letter(Fourth(z))] + rest) == Some([x, y, z] + bytes)
  {
    HighBack(x, y);
    MiddleBack(x, y, z);
    LowBack(y, z);
    LetterValue(First(x));
    LetterValue(Second(x, y));
    LetterValue(Third(y, z));
    LetterValue(Fourth(z));
    hide Letter, Value, First, Second, Third, Fourth, High, Middle, Low;
    assert ([Letter(First(x)), Letter(Second(x, y)), Letter(Third(y, z)), Letter(Fourth(z))] + rest)[4..] == rest;
  }

  lemma DecodesAs(b: Bytes, spare: nat)
    requires spare < Spare(|b|)
    ensures Decode(EncodeAs(b, spare)) == Some(b)
  {
    AlphabetOnly(b, spare);
    NothingToSkip(EncodeAs(b, spare));
    DecodesSolid(b, spare);
  }

  lemma EncodedPlainly(b: Bytes)
    ensures 0 < Spare(|b|) && Encode(b) == EncodeAs(b, 0)
  {
  }

  /** Different spare bits are different texts. */
  lemma {:induction false} SpareShows(b: Bytes)
    requires |b| % 3 == 2
    ensures EncodeAs(b, 1) != EncodeAs(b, 0)
    decreases |b|
  {
    if |b| == 2 {
      assert Third(b[1], 64) != Third(b[1], 0);
      LetterValue(Third(b[1], 64));
      LetterValue(Third(b[1], 0));
      hide Letter, Value, First, Second, Third, Fourth;
      assert EncodeAs(b, 1)[2] != EncodeAs(b, 0)[2];
    } else {
      SpareShows(b[3..]);
      hide Letter, First, Second, Third, Fourth;
      assert EncodeAs(b, 1)[4..] == EncodeAs(b[3..], 1) && EncodeAs(b, 0)[4..] == EncodeAs(b[3..], 0);
    }
  }
}
