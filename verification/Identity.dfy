/** Identities as text: thirty-two hexadecimal digits. */
module Identity {
  import opened Base
  import opened Entry
  import opened Wire

  /******* Digits *******/

  /** The lower-case ASCII digit for `n`. */
  function Digit(n: nat): (c: Byte)
    requires n < 16
    ensures Nibble(c) == Some(n)
  {
    if n < 10 then 48 + n else 87 + n
  }

  /** The value of an ASCII hexadecimal digit of either case. */
  function Nibble(c: Byte): (n: Option<nat>)
    ensures n.Some? ==> n.value < 16
  {
    if 48 <= c <= 57 then Some(c - 48)
    else if 97 <= c <= 102 then Some(c - 87)
    else if 65 <= c <= 70 then Some(c - 55)
    else None
  }

  predicate AllHex(s: Bytes) {
    forall i :: 0 <= i < |s| ==> Nibble(s[i]).Some?
  }

  function LowerCase(c: Byte): Byte { if 65 <= c <= 90 then c + 32 else c }

  function Lowered(s: Bytes): (r: Bytes)
    ensures |r| == |s| && forall i :: 0 <= i < |s| ==> r[i] == LowerCase(s[i])
  {
    seq(|s|, i requires 0 <= i < |s| => LowerCase(s[i]))
  }

  function Power16(n: nat): nat { if n == 0 then 1 else 16 * Power16(n - 1) }

  /** The number that a string of digits denotes. */
  function NumberOf(s: Bytes): nat
    requires AllHex(s)
  {
    if s == [] then 0 else 16 * NumberOf(s[..|s| - 1]) + Nibble(s[|s| - 1]).value
  }

  /** The last `n` digits of `v`. */
  function Digits(v: nat, n: nat): (s: Bytes)
    ensures |s| == n
  {
    if n == 0 then [] else Digits(v / 16, n - 1) + [Digit(v % 16)]
  }

  lemma {:induction false} DigitsAreHex(v: nat, n: nat)
    ensures AllHex(Digits(v, n))
  {
    if n == 0 {
    } else {
      DigitsAreHex(v / 16, n - 1);
    }
  }

  lemma {:induction false} NumberOfDigits(v: nat, n: nat)
    requires v < Power16(n)
    ensures AllHex(Digits(v, n)) && NumberOf(Digits(v, n)) == v
  {
    DigitsAreHex(v, n);
    if n == 0 {
    } else {
      NumberOfDigits(v / 16, n - 1);
      assert Digits(v, n)[..n - 1] == Digits(v / 16, n - 1);
    }
  }

  lemma {:induction false} DigitsOfNumber(s: Bytes)
    requires AllHex(s)
    ensures NumberOf(s) < Power16(|s|) && Digits(NumberOf(s), |s|) == Lowered(s)
  {
    if s == [] {
    } else {
      var n := |s| - 1;
      DigitsOfNumber(s[..n]);
      assert Lowered(s) == Lowered(s[..n]) + [LowerCase(s[n])];
    }
  }

  lemma Power16Of16()
    ensures Power16(16) == U64_MODULUS
  {
    Power16Of8();
    assert Power16(12) == 0x1_0000_0000_0000;
  }

  /******* Parsing and printing *******/

  function Parse(hex: Bytes): Option<Id> {
    if |hex| != 32 || !AllHex(hex) then None else
    DigitsOfNumber(hex[..16]);
    DigitsOfNumber(hex[16..]);
    Power16Of16();
    Some(Id(NumberOf(hex[..16]), NumberOf(hex[16..])))
  }

  function ToString(x: Id): Bytes { Digits(x.hi, 16) + Digits(x.lo, 16) }

  /** Every identity survives printing and parsing. */
  lemma ParseToString(x: Id)
    ensures |ToString(x)| == 32 && Parse(ToString(x)) == Some(x)
  {
    hide Digits, NumberOf, Nibble, Power16;
    Power16Of16();
    NumberOfDigits(x.hi, 16);
    NumberOfDigits(x.lo, 16);
    var s := ToString(x);
    assert s[..16] == Digits(x.hi, 16) && s[16..] == Digits(x.lo, 16);
    forall i | 0 <= i < |s| ensures Nibble(s[i]).Some? {
      assert i < 16 ==> s[i] == s[..16][i];
      assert i >= 16 ==> s[i] == s[16..][i - 16];
    }
  }

  /** What parses is thirty-two digits, and prints back as itself in lower case. */
  lemma ToStringParse(hex: Bytes)
    ensures Parse(hex).Some? <==> |hex| == 32 && AllHex(hex)
    ensures Parse(hex).Some? ==> ToString(Parse(hex).value) == Lowered(hex)
  {
    hide Digits, NumberOf, Power16;
    if |hex| == 32 && AllHex(hex) {
      DigitsOfNumber(hex[..16]);
      DigitsOfNumber(hex[16..]);
      assert Lowered(hex) == Lowered(hex[..16]) + Lowered(hex[16..]);
    }
  }

  lemma ToStringInjective(x: Id, y: Id)
    requires ToString(x) == ToString(y)
    ensures x == y
  {
    hide ToString, Parse;
    ParseToString(x);
    ParseToString(y);
  }

  /******* As it runs *******/

  /** The half that starts at `start`, when the digits before `i` have been placed. */
  function Placed(hex: Bytes, start: nat, i: nat): nat
    requires start <= i <= start + 16 <= |hex| && AllHex(hex[..i])
  {
    AllHexWithin(hex, start, i);
    NumberOf(hex[start..i]) * Power16(start + 16 - i)
  }

  lemma AllHexWithin(hex: Bytes, start: nat, i: nat)
    requires start <= i <= |hex| && AllHex(hex[..i])
    ensures AllHex(hex[start..i])
  {
    forall k | 0 <= k < i - start ensures Nibble(hex[start..i][k]).Some? {
      assert hex[start..i][k] == hex[..i][start + k];
    }
  }

  lemma PlaceOne(hex: Bytes, start: nat, i: nat)
    requires start <= i < start + 16 <= |hex| && AllHex(hex[..i + 1])
    ensures AllHex(hex[..i])
    ensures Placed(hex, start, i + 1) == Placed(hex, start, i) + Nibble(hex[i]).value * Power16(start + 15 - i)
    ensures Placed(hex, start, start) == 0
  {
    hide Nibble, Power16;
    assert forall k :: 0 <= k < i ==> hex[..i][k] == hex[..i + 1][k];
    AllHexWithin(hex, start, i);
    AllHexWithin(hex, start, i + 1);
    assert hex[start..i + 1][..i - start] == hex[start..i];
    PlaceArithmetic(NumberOf(hex[start..i]), Nibble(hex[i]).value, start + 15 - i);
  }

  lemma PlaceArithmetic(a: nat, b: nat, n: nat)
    ensures (16 * a + b) * Power16(n) == a * Power16(n + 1) + b * Power16(n)
  {
    var p := Power16(n);
    assert (16 * a + b) * p == (16 * a) * p + b * p;
    assert (16 * a) * p == a * (16 * p);
  }

  /** Or-ing a digit into bits not yet set adds it. */
  method ParseHex(hex: Bytes) returns (out: Option<Id>)
    ensures out == Parse(hex)
  {
    hide Digits, Nibble, Placed, Power16, NumberOf;
    if |hex| != 32 { return None; }
    var hi, lo := 0, 0;
    for i := 0 to 32
      invariant AllHex(hex[..i])
      invariant i <= 16 ==> (i == 0 && hi == 0) || (i > 0 && hi == Placed(hex, 0, i))
      invariant i <= 16 ==> lo == 0
      invariant i > 16 ==> AllHex(hex[..16]) && hi == Placed(hex, 0, 16) && lo == Placed(hex, 16, i)
    {
      var nib := Nibble(hex[i]);
      if nib.None? { return None; }
      assert forall k :: 0 <= k < i ==> hex[..i + 1][k] == hex[..i][k];
      if i < 16 {
        PlaceOne(hex, 0, i);
        hi := hi + nib.value * Power16(15 - i);
      } else {
        PlaceOne(hex, 16, i);
        lo := lo + nib.value * Power16(31 - i);
      }
    }
    assert hex[..32] == hex && hex[16..32] == hex[16..];
    AllPlaced(hex);
    out := Some(Id(hi, lo));
  }

  lemma AllPlaced(hex: Bytes)
    requires |hex| == 32 && AllHex(hex)
    ensures AllHex(hex[..16]) && AllHex(hex[..32])
    ensures Parse(hex).Some? && Parse(hex).value.hi == Placed(hex, 0, 16) && Parse(hex).value.lo == Placed(hex, 16, 32)
  {
    hide NumberOf, Digits;
    DigitsOfNumber(hex[..16]);
    DigitsOfNumber(hex[16..]);
    Power16Of16();
    assert hex[..32] == hex && hex[16..32] == hex[16..] && hex[0..16] == hex[..16];
    assert Power16(0) == 1;
  }

  /** Two digits for every byte of the big-endian form. */
  method PrintHex(x: Id) returns (s: Bytes)
    ensures s == ToString(x)
  {
    hide Digits, Digit, PutId;
    var buf := PutId(x);
    s := [];
    for i := 0 to 16
      invariant s == HexOf(buf[..i])
    {
      assert buf[..i + 1][..i] == buf[..i];
      s := s + [Digit(buf[i] / 16), Digit(buf[i] % 16)];
    }
    assert buf[..16] == buf;
    HexOfId(x);
  }

  function HexOf(bytes: Bytes): Bytes {
    if bytes == [] then [] else
    var b := bytes[|bytes| - 1];
    HexOf(bytes[..|bytes| - 1]) + [Digit(b / 16), Digit(b % 16)]
  }

  /** The last `n` bytes of `v`. */
  function BigEndian(v: nat, n: nat): (s: Bytes)
    ensures |s| == n
  {
    if n == 0 then [] else BigEndian(v / 256, n - 1) + [v % 256]
  }

  lemma Nibbles(v: nat)
    ensures v / 16 / 16 == v / 256 && v % 256 / 16 == v / 16 % 16 && v % 256 % 16 == v % 16
  {
  }

  lemma {:induction false} HexOfBigEndian(v: nat, n: nat)
    ensures HexOf(BigEndian(v, n)) == Digits(v, 2 * n)
  {
    if n == 0 {
    } else {
      HexOfBigEndian(v / 256, n - 1);
      assert BigEndian(v, n)[..n - 1] == BigEndian(v / 256, n - 1);
      Nibbles(v);
      assert Digits(v, 2 * n) == Digits(v / 16 / 16, 2 * n - 2) + [Digit(v / 16 % 16)] + [Digit(v % 16)];
    }
  }

  lemma Quotients(v: nat)
    ensures v / 256 / 256 == v / 0x1_0000 && v / 0x1_0000 / 256 == v / 0x100_0000
  {
  }

  lemma PutU32IsBigEndian(v: U32)
    ensures PutU32(v) == BigEndian(v, 4)
  {
    Quotients(v);
    var a, b, c := v / 256, v / 0x1_0000, v / 0x100_0000;
    assert BigEndian(c, 1) == [c % 256] && BigEndian(b, 2) == BigEndian(c, 1) + [b % 256];
    assert BigEndian(a, 3) == BigEndian(b, 2) + [a % 256] && BigEndian(v, 4) == BigEndian(a, 3) + [v % 256];
    assert c % 256 == c;
  }

  lemma {:induction false} HexOfConcat(a: Bytes, b: Bytes)
    ensures HexOf(a + b) == HexOf(a) + HexOf(b)
    decreases |b|
  {
    hide Digit;
    if b == [] {
      assert a + b == a;
    } else {
      var n := |b| - 1;
      HexOfConcat(a, b[..n]);
      assert (a + b)[..|a + b| - 1] == a + b[..n];
      var pair := [Digit(b[n] / 16), Digit(b[n] % 16)];
      assert HexOf(a) + (HexOf(b[..n]) + pair) == HexOf(a) + HexOf(b[..n]) + pair;
    }
  }

  lemma HexOfU32(v: U32)
    ensures HexOf(PutU32(v)) == Digits(v, 8)
  {
    hide HexOf, Digits, PutU32, BigEndian;
    PutU32IsBigEndian(v);
    HexOfBigEndian(v, 4);
  }

  /** `x` followed by `n` zero digits. */
  function Shifted(x: nat, n: nat): nat {
    if n == 0 then x else 16 * Shifted(x, n - 1)
  }

  lemma {:induction false} NumberOfConcat(a: Bytes, b: Bytes)
    requires AllHex(a) && AllHex(b)
    ensures AllHex(a + b) && NumberOf(a + b) == Shifted(NumberOf(a), |b|) + NumberOf(b)
    decreases |b|
  {
    hide Nibble;
    if b == [] {
      assert a + b == a;
    } else {
      var n := |b| - 1;
      NumberOfConcat(a, b[..n]);
      assert (a + b)[..|a + b| - 1] == a + b[..n];
    }
  }

  lemma ShiftedBy8(x: nat)
    ensures Shifted(x, 8) == x * 0x1_0000_0000
  {
    assert Shifted(x, 1) == x * 0x10;
    assert Shifted(x, 2) == x * 0x100;
    assert Shifted(x, 4) == x * 0x1_0000;
    assert Shifted(x, 6) == x * 0x100_0000;
  }

  lemma {:induction false} DigitsAreLower(v: nat, n: nat)
    ensures Lowered(Digits(v, n)) == Digits(v, n)
  {
    if n == 0 {
    } else {
      DigitsAreLower(v / 16, n - 1);
    }
  }

  /** Two halves of eight digits are sixteen digits. */
  lemma DigitsOfHalves(hi: U32, lo: U32)
    ensures Digits(hi, 8) + Digits(lo, 8) == Digits(hi * 0x1_0000_0000 + lo, 16)
  {
    hide Digits, NumberOf, Power16, Shifted;
    var a, b := Digits(hi, 8), Digits(lo, 8);
    Power16Of8();
    ShiftedBy8(hi);
    NumberOfDigits(hi, 8);
    NumberOfDigits(lo, 8);
    NumberOfConcat(a, b);
    DigitsOfNumber(a + b);
    DigitsAreLower(hi, 8);
    DigitsAreLower(lo, 8);
    assert Lowered(a + b) == Lowered(a) + Lowered(b);
  }

  lemma Power16Of8()
    ensures Power16(8) == 0x1_0000_0000
  {
    assert Power16(4) == 0x1_0000;
  }

  lemma HexOfU64(v: U64)
    ensures HexOf(PutU64(v)) == Digits(v, 16)
  {
    hide HexOf, Digits, PutU32;
    var hi, lo := v / 0x1_0000_0000, v % 0x1_0000_0000;
    HexOfConcat(PutU32(hi), PutU32(lo));
    HexOfU32(hi);
    HexOfU32(lo);
    DigitsOfHalves(hi, lo);
  }

  lemma HexOfId(x: Id)
    ensures HexOf(PutId(x)) == ToString(x)
  {
    hide HexOf, Digits, PutU64;
    HexOfConcat(PutU64(x.hi), PutU64(x.lo));
    HexOfU64(x.hi);
    HexOfU64(x.lo);
  }
}
