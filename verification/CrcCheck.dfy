/** The register as a machine word, and the check value that catalogues of checksums
    list for this one: the checksum of the nine characters "123456789". */
module CrcCheck {
  import opened Base
  import opened Crc

  /******* Machine words *******/

  /** Bit `i` of a machine word. */
  predicate Bit(c: bv32, i: nat) {
    match i
    case 0 => c & 0x1 != 0 case 1 => c & 0x2 != 0 case 2 => c & 0x4 != 0
    case 3 => c & 0x8 != 0 case 4 => c & 0x10 != 0 case 5 => c & 0x20 != 0
    case 6 => c & 0x40 != 0 case 7 => c & 0x80 != 0 case 8 => c & 0x100 != 0
    case 9 => c & 0x200 != 0 case 10 => c & 0x400 != 0 case 11 => c & 0x800 != 0
    case 12 => c & 0x1000 != 0 case 13 => c & 0x2000 != 0 case 14 => c & 0x4000 != 0
    case 15 => c & 0x8000 != 0 case 16 => c & 0x1_0000 != 0 case 17 => c & 0x2_0000 != 0
    case 18 => c & 0x4_0000 != 0 case 19 => c & 0x8_0000 != 0 case 20 => c & 0x10_0000 != 0
    case 21 => c & 0x20_0000 != 0 case 22 => c & 0x40_0000 != 0 case 23 => c & 0x80_0000 != 0
    case 24 => c & 0x100_0000 != 0 case 25 => c & 0x200_0000 != 0 case 26 => c & 0x400_0000 != 0
    case 27 => c & 0x800_0000 != 0 case 28 => c & 0x1000_0000 != 0 case 29 => c & 0x2000_0000 != 0
    case 30 => c & 0x4000_0000 != 0
    case _ => c & 0x8000_0000 != 0
  }

  /** The bits of a machine word, least significant first. */
  function WordOf(c: bv32): (w: Word)
    ensures forall i :: 0 <= i < 32 ==> w[i] == Bit(c, i)
  {
    seq(32, i requires 0 <= i < 32 => Bit(c, i))
  }

  /******* The loop on machine words *******/

  /** One turn of the inner loop. */
  function Turn(c: bv32): bv32 { (c >> 1) ^ (0xEDB8_8320 & (0 - (c & 1))) }

  lemma PolynomialBit(i: nat)
    requires i < 32
    ensures Polynomial()[i] == Bit(0xEDB8_8320, i)
  {
    match i
    case 0 => case 1 => case 2 => case 3 => case 4 => case 5 => case 6 => case 7 =>
    case 8 => case 9 => case 10 => case 11 => case 12 => case 13 => case 14 => case 15 =>
    case 16 => case 17 => case 18 => case 19 => case 20 => case 21 => case 22 => case 23 =>
    case 24 => case 25 => case 26 => case 27 => case 28 => case 29 => case 30 => case _ =>
  }

  lemma TurnBit(c: bv32, i: nat)
    requires i < 32
    ensures Bit(Turn(c), i) == ((i < 31 && Bit(c, i + 1)) != (Bit(0xEDB8_8320, i) && Bit(c, 0)))
  {
    match i
    case 0 => case 1 => case 2 => case 3 => case 4 => case 5 => case 6 => case 7 =>
    case 8 => case 9 => case 10 => case 11 => case 12 => case 13 => case 14 => case 15 =>
    case 16 => case 17 => case 18 => case 19 => case 20 => case 21 => case 22 => case 23 =>
    case 24 => case 25 => case 26 => case 27 => case 28 => case 29 => case 30 => case _ =>
  }

  /** The word model takes the turns that the machine word takes. */
  lemma TurnIsBitStep(c: bv32)
    ensures WordOf(Turn(c)) == BitStep(WordOf(c))
  {
    hide Turn, Bit, WordOf, Polynomial;
    var w := WordOf(c);
    forall i | 0 <= i < 32 ensures WordOf(Turn(c))[i] == BitStep(w)[i] {
      TurnBit(c, i);
      PolynomialBit(i);
      assert BitStep(w)[i] == (ShiftRight(w)[i] != (Polynomial()[i] && w[0]));
    }
  }

  function EightTurns(c: bv32): bv32 { Turn(Turn(Turn(Turn(Turn(Turn(Turn(Turn(c)))))))) }

  lemma EightTurnsAreBitSteps(c: bv32)
    ensures WordOf(EightTurns(c)) == BitSteps(8, WordOf(c))
  {
    hide Turn, BitStep, WordOf;
    var c1 := Turn(c);
    var c2 := Turn(c1);
    var c3 := Turn(c2);
    var c4 := Turn(c3);
    var c5 := Turn(c4);
    var c6 := Turn(c5);
    var c7 := Turn(c6);
    TurnIsBitStep(c);
    TurnIsBitStep(c1);
    TurnIsBitStep(c2);
    TurnIsBitStep(c3);
    TurnIsBitStep(c4);
    TurnIsBitStep(c5);
    TurnIsBitStep(c6);
    TurnIsBitStep(c7);
    Unfold8(WordOf(c));
  }

  lemma Unfold8(w: Word)
    ensures BitSteps(8, w) == BitStep(BitStep(BitStep(BitStep(BitStep(BitStep(BitStep(BitStep(w))))))))
  {
    hide BitStep;
    var w4 := BitStep(BitStep(BitStep(BitStep(w))));
    assert BitSteps(6, BitStep(BitStep(w))) == BitSteps(8, w);
    assert BitSteps(4, w4) == BitSteps(6, BitStep(BitStep(w)));
    var w6 := BitStep(BitStep(w4));
    assert BitSteps(2, w6) == BitSteps(4, w4);
    assert BitSteps(1, BitStep(w6)) == BitSteps(2, w6);
  }

  /******* Bytes as machine words *******/

  function Halved(v: nat, i: nat): nat { if i == 0 then v else Halved(v / 2, i - 1) }

  lemma {:induction false} LowBitsAt(n: nat, v: nat, i: nat)
    requires i < n
    ensures LowBits(n, v)[i] == (Halved(v, i) % 2 == 1)
  {
    if i == 0 {
    } else {
      LowBitsAt(n - 1, v / 2, i - 1);
    }
  }

  /** `b` holds the byte in its low bits and nothing else. */
  ghost predicate SameByte(byte: Byte, b: bv32) {
    forall i :: 0 <= i < 32 ==> Bit(b, i) == (i < 8 && Halved(byte, i) % 2 == 1)
  }

  lemma SameBits(byte: Byte, b: bv32)
    requires SameByte(byte, b)
    ensures Extend(ByteBits(byte)) == WordOf(b)
  {
    hide Bit, WordOf, Halved, LowBits;
    forall i | 0 <= i < 8 ensures ByteBits(byte)[i] == (Halved(byte, i) % 2 == 1) { LowBitsAt(8, byte, i); }
  }

  lemma ByteAt(byte: Byte, b: bv32)
    requires Bit(b, 0) == (byte % 2 == 1) && Bit(b, 1) == (byte / 2 % 2 == 1)
    requires Bit(b, 2) == (byte / 2 / 2 % 2 == 1) && Bit(b, 3) == (byte / 2 / 2 / 2 % 2 == 1)
    requires byte / 2 / 2 / 2 / 2 == 3 && Bit(b, 4) && Bit(b, 5)
    requires forall i :: 6 <= i < 32 ==> !Bit(b, i)
    ensures SameByte(byte, b)
  {
    hide Bit;
    HalvedSmall(byte);
  }

  lemma HalvedSmall(v: nat)
    ensures Halved(v, 0) == v && Halved(v, 1) == v / 2 && Halved(v, 2) == v / 2 / 2 && Halved(v, 3) == v / 2 / 2 / 2
    ensures v / 2 / 2 / 2 / 2 == 3 ==>
              Halved(v, 4) == 3 && Halved(v, 5) == 1 && Halved(v, 6) == 0 && Halved(v, 7) == 0
  {
    assert Halved(v, 4) == Halved(v / 2 / 2, 2);
    assert Halved(v, 6) == Halved(v / 2 / 2, 4) == Halved(v / 2 / 2 / 2 / 2, 2);
    assert Halved(v, 5) == Halved(v / 2 / 2, 3) == Halved(v / 2 / 2 / 2 / 2, 1);
    assert Halved(v, 7) == Halved(v / 2 / 2, 5) == Halved(v / 2 / 2 / 2 / 2, 3);
  }

  /** One byte takes the register from `c` to `next`, over `x`. */
  ghost predicate Takes(c: bv32, b: bv32, x: bv32, next: bv32) {
    WordOf(x) == Xor(WordOf(c), WordOf(b)) && EightTurns(x) == next
  }

  lemma NextByte(c: bv32, byte: Byte, b: bv32, x: bv32, next: bv32, data: Bytes)
    requires data != [] && data[0] == byte && SameByte(byte, b) && Takes(c, b, x, next)
    ensures Register(WordOf(c), data) == Register(WordOf(next), data[1..])
  {
    hide WordOf, EightTurns, BitSteps, Xor, Extend, ByteBits, SameByte;
    SameBits(byte, b);
    EightTurnsAreBitSteps(x);
  }

  /******* The nine characters *******/

  /** The ASCII digits one to nine. */
  const DIGITS: Bytes := [49, 50, 51, 52, 53, 54, 55, 56, 57]

  lemma FirstThree()
    ensures SameByte(49, 0x31) && Takes(0xFFFF_FFFF, 0x31, 0xFFFF_FFCE, 0x7C23_1048)
    ensures SameByte(50, 0x32) && Takes(0x7C23_1048, 0x32, 0x7C23_107A, 0xB0AC_BB32)
    ensures SameByte(51, 0x33) && Takes(0xB0AC_BB32, 0x33, 0xB0AC_BB01, 0x77B7_9C2D)
  {
    ByteAt(49, 0x31);
    ByteAt(50, 0x32);
    ByteAt(51, 0x33);
  }

  lemma NextThree()
    ensures SameByte(52, 0x34) && Takes(0x77B7_9C2D, 0x34, 0x77B7_9C19, 0x641C_1F5C)
    ensures SameByte(53, 0x35) && Takes(0x641C_1F5C, 0x35, 0x641C_1F69, 0x340A_C5E3)
    ensures SameByte(54, 0x36) && Takes(0x340A_C5E3, 0x36, 0x340A_C5D5, 0xF68D_2C9E)
  {
    ByteAt(52, 0x34);
    ByteAt(53, 0x35);
    ByteAt(54, 0x36);
  }

  lemma LastThree()
    ensures SameByte(55, 0x37) && Takes(0xF68D_2C9E, 0x37, 0xF68D_2CA9, 0xAFFC_9660)
    ensures SameByte(56, 0x38) && Takes(0xAFFC_9660, 0x38, 0xAFFC_9658, 0x651F_2550)
    ensures SameByte(57, 0x39) && Takes(0x651F_2550, 0x39, 0x651F_2569, 0x340B_C6D9)
  {
    ByteAt(55, 0x37);
    ByteAt(56, 0x38);
    ByteAt(57, 0x39);
  }

  lemma RegisterFirst()
    ensures Register(WordOf(0xFFFF_FFFF), DIGITS) == Register(WordOf(0x77B7_9C2D), DIGITS[3..])
  {
    hide WordOf, SameByte, Takes, Register;
    FirstThree();
    NextByte(0xFFFF_FFFF, 49, 0x31, 0xFFFF_FFCE, 0x7C23_1048, DIGITS);
    NextByte(0x7C23_1048, 50, 0x32, 0x7C23_107A, 0xB0AC_BB32, DIGITS[1..]);
    NextByte(0xB0AC_BB32, 51, 0x33, 0xB0AC_BB01, 0x77B7_9C2D, DIGITS[2..]);
    assert DIGITS[1..] == DIGITS[0..][1..] && DIGITS[1..][1..] == DIGITS[2..] && DIGITS[2..][1..] == DIGITS[3..];
  }

  lemma RegisterNext()
    ensures Register(WordOf(0x77B7_9C2D), DIGITS[3..]) == Register(WordOf(0xF68D_2C9E), DIGITS[6..])
  {
    hide WordOf, SameByte, Takes, Register;
    NextThree();
    NextByte(0x77B7_9C2D, 52, 0x34, 0x77B7_9C19, 0x641C_1F5C, DIGITS[3..]);
    NextByte(0x641C_1F5C, 53, 0x35, 0x641C_1F69, 0x340A_C5E3, DIGITS[4..]);
    NextByte(0x340A_C5E3, 54, 0x36, 0x340A_C5D5, 0xF68D_2C9E, DIGITS[5..]);
    assert DIGITS[3..][1..] == DIGITS[4..] && DIGITS[4..][1..] == DIGITS[5..] && DIGITS[5..][1..] == DIGITS[6..];
  }

  lemma RegisterLast()
    ensures Register(WordOf(0xF68D_2C9E), DIGITS[6..]) == Register(WordOf(0x340B_C6D9), DIGITS[9..])
  {
    hide WordOf, SameByte, Takes, Register;
    LastThree();
    NextByte(0xF68D_2C9E, 55, 0x37, 0xF68D_2CA9, 0xAFFC_9660, DIGITS[6..]);
    NextByte(0xAFFC_9660, 56, 0x38, 0xAFFC_9658, 0x651F_2550, DIGITS[7..]);
    NextByte(0x651F_2550, 57, 0x39, 0x651F_2569, 0x340B_C6D9, DIGITS[8..]);
    assert DIGITS[6..][1..] == DIGITS[7..] && DIGITS[7..][1..] == DIGITS[8..] && DIGITS[8..][1..] == DIGITS[9..];
  }

  lemma EndWords()
    ensures WordOf(0xFFFF_FFFF) == AllOnes() && Not(WordOf(0x340B_C6D9)) == WordOf(0xCBF4_3926)
  {
  }

  /** The check value. */
  lemma ChecksumOfDigits()
    ensures Crc32(DIGITS) == 0xCBF4_3926
  {
    hide WordOf, Register, Not, AllOnes, Number;
    EndWords();
    RegisterFirst();
    RegisterNext();
    RegisterLast();
    assert DIGITS[9..] == [];
    NoMoreBytes(WordOf(0x340B_C6D9));
    CheckNumber();
  }

  lemma NoMoreBytes(w: Word)
    ensures Register(w, []) == w
  {
  }

  /** Four bits on top of a number. */
  lemma Nibble(w: Word, k: nat)
    requires k + 4 <= 32
    ensures Number(w[k..]) == (if w[k] then 1 else 0) + (if w[k + 1] then 2 else 0) + (if w[k + 2] then 4 else 0)
                            + (if w[k + 3] then 8 else 0) + 16 * Number(w[k + 4..])
  {
    NumberFrom(w, k);
    NumberFrom(w, k + 1);
    NumberFrom(w, k + 2);
    NumberFrom(w, k + 3);
  }

  lemma NumberFrom(w: Word, k: nat)
    requires k < 32
    ensures Number(w[k..]) == (if w[k] then 1 else 0) + 2 * Number(w[k + 1..])
  {
    assert w[k..][1..] == w[k + 1..];
  }

  lemma CheckNumber()
    ensures Number(WordOf(0xCBF4_3926)) == 0xCBF4_3926
  {
    hide WordOf, Number;
    var w := WordOf(0xCBF4_3926);
    Nibble(w, 28);
    Nibble(w, 24);
    Nibble(w, 20);
    Nibble(w, 16);
    Nibble(w, 12);
    Nibble(w, 8);
    Nibble(w, 4);
    Nibble(w, 0);
    CheckBits();
    NothingLeft(w);
    assert w[0..] == w;
  }

  lemma NothingLeft(w: Word)
    ensures Number(w[32..]) == 0
  {
  }

  lemma CheckBits()
    ensures var w := WordOf(0xCBF4_3926);
            && !w[0] && w[1] && w[2] && !w[3] && !w[4] && w[5] && !w[6] && !w[7]
            && w[8] && !w[9] && !w[10] && w[11] && w[12] && w[13] && !w[14] && !w[15]
            && !w[16] && !w[17] && w[18] && !w[19] && w[20] && w[21] && w[22] && w[23]
            && w[24] && w[25] && !w[26] && w[27] && !w[28] && !w[29] && w[30] && w[31]
  {
    hide WordOf;
  }
}
