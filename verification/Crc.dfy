/** CRC-32 as the bitwise loop computes it, and its burst-error guarantee.
    A 32-bit word is its sequence of bits, least significant first, so that
    `>> 1` drops the first bit and `^` and `&` act bit by bit. */
module Crc {
  import opened Base

  type Word = w: seq<bool> | |w| == 32
    witness seq(32, _ => false)

  function Xor(a: Word, b: Word): Word { seq(32, i requires 0 <= i < 32 => a[i] != b[i]) }
  function And(a: Word, b: Word): Word { seq(32, i requires 0 <= i < 32 => a[i] && b[i]) }
  function Not(a: Word): Word { seq(32, i requires 0 <= i < 32 => !a[i]) }
  function ShiftRight(a: Word): Word { a[1..] + [false] }

  /** 0xFFFFFFFF. */
  function AllOnes(): Word { seq(32, _ => true) }

  /** `0u - (c & 1u)`: all ones when the lowest bit of `c` is set. */
  function Mask(c: Word): Word { seq(32, _ => c[0]) }

  /** 0xEDB88320, the reflected polynomial of IEEE 802.3. */
  function Polynomial(): Word {
    [
      false, false, false, false,  false, true, false, false,   // 0x_______0 0x______2_
      true, true, false, false,    false, false, false, true,   // 0x_____3__ 0x____8___
      false, false, false, true,   true, true, false, true,     // 0x___8____ 0x__B_____
      true, false, true, true,     false, true, true, true      // 0x_D______ 0xE_______
    ]
  }

  /** One turn of the inner loop. */
  function BitStep(c: Word): Word {
    Xor(ShiftRight(c), And(Polynomial(), Mask(c)))
  }

  function BitSteps(n: nat, c: Word): Word {
    if n == 0 then c else BitSteps(n - 1, BitStep(c))
  }

  /** The `n` lowest bits of a number, least significant first. */
  function LowBits(n: nat, v: nat): (r: seq<bool>)
    ensures |r| == n
  {
    if n == 0 then [] else [v % 2 == 1] + LowBits(n - 1, v / 2)
  }

  function ByteBits(b: Byte): (r: seq<bool>)
    ensures |r| == 8
  {
    LowBits(8, b)
  }

  /** At most 32 bits as a word, zero-extended. */
  function Extend(bits: seq<bool>): Word
    requires |bits| <= 32
  {
    bits + seq(32 - |bits|, _ => false)
  }

  /** The register after the outer loop has consumed `data` from register `c`. */
  function Register(c: Word, data: Bytes): Word
    decreases |data|
  {
    if data == [] then c else Register(BitSteps(8, Xor(c, Extend(ByteBits(data[0])))), data[1..])
  }

  /** The number a bit sequence denotes. */
  function Number(bits: seq<bool>): nat {
    if bits == [] then 0 else (if bits[0] then 1 else 0) + 2 * Number(bits[1..])
  }

  lemma NumberBound(w: Word)
    ensures Number(w) < 0x1_0000_0000
  {
    assert Pow2(8) == 0x100;
    assert Pow2(16) == 0x1_0000;
    assert Pow2(24) == 0x100_0000;
    assert Pow2(32) == 0x1_0000_0000;
    NumberBelow(w);
  }

  ghost function Pow2(n: nat): nat { if n == 0 then 1 else 2 * Pow2(n - 1) }

  lemma {:induction false} NumberBelow(bits: seq<bool>)
    ensures Number(bits) < Pow2(|bits|)
  {
    if bits == [] {
    } else {
      NumberBelow(bits[1..]);
    }
  }

  function Crc32(data: Bytes): U32 {
    var w := Not(Register(AllOnes(), data));
    NumberBound(w);
    Number(w)
  }

  method ComputeCrc32(data: Bytes) returns (crc: U32)
    ensures crc == Crc32(data)
  {
    var reg := AllOnes();
    for i := 0 to |data|
      invariant Register(reg, data[i..]) == Register(AllOnes(), data)
    {
      var start := Xor(reg, Extend(ByteBits(data[i])));
      reg := StepBits(8, start);
      assert data[i..][1..] == data[i + 1..];
    }
    NumberBound(Not(reg));
    crc := Number(Not(reg));
  }

  method StepBits(n: nat, start: Word) returns (crc: Word)
    ensures crc == BitSteps(n, start)
  {
    crc := start;
    for k := 0 to n
      invariant BitSteps(n - k, crc) == BitSteps(n, start)
    {
      var mask := Mask(crc);
      crc := Xor(ShiftRight(crc), And(Polynomial(), mask));
    }
  }

  /******* The same register, driven one message bit at a time *******/

  /** Feed message bits, first bit first. */
  function Feed(c: Word, bits: seq<bool>): Word
    decreases |bits|
  {
    if bits == [] then c else Feed(BitStep(Xor(c, Extend([bits[0]]))), bits[1..])
  }

  /** A message as the bits the register sees. */
  function Bits(data: Bytes): (r: seq<bool>)
    ensures |r| == 8 * |data|
  {
    if data == [] then [] else ByteBits(data[0]) + Bits(data[1..])
  }

  /** The polynomial's top bit is set, so the bit that falls out is recoverable. */
  lemma BitStepInjective(a: Word, b: Word)
    requires BitStep(a) == BitStep(b)
    ensures a == b
  {
    assert BitStep(a)[31] == a[0] && BitStep(b)[31] == b[0];
    forall i | 0 <= i < 32 ensures a[i] == b[i] {
      if i > 0 {
        assert BitStep(a)[i - 1] == (a[i] != (Polynomial()[i - 1] && a[0]));
        assert BitStep(b)[i - 1] == (b[i] != (Polynomial()[i - 1] && b[0]));
      }
    }
  }

  /** Bits above the lowest wait their turn unchanged. */
  lemma BitStepDefers(c: Word, b: bool, rest: seq<bool>)
    requires |rest| <= 31
    ensures Xor(BitStep(Xor(c, Extend([b]))), Extend(rest)) == BitStep(Xor(c, Extend([b] + rest)))
  {
  }

  lemma {:induction false} BitStepsInjective(n: nat, a: Word, b: Word)
    requires BitSteps(n, a) == BitSteps(n, b)
    ensures a == b
  {
    if n == 0 {
    } else {
      BitStepsInjective(n - 1, BitStep(a), BitStep(b));
      BitStepInjective(a, b);
    }
  }

  /** A run of at most 32 bits acts as one xor into the register. */
  lemma {:induction false} FeedIsXor(c: Word, bits: seq<bool>)
    requires |bits| <= 32
    ensures Feed(c, bits) == BitSteps(|bits|, Xor(c, Extend(bits)))
    decreases |bits|
  {
    if bits == [] {
      assert Xor(c, Extend(bits)) == c;
    } else {
      FeedIsXor(BitStep(Xor(c, Extend([bits[0]]))), bits[1..]);
      BitStepDefers(c, bits[0], bits[1..]);
      assert [bits[0]] + bits[1..] == bits;
    }
  }

  lemma {:induction false} FeedAppend(c: Word, a: seq<bool>, b: seq<bool>)
    ensures Feed(c, a + b) == Feed(Feed(c, a), b)
    decreases |a|
  {
    if a == [] {
      assert a + b == b;
    } else {
      assert (a + b)[1..] == a[1..] + b;
      FeedAppend(BitStep(Xor(c, Extend([a[0]]))), a[1..], b);
    }
  }

  /** The byte-at-a-time loop is the bit-serial register of the same message. */
  lemma {:induction false} RegisterIsFeed(c: Word, data: Bytes)
    ensures Register(c, data) == Feed(c, Bits(data))
    decreases |data|
  {
    if data == [] {
    } else {
      FeedIsXor(c, ByteBits(data[0]));
      FeedAppend(c, ByteBits(data[0]), Bits(data[1..]));
      RegisterIsFeed(Feed(c, ByteBits(data[0])), data[1..]);
    }
  }

  lemma {:induction false} FeedInjective(a: Word, b: Word, bits: seq<bool>)
    requires Feed(a, bits) == Feed(b, bits)
    ensures a == b
    decreases |bits|
  {
    if bits == [] {
    } else {
      var x := Extend([bits[0]]);
      FeedInjective(BitStep(Xor(a, x)), BitStep(Xor(b, x)), bits[1..]);
      BitStepInjective(Xor(a, x), Xor(b, x));
      XorCancel(x, a, b);
    }
  }

  lemma XorCancel(m: Word, v: Word, w: Word)
    requires Xor(m, v) == Xor(m, w) || Xor(v, m) == Xor(w, m)
    ensures v == w
  {
    forall i | 0 <= i < 32 ensures v[i] == w[i] {
      assert Xor(m, v)[i] == (m[i] != v[i]) && Xor(m, w)[i] == (m[i] != w[i]);
      assert Xor(v, m)[i] == (v[i] != m[i]) && Xor(w, m)[i] == (w[i] != m[i]);
    }
  }

  /******* Burst errors *******/

  /** `a` and `b` agree outside the 32 bits that start at bit `at`. */
  ghost predicate DifferWithinBurst(a: seq<bool>, b: seq<bool>, at: nat) {
    && |a| == |b|
    && forall i :: 0 <= i < |a| && !(at <= i < at + 32) ==> a[i] == b[i]
  }

  lemma ShortRunsInjective(c: Word, a: seq<bool>, b: seq<bool>)
    requires |a| == |b| <= 32 && Feed(c, a) == Feed(c, b)
    ensures a == b
  {
    FeedIsXor(c, a);
    FeedIsXor(c, b);
    BitStepsInjective(|a|, Xor(c, Extend(a)), Xor(c, Extend(b)));
    XorCancel(c, Extend(a), Extend(b));
    assert a == Extend(a)[..|a|] && b == Extend(b)[..|b|];
  }

  lemma FeedDetectsBurst(c: Word, a: seq<bool>, b: seq<bool>, at: nat)
    requires DifferWithinBurst(a, b, at) && a != b
    ensures Feed(c, a) != Feed(c, b)
  {
    var n := |a|;
    var lo := if at <= n then at else n;
    var hi := if lo + 32 <= n then lo + 32 else n;
    var pre, x, y, post := a[..lo], a[lo..hi], b[lo..hi], a[hi..];
    assert pre == b[..lo] && post == b[hi..];
    assert a == (pre + x) + post && b == (pre + y) + post;
    FeedAppend(c, pre, x);
    FeedAppend(c, pre, y);
    FeedAppend(c, pre + x, post);
    FeedAppend(c, pre + y, post);
    if Feed(c, a) == Feed(c, b) {
      FeedInjective(Feed(c, pre + x), Feed(c, pre + y), post);
      ShortRunsInjective(Feed(c, pre), x, y);
    }
  }

  lemma {:induction false} NumberInjective(a: seq<bool>, b: seq<bool>)
    requires |a| == |b| && Number(a) == Number(b)
    ensures a == b
  {
    if a == [] {
    } else {
      NumberInjective(a[1..], b[1..]);
      assert a == [a[0]] + a[1..] && b == [b[0]] + b[1..];
    }
  }

  lemma ByteBitsInjective(a: Byte, b: Byte)
    requires ByteBits(a) == ByteBits(b)
    ensures a == b
  {
    assert Pow2(8) == 0x100;
    NumberOfLowBits(8, a);
    NumberOfLowBits(8, b);
  }

  lemma {:induction false} NumberOfLowBits(n: nat, v: nat)
    requires v < Pow2(n)
    ensures Number(LowBits(n, v)) == v
  {
    if n == 0 {
    } else {
      NumberOfLowBits(n - 1, v / 2);
      assert LowBits(n, v)[1..] == LowBits(n - 1, v / 2);
    }
  }

  lemma {:induction false} BitsInjective(a: Bytes, b: Bytes)
    requires |a| == |b| && Bits(a) == Bits(b)
    ensures a == b
  {
    if a == [] {
    } else {
      assert ByteBits(a[0]) == Bits(a)[..8] && ByteBits(b[0]) == Bits(b)[..8];
      ByteBitsInjective(a[0], b[0]);
      assert Bits(a[1..]) == Bits(a)[8..] && Bits(b[1..]) == Bits(b)[8..];
      BitsInjective(a[1..], b[1..]);
      assert a == [a[0]] + a[1..] && b == [b[0]] + b[1..];
    }
  }

  /** Two different messages of one length whose bits agree outside some 32
      consecutive bits never share a CRC-32. */
  lemma BurstChangesCrc(a: Bytes, b: Bytes, at: nat)
    requires a != b && DifferWithinBurst(Bits(a), Bits(b), at)
    ensures Crc32(a) != Crc32(b)
  {
    if Bits(a) == Bits(b) { BitsInjective(a, b); }
    FeedDetectsBurst(AllOnes(), Bits(a), Bits(b), at);
    RegisterIsFeed(AllOnes(), a);
    RegisterIsFeed(AllOnes(), b);
    var v, w := Register(AllOnes(), a), Register(AllOnes(), b);
    if Crc32(a) == Crc32(b) {
      NumberInjective(Not(v), Not(w));
      forall i | 0 <= i < 32 ensures v[i] == w[i] {
        assert Not(v)[i] == !v[i] && Not(w)[i] == !w[i];
      }
    }
  }

  /** In particular, bytes that differ only inside four consecutive positions. */
  lemma FourBytesAreABurst(a: Bytes, b: Bytes, at: nat)
    requires |a| == |b|
    requires forall i :: 0 <= i < |a| && !(at <= i < at + 4) ==> a[i] == b[i]
    ensures DifferWithinBurst(Bits(a), Bits(b), 8 * at)
  {
    forall i | 0 <= i < |Bits(a)| && !(8 * at <= i < 8 * at + 32) ensures Bits(a)[i] == Bits(b)[i] {
      BitsAt(a, i);
      BitsAt(b, i);
    }
  }

  lemma {:induction false} BitsAt(data: Bytes, i: nat)
    requires i < |Bits(data)|
    ensures Bits(data)[i] == ByteBits(data[i / 8])[i % 8]
  {
    if i >= 8 {
      BitsAt(data[1..], i - 8);
      assert (i - 8) / 8 == i / 8 - 1 && (i - 8) % 8 == i % 8;
    }
  }
}
