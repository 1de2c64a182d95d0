/** Binary64 patterns and the values they stand for (section 3.4 of IEEE 754-2008), and
    what equality of entries means for the bytes they are stored as. */
module DoubleLaws {
  import opened Base
  import opened Entry
  import opened Codec
  import opened CodecLaws
  import opened Ledger

  /******* Powers of two *******/

  lemma PowerDoubles(n: int)
    ensures PowerOfTwo(n + 1) == 2.0 * PowerOfTwo(n)
  {
  }

  lemma {:induction false} PowerGrows(m: int, n: int)
    requires m < n
    ensures PowerOfTwo(n) >= 2.0 * PowerOfTwo(m)
    decreases n - m
  {
    PowerDoubles(n - 1);
    if m < n - 1 { PowerGrows(m, n - 1); }
  }

  /******* Patterns by field *******/

  /** The significand with its hidden bit. */
  function Significand(bits: U64): nat {
    if ExponentField(bits) == 0 then FractionField(bits) else 0x10_0000_0000_0000 + FractionField(bits)
  }

  function Scale(bits: U64): int { (if ExponentField(bits) == 0 then 1 else ExponentField(bits)) - 1075 }

  function Magnitude(bits: U64): real { (Significand(bits) as real) * PowerOfTwo(Scale(bits)) }

  lemma ValueOfFields(bits: U64)
    requires IsFinite(bits)
    ensures Value(bits) == if SignBit(bits) == 1 then -Magnitude(bits) else Magnitude(bits)
    ensures Magnitude(bits) >= 0.0 && (Magnitude(bits) == 0.0 <==> Significand(bits) == 0)
  {
    hide PowerOfTwo;
    var s, p := Significand(bits) as real, PowerOfTwo(Scale(bits));
    assert s * p == Magnitude(bits);
    if s > 0.0 { assert s * p > 0.0; }
  }

  lemma FieldsMakePattern(bits: U64)
    ensures SignBit(bits) <= 1 && ExponentField(bits) < 0x800 && FractionField(bits) < 0x10_0000_0000_0000
    ensures bits == SignBit(bits) * 0x8000_0000_0000_0000 + ExponentField(bits) * 0x10_0000_0000_0000
                  + FractionField(bits)
  {
    var top := bits / 0x10_0000_0000_0000;
    assert bits == top * 0x10_0000_0000_0000 + FractionField(bits);
    assert top == SignBit(bits) * 0x800 + top % 0x800;
  }

  /** Zero is written with a plus sign. */
  function PlusZero(bits: U64): U64 { if bits == 0x8000_0000_0000_0000 then 0 else bits }

  lemma SignificandBounds(bits: U64)
    ensures Significand(bits) < 0x20_0000_0000_0000 && Scale(bits) >= -1074
    ensures Scale(bits) > -1074 ==> Significand(bits) >= 0x10_0000_0000_0000
  {
    FieldsMakePattern(bits);
  }

  /** Two magnitudes are equal only if scale and significand are. */
  lemma MagnitudeInjective(a: U64, b: U64)
    requires Magnitude(a) == Magnitude(b) && Scale(a) <= Scale(b)
    ensures Significand(b) > 0 ==> Scale(a) == Scale(b) && Significand(a) == Significand(b)
  {
    hide PowerOfTwo, Significand, Scale;
    SignificandBounds(a);
    SignificandBounds(b);
    var p, q := PowerOfTwo(Scale(a)), PowerOfTwo(Scale(b));
    var s, t := Significand(a) as real, Significand(b) as real;
    if Scale(a) < Scale(b) {
      PowerGrows(Scale(a), Scale(b));
      TooBig(s, t, 4503599627370496.0, p, q);
    } else {
      Cancels(s, t, p);
    }
  }

  lemma Less(s: real, t: real, p: real)
    requires s < t && p > 0.0
    ensures s * p < t * p
  {
  }

  lemma TooBig(s: real, t: real, u: real, p: real, q: real)
    requires p > 0.0 && q >= p + p && 0.0 <= s < u + u && t >= u > 0.0
    ensures s * p < t * q
  {
    assert s * p < (u + u) * p;
    assert u * q >= u * (p + p);
    assert t * q >= u * q;
  }

  lemma Cancels(s: real, t: real, p: real)
    requires p > 0.0 && s * p == t * p
    ensures s == t
  {
    if s < t { Less(s, t, p); } else if t < s { Less(t, s, p); }
  }

  /** Finite doubles are equal exactly when their patterns are, zero having one sign. */
  lemma SameDoubleIsSamePattern(a: U64, b: U64)
    requires IsFinite(a) && IsFinite(b)
    ensures SameDouble(a, b) <==> PlusZero(a) == PlusZero(b)
  {
    hide Value, Magnitude, Significand, Scale, IsFinite;
    ZeroPattern(a);
    ZeroPattern(b);
    ValueOfFields(a);
    ValueOfFields(b);
    if Value(a) == Value(b) && Value(a) != 0.0 {
      if Scale(a) <= Scale(b) { MagnitudeInjective(a, b); } else { MagnitudeInjective(b, a); }
      SameFields(a, b);
    }
  }

  lemma ZeroPattern(bits: U64)
    requires IsFinite(bits)
    ensures Value(bits) == 0.0 <==> PlusZero(bits) == 0
  {
    hide PowerOfTwo, Magnitude;
    ValueOfFields(bits);
    FieldsMakePattern(bits);
  }

  lemma SameFields(a: U64, b: U64)
    requires SignBit(a) == SignBit(b) && Scale(a) == Scale(b) && Significand(a) == Significand(b)
    ensures a == b
  {
    FieldsMakePattern(a);
    FieldsMakePattern(b);
  }

  /******* What a pattern is worth *******/

  /** The pattern of one. */
  lemma ValueOfOne()
    ensures IsFinite(0x3FF0_0000_0000_0000) && Value(0x3FF0_0000_0000_0000) == 1.0
  {
    hide PowerOfTwo;
    PowerOf52();
  }

  /** Flipping the sign bit negates, one more in the exponent doubles, and the fraction
      counts in units of 2^-52 of the pattern without it. */
  lemma ValueOfPattern(bits: U64)
    requires bits < 0x7FE0_0000_0000_0000
    ensures IsFinite(bits) && IsFinite(bits + 0x8000_0000_0000_0000)
    ensures Value(bits + 0x8000_0000_0000_0000) == -Value(bits)
    ensures bits >= 0x10_0000_0000_0000 ==>
              && IsFinite(bits + 0x10_0000_0000_0000) && Value(bits + 0x10_0000_0000_0000) == 2.0 * Value(bits)
              && IsFinite(bits - FractionField(bits))
              && Value(bits) * 4503599627370496.0
                 == Value(bits - FractionField(bits)) * (4503599627370496.0 + FractionField(bits) as real)
  {
    hide PowerOfTwo;
    FieldsMakePattern(bits);
    SplitsAs(bits + 0x8000_0000_0000_0000, 1, ExponentField(bits), FractionField(bits));
    if bits >= 0x10_0000_0000_0000 {
      SplitsAs(bits + 0x10_0000_0000_0000, 0, ExponentField(bits) + 1, FractionField(bits));
      SplitsAs(bits - FractionField(bits), 0, ExponentField(bits), 0);
      PowerDoubles(ExponentField(bits) - 1075);
    }
  }

  lemma SplitsAs(bits: U64, sign: nat, exponent: nat, fraction: nat)
    requires sign <= 1 && exponent < 0x800 && fraction < 0x10_0000_0000_0000
    requires bits == sign * 0x8000_0000_0000_0000 + exponent * 0x10_0000_0000_0000 + fraction
    ensures SignBit(bits) == sign && ExponentField(bits) == exponent && FractionField(bits) == fraction
  {
    assert bits / 0x10_0000_0000_0000 == sign * 0x800 + exponent;
  }

  lemma PowerOf52()
    ensures PowerOfTwo(-52) * 4503599627370496.0 == 1.0
  {
    Halvings(-52);
    Halvings(-39);
    Halvings(-26);
    Halvings(-13);
  }

  lemma Halvings(n: int)
    ensures PowerOfTwo(n + 13) == 8192.0 * PowerOfTwo(n)
  {
    PowerDoubles(n);
    PowerDoubles(n + 1);
    PowerDoubles(n + 2);
    PowerDoubles(n + 3);
    PowerDoubles(n + 4);
    PowerDoubles(n + 5);
    PowerDoubles(n + 6);
    PowerDoubles(n + 7);
    PowerDoubles(n + 8);
    PowerDoubles(n + 9);
    PowerDoubles(n + 10);
    PowerDoubles(n + 11);
    PowerDoubles(n + 12);
  }

  /** The patterns with all exponent bits set, and only those, stand for no number. */
  lemma FinitePatterns(bits: U64)
    ensures IsFinite(bits) <==>
            bits < 0x7FF0_0000_0000_0000 || 0x8000_0000_0000_0000 <= bits < 0xFFF0_0000_0000_0000
  {
    FieldsMakePattern(bits);
  }

  /******* Equal entries, equal frames *******/

  /** The entry with a zero quantity written with a plus sign. */
  function OneZero(e: LedgerEntry): LedgerEntry { e.(quantity := e.quantity.(bits := PlusZero(e.quantity.bits))) }

  lemma SameEntryIsSameRecord(a: LedgerEntry, b: LedgerEntry)
    requires IsFinite(a.quantity.bits) && IsFinite(b.quantity.bits)
    ensures SameEntry(a, b) <==> Canonical(OneZero(a)) == Canonical(OneZero(b))
  {
    hide SameDouble, IsFinite;
    SameDoubleIsSamePattern(a.quantity.bits, b.quantity.bits);
  }

  /** Writing zero with a plus sign does not change what the encoder does. */
  lemma OneZeroIsEncodable(e: LedgerEntry)
    requires Encodable(e)
    ensures Encodable(OneZero(e))
  {
    hide Value, Payload;
    ZeroIsPlain();
    OneZeroKeepsLength(e);
  }

  lemma ZeroIsPlain()
    ensures IsFinite(0) && IsFinite(0x8000_0000_0000_0000) && Value(0) == Value(0x8000_0000_0000_0000) == 0.0
  {
    hide PowerOfTwo;
  }

  lemma OneZeroKeepsLength(e: LedgerEntry)
    requires |e.metadata| <= 0xFFFF_FFFF && StringsFit(e.metadata)
    ensures |Payload(OneZero(e))| == |Payload(e)|
  {
    hide Payload, PairsSize;
    PayloadLength(e);
    PayloadLength(OneZero(e));
  }

  /** Entries that encode are equal under `operator==` exactly when they are stored as
      the same bytes, zero being written with one sign. */
  lemma SameEntryIsSameFrame(a: LedgerEntry, b: LedgerEntry)
    requires Encodable(a) && Encodable(b)
    ensures SameEntry(a, b) <==> EncodeEntry(OneZero(a)) == EncodeEntry(OneZero(b))
  {
    hide SameEntry, EncodeEntry, DecodeEntry, Canonical, FitsFrame;
    SameEntryIsSameRecord(a, b);
    OneZeroIsEncodable(a);
    OneZeroIsEncodable(b);
    EntryRoundTrip(OneZero(a), []);
    EntryRoundTrip(OneZero(b), []);
    CanonicalEncodesTheSame(OneZero(a));
    CanonicalEncodesTheSame(OneZero(b));
    var f, g := EncodeEntry(OneZero(a)).value, EncodeEntry(OneZero(b)).value;
    assert DecodeEntry(f + []) == Some((Canonical(OneZero(a)), |f|));
    assert DecodeEntry(g + []) == Some((Canonical(OneZero(b)), |g|));
  }

  /** Appending an entry whose identity is already stored, the fence permitting, is a
      harmless duplicate exactly when it would be stored as the same bytes, and a
      conflict otherwise; the ledger is not touched either way. */
  lemma DuplicateIsSameFrame(entries: seq<LedgerEntry>, fence: Option<AuthorityState>, i: nat, e: LedgerEntry)
    requires UniqueIds(entries) && i < |entries| && entries[i].id == e.id
    requires Encodable(entries[i]) && Encodable(e)
    requires fence.Some? ==> ValidateAuthority(e, fence.value) == Accept
    ensures StatusOf(entries, fence, e)
         == if EncodeEntry(OneZero(entries[i])) == EncodeEntry(OneZero(e)) then Duplicate else DuplicateConflict
    ensures Appended(entries, fence, e) == entries
  {
    hide SameEntry, EncodeEntry, ValidateAuthority, FitsFrame;
    SameEntryIsSameFrame(entries[i], e);
    assert Position(entries, e.id) == Some(i);
  }

  /******* The content rules *******/

  function Whole(n: int): real { n as real }

  /** Amounts are finite, never negative unless filed as a cost or under no particular
      kind, and whole when they count something. */
  lemma ContentRule(e: LedgerEntry)
    ensures ContentIsValid(e) <==>
            (&& IsFinite(e.quantity.bits)
             && (e.resourceKind != Cost && e.resourceKind != Generic ==> Value(e.quantity.bits) >= 0.0)
             && (e.quantity.unit == Count ==> exists n :: Value(e.quantity.bits) == Whole(n)))
  {
    hide Value;
    if IsFinite(e.quantity.bits) {
      var v := Value(e.quantity.bits);
      assert v.Floor as real == v ==> v == Whole(v.Floor);
      if exists n :: v == Whole(n) {
        var n :| v == Whole(n);
        assert v.Floor == n;
      }
    }
  }
}
