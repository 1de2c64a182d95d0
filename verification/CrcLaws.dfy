/** The checksum register is a polynomial remainder over GF(2), for the generator of
    section 3.2.9 of IEEE 802.3. */
module CrcLaws {
  import opened Base
  import opened Crc

  /******* Polynomials over GF(2), as the set of exponents with coefficient one *******/

  type Poly = set<nat>

  function Sum(p: Poly, q: Poly): (r: Poly)
    ensures forall e :: e in r <==> (e in p) != (e in q)
  {
    (p - q) + (q - p)
  }

  /** `p` times x^k. */
  function Times(p: Poly, k: nat): (r: Poly)
    ensures forall e :: e in r <==> e >= k && e - k in p
  {
    set e | e in p :: e + k
  }

  /** x^32 + x^26 + x^23 + x^22 + x^16 + x^12 + x^11 + x^10 + x^8 + x^7 + x^5 + x^4 + x^2 + x + 1. */
  function Generator(): Poly { {32, 26, 23, 22, 16, 12, 11, 10, 8, 7, 5, 4, 2, 1, 0} }

  /** The generator times the polynomial whose monomials are listed. */
  function Multiple(monomials: seq<nat>): Poly {
    if monomials == [] then {} else Sum(Times(Generator(), monomials[0]), Multiple(monomials[1..]))
  }

  /** `p` and `q` differ by the generator times some polynomial. */
  ghost predicate Congruent(p: Poly, q: Poly) {
    exists ms: seq<nat> :: Sum(p, q) == Multiple(ms)
  }

  ghost predicate DegreeBelow(p: Poly, n: nat) { forall e :: e in p ==> e < n }

  /******* Congruence is kept by sums and shifts *******/

  lemma {:induction false} MultipleConcat(a: seq<nat>, b: seq<nat>)
    ensures Multiple(a + b) == Sum(Multiple(a), Multiple(b))
    decreases |a|
  {
    hide Times, Sum, Generator;
    if a == [] {
      assert a + b == b;
    } else {
      assert (a + b)[1..] == a[1..] + b;
      MultipleConcat(a[1..], b);
    }
  }

  lemma TimesTimes(p: Poly, k: nat, l: nat)
    ensures Times(Times(p, k), l) == Times(p, k + l)
  {
    hide Times;
    forall e: nat ensures e in Times(Times(p, k), l) <==> e in Times(p, k + l) {
      if e >= l { assert e - l in Times(p, k) <==> e - l >= k && e - l - k in p; }
    }
  }

  lemma TimesSum(p: Poly, q: Poly, k: nat)
    ensures Times(Sum(p, q), k) == Sum(Times(p, k), Times(q, k))
  {
    hide Times, Sum;
    forall e: nat ensures e in Times(Sum(p, q), k) <==> e in Sum(Times(p, k), Times(q, k)) {
      if e >= k { assert e - k in Sum(p, q) <==> (e - k in p) != (e - k in q); }
    }
  }

  function Raised(ms: seq<nat>, k: nat): seq<nat> { seq(|ms|, i requires 0 <= i < |ms| => ms[i] + k) }

  lemma {:induction false} MultipleRaised(ms: seq<nat>, k: nat)
    ensures Multiple(Raised(ms, k)) == Times(Multiple(ms), k)
    decreases |ms|
  {
    hide Times, Sum, Generator;
    if ms == [] {
      assert Multiple(Raised(ms, k)) == Times({}, k);
    } else {
      MultipleRaised(ms[1..], k);
      assert Raised(ms, k)[1..] == Raised(ms[1..], k);
      TimesTimes(Generator(), ms[0], k);
      TimesSum(Times(Generator(), ms[0]), Multiple(ms[1..]), k);
    }
  }

  lemma CongruentTimes(p: Poly, q: Poly, k: nat)
    requires Congruent(p, q)
    ensures Congruent(Times(p, k), Times(q, k))
  {
    hide Times, Sum, Multiple;
    var ms :| Sum(p, q) == Multiple(ms);
    MultipleRaised(ms, k);
    TimesSum(p, q, k);
    assert Sum(Times(p, k), Times(q, k)) == Multiple(Raised(ms, k));
  }

  lemma CongruentSum(p: Poly, q: Poly, r: Poly, s: Poly)
    requires Congruent(p, q) && Congruent(r, s)
    ensures Congruent(Sum(p, r), Sum(q, s))
  {
    hide Sum, Multiple;
    var ms :| Sum(p, q) == Multiple(ms);
    var ns :| Sum(r, s) == Multiple(ns);
    MultipleConcat(ms, ns);
    assert Sum(Sum(p, r), Sum(q, s)) == Sum(Sum(p, q), Sum(r, s));
    assert Sum(Sum(p, r), Sum(q, s)) == Multiple(ms + ns);
  }

  lemma CongruentSelf(p: Poly)
    ensures Congruent(p, p)
  {
    assert Sum(p, p) == Multiple([]);
  }

  lemma CongruentTransitive(p: Poly, q: Poly, r: Poly)
    requires Congruent(p, q) && Congruent(q, r)
    ensures Congruent(p, r)
  {
    hide Sum, Multiple;
    assert Sum(Sum(p, q), Sum(q, r)) == Sum(p, r);
    var ms :| Sum(p, q) == Multiple(ms);
    var ns :| Sum(q, r) == Multiple(ns);
    MultipleConcat(ms, ns);
    assert Sum(p, r) == Multiple(ms + ns);
  }

  /******* Remainders are unique *******/

  /** Strictly descending, and below `bound`. */
  predicate Descends(ms: seq<nat>, bound: nat) {
    ms == [] || (ms[0] < bound && Descends(ms[1..], ms[0]))
  }

  /** Add one monomial to a descending list; equal monomials cancel. */
  function Insert(m: nat, ms: seq<nat>): seq<nat> {
    if ms == [] || m > ms[0] then [m] + ms
    else if m == ms[0] then ms[1..]
    else [ms[0]] + Insert(m, ms[1..])
  }

  lemma {:induction false} Relax(ms: seq<nat>, bound: nat, more: nat)
    requires Descends(ms, bound) && bound <= more
    ensures Descends(ms, more)
  {
  }

  lemma {:induction false} InsertKeeps(m: nat, ms: seq<nat>, bound: nat)
    requires Descends(ms, bound) && m < bound
    ensures Descends(Insert(m, ms), bound)
    ensures Multiple(Insert(m, ms)) == Sum(Times(Generator(), m), Multiple(ms))
    decreases |ms|
  {
    hide Times, Sum, Generator;
    if ms == [] || m > ms[0] {
      assert ([m] + ms)[1..] == ms;
    } else if m == ms[0] {
      Relax(ms[1..], m, bound);
      assert Multiple(ms[1..]) == Sum(Times(Generator(), m), Multiple(ms));
    } else {
      var tail := Insert(m, ms[1..]);
      InsertKeeps(m, ms[1..], ms[0]);
      assert ([ms[0]] + tail)[1..] == tail;
      var a, b := Times(Generator(), ms[0]), Times(Generator(), m);
      assert Sum(a, Sum(b, Multiple(ms[1..]))) == Sum(b, Sum(a, Multiple(ms[1..])));
    }
  }

  /** Every multiple has a list of monomials without repetition. */
  lemma {:induction false} Reduce(ms: seq<nat>) returns (ds: seq<nat>, bound: nat)
    ensures Descends(ds, bound) && Multiple(ds) == Multiple(ms)
    decreases |ms|
  {
    hide Times, Sum, Generator, Insert;
    if ms == [] {
      ds, bound := [], 0;
    } else {
      var tail, b := Reduce(ms[1..]);
      bound := b + ms[0] + 1;
      Relax(tail, b, bound);
      InsertKeeps(ms[0], tail, bound);
      ds := Insert(ms[0], tail);
    }
  }

  lemma {:induction false} MultipleDegree(ds: seq<nat>, bound: nat)
    requires Descends(ds, bound)
    ensures DegreeBelow(Multiple(ds), 32 + bound)
    ensures ds != [] ==> 32 + ds[0] in Multiple(ds)
    decreases |ds|
  {
    hide Times, Sum, Generator;
    if ds == [] {
    } else {
      MultipleDegree(ds[1..], ds[0]);
      GeneratorDegree();
      assert 32 + ds[0] in Times(Generator(), ds[0]);
    }
  }

  lemma GeneratorDegree()
    ensures 32 in Generator() && DegreeBelow(Generator(), 33)
  {
  }

  /** Polynomials of degree under 32 that are congruent are equal. */
  lemma RemainderIsUnique(p: Poly, q: Poly)
    requires DegreeBelow(p, 32) && DegreeBelow(q, 32) && Congruent(p, q)
    ensures p == q
  {
    hide Sum, Multiple, Generator;
    var ms :| Sum(p, q) == Multiple(ms);
    var ds, bound := Reduce(ms);
    if ds != [] {
      MultipleDegree(ds, bound);
      assert false;
    }
    NoMonomials();
    forall e ensures e in p <==> e in q { assert e !in Sum(p, q); }
  }

  lemma NoMonomials()
    ensures Multiple([]) == {}
  {
  }

  /******* The register *******/

  /** Bits in the order they are sent: the first has the highest exponent. The lowest
      bit of a reflected register is its coefficient of x^31. */
  function PolyOf(bits: seq<bool>): (p: Poly)
    ensures forall e: nat :: e in p <==> e < |bits| && bits[|bits| - 1 - e]
  {
    set i | 0 <= i < |bits| && bits[i] :: |bits| - 1 - i
  }

  /** The reflected constant is the generator without its leading term. */
  lemma PolynomialIsGenerator(e: nat)
    requires e < 32
    ensures Polynomial()[31 - e] <==> e in Generator()
  {
    match e
    case 0 => case 1 => case 2 => case 3 => case 4 => case 5 => case 6 => case 7 =>
    case 8 => case 9 => case 10 => case 11 => case 12 => case 13 => case 14 => case 15 =>
    case 16 => case 17 => case 18 => case 19 => case 20 => case 21 => case 22 => case 23 =>
    case 24 => case 25 => case 26 => case 27 => case 28 => case 29 => case 30 => case 31 =>
  }

  lemma BitStepTerm(c: Word, e: nat)
    ensures e in PolyOf(BitStep(c)) <==> (e >= 1 && e - 1 in PolyOf(c)) != (c[0] && e in Generator())
  {
    hide PolyOf, Generator, BitStep, Polynomial;
    GeneratorDegree();
    if e < 32 {
      BitStepAt(c, 31 - e);
      PolynomialIsGenerator(e);
    }
  }

  /** One turn of the inner loop multiplies by x and reduces. */
  lemma BitStepMultiplies(c: Word)
    ensures PolyOf(BitStep(c)) == Sum(Times(PolyOf(c), 1), if c[0] then Generator() else {})
  {
    hide Sum, Times, PolyOf, Generator, BitStep, Polynomial;
    forall e: nat
      ensures e in PolyOf(BitStep(c)) <==> e in Sum(Times(PolyOf(c), 1), if c[0] then Generator() else {})
    {
      BitStepTerm(c, e);
    }
  }

  lemma BitStepAt(c: Word, i: nat)
    requires i < 32
    ensures BitStep(c)[i] == ((i < 31 && c[i + 1]) != (Polynomial()[i] && c[0]))
  {
    hide Polynomial;
    assert BitStep(c)[i] == (ShiftRight(c)[i] != (Polynomial()[i] && c[0]));
  }

  lemma BitStepIsCongruent(c: Word)
    ensures Congruent(PolyOf(BitStep(c)), Times(PolyOf(c), 1))
  {
    hide Sum, Times, PolyOf, Generator, BitStep, Multiple;
    BitStepMultiplies(c);
    NoMonomials();
    OneMonomial();
    var m := if c[0] then Generator() else {};
    assert Sum(Sum(Times(PolyOf(c), 1), m), Times(PolyOf(c), 1)) == m;
    assert m == Multiple(if c[0] then [0] else []);
  }

  lemma OneMonomial()
    ensures Multiple([0]) == Generator()
  {
    hide Generator;
    assert [0][1..] == [] && Times(Generator(), 0) == Generator();
    assert Sum(Generator(), {}) == Generator();
  }

  lemma XorAdds(c: Word, b: bool)
    ensures PolyOf(Xor(c, Extend([b]))) == Sum(PolyOf(c), if b then {31} else {})
  {
    forall e: nat
      ensures e in PolyOf(Xor(c, Extend([b]))) <==> e in Sum(PolyOf(c), if b then {31} else {})
    {
      if e < 32 { assert Extend([b])[31 - e] == (e == 31 && b); }
    }
  }

  /** Feeding one message bit: multiply by x, and add the bit at x^32. */
  lemma FeedOneIsCongruent(c: Word, b: bool)
    ensures Congruent(PolyOf(BitStep(Xor(c, Extend([b])))), Sum(Times(PolyOf(c), 1), if b then {32} else {}))
  {
    hide Sum, Times, PolyOf, BitStep, Xor, Extend, Congruent;
    var x := Xor(c, Extend([b]));
    BitStepIsCongruent(x);
    XorAdds(c, b);
    TimesSum(PolyOf(c), if b then {31} else {}, 1);
    assert Times(if b then {31} else {}, 1) == if b then {32} else {};
  }

  /** After any message bits the register is congruent to the start, shifted past the
      message, plus the message times x^32. */
  lemma {:induction false} FeedIsCongruent(c: Word, bits: seq<bool>)
    ensures Congruent(PolyOf(Feed(c, bits)), Sum(Times(PolyOf(c), |bits|), Times(PolyOf(bits), 32)))
    decreases |bits|
  {
    hide Sum, Times, PolyOf, BitStep, Xor, Extend, Congruent;
    if bits == [] {
      assert Times(PolyOf(c), 0) == PolyOf(c) && PolyOf(bits) == {} && Times({}, 32) == {};
      assert Sum(PolyOf(c), {}) == PolyOf(c);
      CongruentSelf(PolyOf(c));
    } else {
      var b, rest, n := bits[0], bits[1..], |bits| - 1;
      var c1 := BitStep(Xor(c, Extend([b])));
      var bit: Poly := if b then {32} else {};
      FeedIsCongruent(c1, rest);
      FeedOneIsCongruent(c, b);
      var fed := Sum(Times(PolyOf(c), 1), bit);
      var tail := Times(PolyOf(rest), 32);
      CongruentTimes(PolyOf(c1), fed, n);
      CongruentSelf(tail);
      CongruentSum(Times(PolyOf(c1), n), Times(fed, n), tail, tail);
      CongruentTransitive(PolyOf(Feed(c1, rest)), Sum(Times(PolyOf(c1), n), tail), Sum(Times(fed, n), tail));
      Collect(c, bits);
    }
  }

  /** The first bit of a message is its highest term. */
  lemma Collect(c: Word, bits: seq<bool>)
    requires bits != []
    ensures var bit: Poly := if bits[0] then {32} else {};
            Sum(Times(Sum(Times(PolyOf(c), 1), bit), |bits| - 1), Times(PolyOf(bits[1..]), 32))
            == Sum(Times(PolyOf(c), |bits|), Times(PolyOf(bits), 32))
  {
    hide Sum, Times, PolyOf;
    var n, bit: Poly := |bits| - 1, if bits[0] then {32} else {};
    TimesSum(Times(PolyOf(c), 1), bit, n);
    TimesTimes(PolyOf(c), 1, n);
    var top := Times(bit, n);
    var rest := Times(PolyOf(bits[1..]), 32);
    assert Times(PolyOf(bits), 32) == Sum(top, rest) by { FirstBitOnTop(bits); }
    assert Sum(Sum(Times(PolyOf(c), |bits|), top), rest) == Sum(Times(PolyOf(c), |bits|), Sum(top, rest));
  }

  lemma FirstBitOnTop(bits: seq<bool>)
    requires bits != []
    ensures Times(PolyOf(bits), 32)
         == Sum(Times(if bits[0] then {32} else {}, |bits| - 1), Times(PolyOf(bits[1..]), 32))
  {
    hide Sum, Times, PolyOf;
    var n, bit: Poly := |bits| - 1, if bits[0] then {32} else {};
    var rest := bits[1..];
    forall e: nat ensures e in Times(PolyOf(bits), 32) <==> e in Sum(Times(bit, n), Times(PolyOf(rest), 32)) {
      assert e in Times(bit, n) <==> e >= n && e - n in bit;
      if e >= 32 {
        var k: nat := e - 32;
        assert k in PolyOf(bits) <==> k < |bits| && bits[|bits| - 1 - k];
        assert k in PolyOf(rest) <==> k < n && rest[n - 1 - k];
      }
    }
  }

  /** The register after a message `d`, started from all ones, is the one polynomial of
      degree under 32 that is congruent, modulo the generator, to the message times x^32
      plus the all-ones start times x^(8|d|). */
  lemma RegisterIsRemainder(d: Bytes, r: Poly)
    ensures DegreeBelow(PolyOf(Register(AllOnes(), d)), 32)
    ensures DegreeBelow(r, 32) ==>
              (r == PolyOf(Register(AllOnes(), d)) <==>
               Congruent(r, Sum(Times(PolyOf(Bits(d)), 32), Times(PolyOf(AllOnes()), 8 * |d|))))
  {
    hide Sum, Times, PolyOf, Congruent, Register, Feed, Bits, AllOnes;
    var reg := PolyOf(Register(AllOnes(), d));
    var a, b := Times(PolyOf(AllOnes()), 8 * |d|), Times(PolyOf(Bits(d)), 32);
    RegisterIsFeed(AllOnes(), d);
    FeedIsCongruent(AllOnes(), Bits(d));
    assert Sum(a, b) == Sum(b, a);
    if DegreeBelow(r, 32) && Congruent(r, Sum(b, a)) {
      CongruentSymmetric(reg, Sum(b, a));
      CongruentTransitive(r, Sum(b, a), reg);
      RemainderIsUnique(r, reg);
    }
  }

  lemma CongruentSymmetric(p: Poly, q: Poly)
    requires Congruent(p, q)
    ensures Congruent(q, p)
  {
    hide Sum, Multiple;
    assert Sum(p, q) == Sum(q, p);
  }

  lemma StartIsAllOnes()
    ensures forall e: nat :: e in PolyOf(AllOnes()) <==> e < 32
  {
    hide PolyOf;
  }
}
