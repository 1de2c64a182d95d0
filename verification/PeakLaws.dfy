/** The reported peaks are what a reader of the ledger would call a peak. */
module PeakLaws {
  import opened Base
  import opened Entry
  import opened Account
  import opened Codec
  import opened Ledger
  import opened TotalsLaws

  /** What a move adds to the amount held. */
  function Delta(move: Move): real {
    match move
    case Grow(v) => v
    case Shrink(v) => -v
    case Still => 0.0
  }

  /** Acquired less released over the moves from `i` up to `j`. */
  function Net(moves: seq<Move>, i: nat, j: nat): real
    requires i <= j <= |moves|
    decreases j
  {
    if i == j then 0.0 else Net(moves, i, j - 1) + Delta(moves[j - 1])
  }

  function GrownIn(moves: seq<Move>): real {
    if moves == [] then 0.0 else
    var n := |moves| - 1;
    GrownIn(moves[..n]) + if moves[n].Grow? then moves[n].v else 0.0
  }

  function MeterOf(moves: seq<Move>): Meter {
    if moves == [] then Meter(0.0, 0.0, 0.0) else MeterStep(MeterOf(moves[..|moves| - 1]), moves[|moves| - 1])
  }

  predicate NonNegative(moves: seq<Move>) {
    forall i :: 0 <= i < |moves| ==> moves[i].Still? || moves[i].v >= 0.0
  }

  /** `x` is the greatest net of a run of moves that ends at the last one. */
  ghost predicate GreatestSuffix(moves: seq<Move>, x: real) {
    && (forall i :: 0 <= i <= |moves| ==> Net(moves, i, |moves|) <= x)
    && exists i :: 0 <= i <= |moves| && Net(moves, i, |moves|) == x
  }

  /** `x` is the greatest net of any contiguous run; the empty run nets nothing. */
  ghost predicate GreatestRun(moves: seq<Move>, x: real) {
    && (forall i, j :: 0 <= i <= j <= |moves| ==> Net(moves, i, j) <= x)
    && exists i, j :: 0 <= i <= j <= |moves| && Net(moves, i, j) == x
  }

  lemma {:induction false} NetOfPrefix(moves: seq<Move>, n: nat, i: nat, j: nat)
    requires i <= j <= n <= |moves|
    ensures Net(moves[..n], i, j) == Net(moves, i, j)
    decreases j
  {
    if i < j { NetOfPrefix(moves, n, i, j - 1); }
  }

  /** The clamped level is the greatest suffix. */
  lemma {:induction false} LiveIsGreatestSuffix(moves: seq<Move>)
    requires NonNegative(moves)
    ensures GreatestSuffix(moves, MeterOf(moves).live)
    ensures MeterOf(moves).live >= 0.0
  {
    if moves == [] {
      assert Net(moves, 0, 0) == 0.0;
    } else {
      var n := |moves| - 1;
      var before := moves[..n];
      LiveIsGreatestSuffix(before);
      forall i | 0 <= i <= n ensures Net(moves, i, n + 1) == Net(before, i, n) + Delta(moves[n]) {
        NetOfPrefix(moves, n, i, n);
      }
      assert Net(moves, n + 1, n + 1) == 0.0;
      var i :| 0 <= i <= n && Net(before, i, n) == MeterOf(before).live;
      assert Net(moves, i, n + 1) == MeterOf(before).live + Delta(moves[n]);
      assert moves[n].Still? || moves[n].v >= 0.0;
      assert Net(moves, i, n + 1) == MeterOf(moves).live || Net(moves, n + 1, n + 1) == MeterOf(moves).live;
      forall i | 0 <= i <= |moves| ensures Net(moves, i, |moves|) <= MeterOf(moves).live {
        if i <= n { assert Net(before, i, n) <= MeterOf(before).live; }
      }
    }
  }

  /** The reported peak is the greatest net of any run, and no more than was acquired. */
  lemma {:induction false} PeakIsGreatestRun(moves: seq<Move>)
    requires NonNegative(moves)
    ensures GreatestRun(moves, MeterOf(moves).peak)
    ensures MeterOf(moves).live <= MeterOf(moves).peak <= MeterOf(moves).acquired == GrownIn(moves)
    ensures MeterOf(moves).live <= MeterOf(moves).acquired
  {
    if moves == [] {
      assert Net(moves, 0, 0) == 0.0;
    } else {
      var n := |moves| - 1;
      var before := moves[..n];
      PeakIsGreatestRun(before);
      LiveIsGreatestSuffix(before);
      LiveIsGreatestSuffix(moves);
      forall i, j | 0 <= i <= j <= n ensures Net(moves, i, j) == Net(before, i, j) { NetOfPrefix(moves, n, i, j); }
      var i, j :| 0 <= i <= j <= n && Net(before, i, j) == MeterOf(before).peak;
      assert Net(moves, i, j) == MeterOf(before).peak;
      var k :| 0 <= k <= n + 1 && Net(moves, k, n + 1) == MeterOf(moves).live;
    }
  }

  /******* In terms of entries *******/

  function KvMoves(es: seq<LedgerEntry>): (moves: seq<Move>)
    ensures |moves| == |es| && forall i :: 0 <= i < |es| ==> moves[i] == KvMove(es[i])
  {
    seq(|es|, i requires 0 <= i < |es| => KvMove(es[i]))
  }

  function TensorMoves(es: seq<LedgerEntry>): (moves: seq<Move>)
    ensures |moves| == |es| && forall i :: 0 <= i < |es| ==> moves[i] == TensorMove(es[i])
  {
    seq(|es|, i requires 0 <= i < |es| => TensorMove(es[i]))
  }

  /** Allocations add to the level, releases take away, other entries do neither. */
  lemma MovesMean(e: LedgerEntry)
    ensures Delta(KvMove(e)) == if e.eventKind == KvAllocate then Amount(e)
                                else if e.eventKind == KvRelease then -Amount(e) else 0.0
    ensures Delta(TensorMove(e)) == if e.eventKind == TensorAllocate then Amount(e)
                                    else if e.eventKind == TensorRelease then -Amount(e) else 0.0
    ensures KvMove(e).Grow? <==> e.eventKind == KvAllocate
    ensures TensorMove(e).Grow? <==> e.eventKind == TensorAllocate
  {
    hide Amount;
  }

  lemma {:induction false} TotalsAreMeters(es: seq<LedgerEntry>)
    ensures TotalsOf(es).kv == MeterOf(KvMoves(es))
    ensures TotalsOf(es).tensor == MeterOf(TensorMoves(es))
  {
    hide TotalsStep, MeterStep, KvMove, TensorMove, Bump, DurationNs, Amount, Tokens, Joules, HeldBytes;
    if es == [] {
    } else {
      var n := |es| - 1;
      TotalsAreMeters(es[..n]);
      StepIsContribution(TotalsOf(es[..n]), es[n]);
      assert KvMoves(es)[..n] == KvMoves(es[..n]);
      assert TensorMoves(es)[..n] == TensorMoves(es[..n]);
    }
  }

  predicate MovesLevel(e: LedgerEntry) {
    e.eventKind.KvAllocate? || e.eventKind.KvRelease? || e.eventKind.TensorAllocate? || e.eventKind.TensorRelease?
  }

  /** The entries that move a level carry no negative amount. */
  predicate NonNegativeAmounts(es: seq<LedgerEntry>) {
    forall i :: 0 <= i < |es| && MovesLevel(es[i]) ==> Amount(es[i]) >= 0.0
  }

  lemma PeaksAreGreatestRuns(es: seq<LedgerEntry>)
    requires NonNegativeAmounts(es)
    ensures var t := Reconcile(es).totals;
            && GreatestRun(KvMoves(es), t.kv.peak) && t.kv.peak <= t.kv.acquired == GrownIn(KvMoves(es))
            && GreatestRun(TensorMoves(es), t.tensor.peak)
            && t.tensor.peak <= t.tensor.acquired == GrownIn(TensorMoves(es))
  {
    hide TotalsOf, AttemptsOf, MeterOf, GreatestRun, Amount, GrownIn, Winner, WasteOf;
    TotalsAreMeters(es);
    PeakIsGreatestRun(KvMoves(es));
    PeakIsGreatestRun(TensorMoves(es));
  }

  /** Every ledger meets the condition if the entries that move a level are recorded
      against a physical resource: the ledger stores no negative physical amount. */
  lemma StoredPeaks(es: seq<LedgerEntry>)
    requires AllValid(es)
    requires forall i :: 0 <= i < |es| && MovesLevel(es[i]) ==> IsPhysical(es[i].resourceKind)
    ensures NonNegativeAmounts(es)
  {
    hide Value, IsFinite;
    forall i | 0 <= i < |es| && IsPhysical(es[i].resourceKind) ensures Amount(es[i]) >= 0.0 {
      assert ContentIsValid(es[i]);
    }
  }

  /** An allocation of 2^52 bytes, or of as many less than none, filed under a resource
      kind that is not physical, so that the ledger accepts either sign. */
  function KvAllocation(bits: U64): LedgerEntry {
    BLANK.(eventKind := KvAllocate, resourceKind := Generic, quantity := Quantity(bits, ByteCount, Measured))
  }

  const PLUS: LedgerEntry := KvAllocation(0x4330_0000_0000_0000)
  const MINUS: LedgerEntry := KvAllocation(0xC330_0000_0000_0000)

  lemma SignedAmounts()
    ensures ContentIsValid(PLUS) && Amount(PLUS) == 4503599627370496.0
    ensures ContentIsValid(MINUS) && Amount(MINUS) == -4503599627370496.0
  {
    assert PowerOfTwo(0) == 1.0;
  }

  /** Without the sign condition the reported peak can miss the greatest run: two entries
      that the ledger stores leave the level at or below zero throughout. */
  lemma NegativeAmountHidesAPeak()
    ensures var es := [MINUS, PLUS];
            && AllValid(es) && Reconcile(es).totals.kv.peak == 0.0
            && Net(KvMoves(es), 1, 2) > 0.0 && !GreatestRun(KvMoves(es), Reconcile(es).totals.kv.peak)
  {
    hide TotalsOf, AttemptsOf, Winner, WasteOf, Amount, ContentIsValid;
    var es := [MINUS, PLUS];
    var moves := KvMoves(es);
    SignedAmounts();
    TotalsAreMeters(es);
    assert moves[..1] == [Grow(-4503599627370496.0)];
    assert moves[..1][..0] == [];
    assert MeterOf(moves[..1]) == Meter(-4503599627370496.0, -4503599627370496.0, 0.0);
    assert Net(moves, 1, 1) == 0.0;
    assert Net(moves, 1, 2) == 4503599627370496.0;
  }
}
