/** Where each field lies in what is stored and sent, and in which order things sort. */
module LayoutLaws {
  import opened Base
  import opened Entry
  import opened Wire
  import opened Crc
  import opened Codec
  import Store
  import Protocol

  /** `piece` lies in `s` at offset `at`. */
  predicate Lies(s: Bytes, at: nat, piece: Bytes) { at + |piece| <= |s| && s[at..at + |piece|] == piece }

  lemma Advance(s: Bytes, at: nat, piece: Bytes, rest: Bytes)
    requires at <= |s| && s[at..] == piece + rest
    ensures Lies(s, at, piece) && at + |piece| <= |s| && s[at + |piece|..] == rest
  {
    assert s[at..][..|piece|] == piece;
    assert s[at..][|piece|..] == rest;
  }

  /******* The payload of an entry *******/

  ghost predicate HeadLies(s: Bytes, at: nat, e: LedgerEntry) {
    && Lies(s, at, PutId(e.id)) && Lies(s, at + 16, PutId(e.ledger)) && Lies(s, at + 32, PutId(e.tenant))
    && Lies(s, at + 48, PutId(e.workload)) && Lies(s, at + 64, PutId(e.request)) && Lies(s, at + 80, PutId(e.model))
    && Lies(s, at + 96, PutId(e.modelRevision)) && OptionLies(s, at + 112, e.hasAdapter, e.adapter)
  }

  /** A flag byte, one or zero, and the identity only behind a one. */
  ghost predicate OptionLies(s: Bytes, at: nat, present: bool, x: Id) {
    && Lies(s, at, [if present then 1 else 0])
    && (present ==> Lies(s, at + 1, PutId(x)))
  }

  function OptionEnd(at: nat, present: bool): nat { at + if present then 17 else 1 }

  lemma OptionLayout(s: Bytes, at: nat, present: bool, x: Id, rest: Bytes)
    requires at <= |s| && s[at..] == PutOptionalId(present, x, rest)
    ensures OptionLies(s, at, present, x)
    ensures OptionEnd(at, present) <= |s| && s[OptionEnd(at, present)..] == rest
  {
    hide Lies, PutId;
    Advance(s, at, PutBool(present), if present then PutId(x) + rest else rest);
    if present { Advance(s, at + 1, PutId(x), rest); }
  }

  lemma HeadLayout(s: Bytes, at: nat, e: LedgerEntry, rest: Bytes)
    requires at <= |s| && s[at..] == PutHead(e, rest)
    ensures HeadLies(s, at, e)
    ensures OptionEnd(at + 112, e.hasAdapter) <= |s| && s[OptionEnd(at + 112, e.hasAdapter)..] == rest
  {
    hide Lies, PutId, PutOptionalId, OptionLies, OptionEnd;
    var s7 := PutOptionalId(e.hasAdapter, e.adapter, rest);
    var s6 := PutId(e.modelRevision) + s7;
    var s5 := PutId(e.model) + s6;
    var s4 := PutId(e.request) + s5;
    var s3 := PutId(e.workload) + s4;
    var s2 := PutId(e.tenant) + s3;
    var s1 := PutId(e.ledger) + s2;
    Advance(s, at, PutId(e.id), s1);
    Advance(s, at + 16, PutId(e.ledger), s2);
    Advance(s, at + 32, PutId(e.tenant), s3);
    Advance(s, at + 48, PutId(e.workload), s4);
    Advance(s, at + 64, PutId(e.request), s5);
    Advance(s, at + 80, PutId(e.model), s6);
    Advance(s, at + 96, PutId(e.modelRevision), s7);
    OptionLayout(s, at + 112, e.hasAdapter, e.adapter, rest);
  }

  ghost predicate ActorsLie(s: Bytes, at: nat, e: LedgerEntry) {
    && Lies(s, at, PutId(e.attempt)) && Lies(s, at + 16, PutId(e.dispatch)) && Lies(s, at + 32, PutId(e.worker))
    && Lies(s, at + 48, PutId(e.node)) && Lies(s, at + 64, PutId(e.device))
  }

  lemma ActorsLayout(s: Bytes, at: nat, e: LedgerEntry, rest: Bytes)
    requires at <= |s| && s[at..] == PutActors(e, rest)
    ensures ActorsLie(s, at, e) && at + 80 <= |s| && s[at + 80..] == rest
  {
    hide Lies, PutId;
    var s4 := PutId(e.device) + rest;
    var s3 := PutId(e.node) + s4;
    var s2 := PutId(e.worker) + s3;
    var s1 := PutId(e.dispatch) + s2;
    Advance(s, at, PutId(e.attempt), s1);
    Advance(s, at + 16, PutId(e.dispatch), s2);
    Advance(s, at + 32, PutId(e.worker), s3);
    Advance(s, at + 48, PutId(e.node), s4);
    Advance(s, at + 64, PutId(e.device), rest);
  }

  ghost predicate FactsLie(s: Bytes, at: nat, e: LedgerEntry) {
    && Lies(s, at, [EventCode(e.eventKind)]) && Lies(s, at + 1, [ResourceCode(e.resourceKind)])
    && Lies(s, at + 2, PutU64(e.quantity.bits)) && Lies(s, at + 10, [UnitCode(e.quantity.unit)])
    && Lies(s, at + 11, [ProvenanceCode(e.quantity.provenance)])
    && Lies(s, at + 12, PutU64(e.startNs)) && Lies(s, at + 20, PutU64(e.endNs))
    && Lies(s, at + 28, [if e.hasEnd then 1 else 0])
  }

  lemma FactsLayout(s: Bytes, at: nat, e: LedgerEntry, rest: Bytes)
    requires at <= |s|
    requires s[at..] == PutKinds(e.eventKind, e.resourceKind, PutQuantity(e.quantity, PutTimes(e, rest)))
    ensures FactsLie(s, at, e) && at + 29 <= |s| && s[at + 29..] == rest
  {
    hide Lies, PutU64, EventCode, ResourceCode, UnitCode, ProvenanceCode;
    var s7 := PutBool(e.hasEnd) + rest;
    var s6 := PutU64(e.endNs) + s7;
    var s5 := PutU64(e.startNs) + s6;
    var s4 := [ProvenanceCode(e.quantity.provenance)] + s5;
    var s3 := [UnitCode(e.quantity.unit)] + s4;
    var s2 := PutU64(e.quantity.bits) + s3;
    var s1 := [ResourceCode(e.resourceKind)] + s2;
    Advance(s, at, [EventCode(e.eventKind)], s1);
    Advance(s, at + 1, [ResourceCode(e.resourceKind)], s2);
    Advance(s, at + 2, PutU64(e.quantity.bits), s3);
    Advance(s, at + 10, [UnitCode(e.quantity.unit)], s4);
    Advance(s, at + 11, [ProvenanceCode(e.quantity.provenance)], s5);
    Advance(s, at + 12, PutU64(e.startNs), s6);
    Advance(s, at + 20, PutU64(e.endNs), s7);
    Advance(s, at + 28, PutBool(e.hasEnd), rest);
  }

  ghost predicate AuthorityLies(s: Bytes, at: nat, e: LedgerEntry) {
    && Lies(s, at, PutId(e.source.worker)) && Lies(s, at + 16, PutId(e.source.boot))
    && Lies(s, at + 32, PutU64(e.source.accountingGeneration))
    && Lies(s, at + 40, PutU64(e.authority.epoch)) && Lies(s, at + 48, PutId(e.authority.workerBoot))
    && Lies(s, at + 64, PutU64(e.authority.requestGeneration))
    && Lies(s, at + 72, PutU64(e.authority.accountingGeneration)) && Lies(s, at + 80, PutId(e.authority.attempt))
    && Lies(s, at + 96, PutU64(e.authority.attemptGeneration)) && Lies(s, at + 104, PutId(e.authority.dispatch))
  }

  lemma AuthorityLayout(s: Bytes, at: nat, e: LedgerEntry, rest: Bytes)
    requires at <= |s| && s[at..] == PutSource(e.source, PutEnvelope(e.authority, rest))
    ensures AuthorityLies(s, at, e) && at + 120 <= |s| && s[at + 120..] == rest
  {
    hide Lies, PutId, PutU64;
    var x, y := e.source, e.authority;
    var s9 := PutId(y.dispatch) + rest;
    var s8 := PutU64(y.attemptGeneration) + s9;
    var s7 := PutId(y.attempt) + s8;
    var s6 := PutU64(y.accountingGeneration) + s7;
    var s5 := PutU64(y.requestGeneration) + s6;
    var s4 := PutId(y.workerBoot) + s5;
    var s3 := PutU64(y.epoch) + s4;
    var s2 := PutU64(x.accountingGeneration) + s3;
    var s1 := PutId(x.boot) + s2;
    Advance(s, at, PutId(x.worker), s1);
    Advance(s, at + 16, PutId(x.boot), s2);
    Advance(s, at + 32, PutU64(x.accountingGeneration), s3);
    Advance(s, at + 40, PutU64(y.epoch), s4);
    Advance(s, at + 48, PutId(y.workerBoot), s5);
    Advance(s, at + 64, PutU64(y.requestGeneration), s6);
    Advance(s, at + 72, PutU64(y.accountingGeneration), s7);
    Advance(s, at + 80, PutId(y.attempt), s8);
    Advance(s, at + 96, PutU64(y.attemptGeneration), s9);
    Advance(s, at + 104, PutId(y.dispatch), rest);
  }

  /** Where each field of an entry lies in the payload of its frame. */
  ghost predicate EntryLies(s: Bytes, e: LedgerEntry) {
    var actors := OptionEnd(117, e.hasAdapter);
    var accounting := actors + 229;
    var pricing := OptionEnd(accounting, e.hasAccountingPolicy);
    var metadata := OptionEnd(pricing, e.hasPricingPolicy);
    && Lies(s, 0, [0xBE, 0, 0, 0, 1]) && HeadLies(s, 5, e) && ActorsLie(s, actors, e)
    && FactsLie(s, actors + 80, e) && AuthorityLies(s, actors + 109, e)
    && OptionLies(s, accounting, e.hasAccountingPolicy, e.accountingPolicy)
    && OptionLies(s, pricing, e.hasPricingPolicy, e.pricingPolicy)
    && |e.metadata| <= 0xFFFF_FFFF && metadata <= |s|
    && s[metadata..] == PutU32(|e.metadata|) + PutPairs(SortedKeys(e.metadata), e.metadata)
  }

  lemma PayloadLayout(e: LedgerEntry)
    requires |e.metadata| <= 0xFFFF_FFFF
    ensures EntryLies(Payload(e), e)
  {
    hide Lies, PutHead, PutActors, PutKinds, PutQuantity, PutTimes, PutSource, PutEnvelope, PutOptionalId, PutPairs;
    hide HeadLies, ActorsLie, FactsLie, AuthorityLies, OptionLies, SortedKeys;
    var s := Payload(e);
    var s6 := PutMetadata(e.metadata);
    var s5 := PutOptionalId(e.hasPricingPolicy, e.pricingPolicy, s6);
    var s4 := PutOptionalId(e.hasAccountingPolicy, e.accountingPolicy, s5);
    var s3 := PutTrailer(e);
    var s2 := PutKinds(e.eventKind, e.resourceKind, PutQuantity(e.quantity, PutTimes(e, s3)));
    var s1 := PutActors(e, s2);
    var actors := OptionEnd(117, e.hasAdapter);
    Preamble(e);
    HeadLayout(s, 5, e, s1);
    ActorsLayout(s, actors, e, s2);
    FactsLayout(s, actors + 80, e, s3);
    AuthorityLayout(s, actors + 109, e, s4);
    var accounting := actors + 229;
    OptionLayout(s, accounting, e.hasAccountingPolicy, e.accountingPolicy, s5);
    OptionLayout(s, OptionEnd(accounting, e.hasAccountingPolicy), e.hasPricingPolicy, e.pricingPolicy, s6);
  }

  lemma Preamble(e: LedgerEntry)
    requires |e.metadata| <= 0xFFFF_FFFF
    ensures Lies(Payload(e), 0, [0xBE, 0, 0, 0, 1]) && |Payload(e)| >= 5 && Payload(e)[5..] == PutBody(e)
  {
    hide PutBody;
  }

  /******* Codes *******/

  /** The kinds in the order of their codes. */
  const EVENTS: seq<EventKind> := [
    RequestStart, RequestEnd, Queue, BatchWait, Prefill, Decode, SpeculationProposed, SpeculationAccepted,
    SpeculationRejected, GpuExecution, CpuExecution, KvAllocate, KvRelease, KvReuse, TensorAllocate,
    TensorRelease, TensorReuse, ModelResidency, AdapterResidency, KernelHit, KernelMiss, GraphHit, GraphMiss,
    TransferH2D, TransferD2H, TransferInterNode, CacheRead, CacheWrite, Reserve, Release, Retry, Failure,
    Cancellation, Recompute, ReuseAvoided, EventKind.Energy, CostAdjustment]

  const RESOURCES: seq<ResourceKind> := [
    Compute, Memory, Kv, Tensor, Transfer, Residency, Cache, ResourceKind.Energy, Cost, Generic]

  const UNITS: seq<Unit> := [
    Count, ByteCount, ByteSeconds, Unit.Seconds, Nanoseconds, EnergyJoule, EnergyWh, Currency, Dimensionless]

  const PROVENANCES: seq<Provenance> := [Measured, Reported, Derived, Estimated, Reconstructed, Unavailable]

  /** Event and resource kinds are numbered from one, units and provenances from zero,
      and no other code is accepted. */
  lemma EventCodes(c: Byte)
    ensures EventOf(c) == if 1 <= c <= 37 then Some(EVENTS[c - 1]) else None
  {
  }

  lemma OtherCodes(c: Byte)
    ensures ResourceOf(c) == if 1 <= c <= 10 then Some(RESOURCES[c - 1]) else None
    ensures UnitOf(c) == if c <= 8 then Some(UNITS[c]) else None
    ensures ProvenanceOf(c) == if c <= 5 then Some(PROVENANCES[c]) else None
  {
  }

  /******* Files and messages *******/

  const LETTERS: Bytes := [0x49, 0x4C, 0x45, 0x44, 0x47, 0x45, 0x52, 0x4B]

  lemma LettersSpellTheFormat()
    ensures |LETTERS| == |"ILEDGERK"| && forall i :: 0 <= i < |LETTERS| ==> LETTERS[i] == "ILEDGERK"[i] as int
  {
  }

  lemma MagicIsLetters()
    ensures PutU64(Store.MAGIC) == LETTERS
  {
    hide PutU32;
    assert Store.MAGIC / 0x1_0000_0000 == 0x494C_4544 && Store.MAGIC % 0x1_0000_0000 == 0x4745_524B;
    FourLetters();
  }

  lemma FourLetters()
    ensures PutU32(0x494C_4544) == LETTERS[..4] && PutU32(0x4745_524B) == LETTERS[4..]
  {
  }

  /** A file begins with the letters of the format, the version and the ledger. */
  lemma HeaderLayout(ledgerId: Id)
    ensures var h := Store.Header(ledgerId);
            Lies(h, 0, LETTERS) && Lies(h, 8, [0, 0, 0, 1]) && Lies(h, 12, PutId(ledgerId)) && |h| == 28
  {
    hide PutId, PutU64, Lies;
    MagicIsLetters();
    var h := Store.Header(ledgerId);
    assert PutU32(SCHEMA_VERSION) == [0, 0, 0, 1];
    Advance(h, 0, PutU64(Store.MAGIC), PutU32(SCHEMA_VERSION) + PutId(ledgerId));
    Advance(h, 8, PutU32(SCHEMA_VERSION), PutId(ledgerId));
    assert PutId(ledgerId) + [] == PutId(ledgerId);
    Advance(h, 12, PutId(ledgerId), []);
  }

  /** A message's content begins with the number of its type. */
  lemma MessageTypes(m: Protocol.Message)
    requires Protocol.Content(m).Some?
    ensures var c := Protocol.Content(m).value;
            c != [] && c[0] == match m
                               case Register(_, _) => 1
                               case RegisterAck(_, _, _, _) => 2
                               case EventSubmit(_) => 3
                               case EventAck(_, _) => 4
                               case Roll(_, _) => 5
                               case Shutdown => 6
                               case Ping => 7
  {
    hide EncodeEntry, PutId, PutU64, PutU32, PutString, PutBool;
  }

  /** A type that is none of these, alone in its frame, reads as a Ping. */
  lemma UnknownTypeReadsAsPing(t: Byte)
    requires !(1 <= t <= 7)
    ensures Protocol.DecodeMessage([t]) == Some(Protocol.Ping)
  {
  }

  /** An empty frame and one over 16 MiB are refused, however intact. */
  lemma FrameLimits(content: Bytes, rest: Bytes)
    requires |content| < 0x1_0000_0000 && (content == [] || |content| > 16 * 1024 * 1024)
    ensures Protocol.Receive(Framed(content) + rest) == None
  {
    hide Crc32, U32Of, PutU32, Protocol.DecodeMessage;
    var stream, len := Framed(content) + rest, PutU32(|content|);
    assert stream[0] == len[0] && stream[1] == len[1] && stream[2] == len[2] && stream[3] == len[3];
    U32RoundTrip(|content|);
  }

  /******* Orders *******/

  /** Identities sort as the 128-bit numbers they are. */
  lemma IdOrderIsNumeric(a: Id, b: Id)
    ensures IdLess(a, b) <==> a.hi * U64_MODULUS + a.lo < b.hi * U64_MODULUS + b.lo
  {
  }

  /** `a` and `b` agree before `k`, where `a` ends or has the smaller byte. */
  predicate SmallerAt(a: Bytes, b: Bytes, k: nat) {
    && k <= |a| && k < |b| && a[..k] == b[..k]
    && (k == |a| || a[k] < b[k])
  }

  /** Strings sort by their first difference, a proper prefix first. */
  lemma {:induction false} LexMeans(a: Bytes, b: Bytes)
    ensures LexLess(a, b) <==> exists k: nat :: SmallerAt(a, b, k)
  {
    if b == [] {
    } else if a == [] {
      assert SmallerAt(a, b, 0);
    } else {
      LexMeans(a[1..], b[1..]);
      if a[0] < b[0] { assert SmallerAt(a, b, 0); }
      if a[0] == b[0] && LexLess(a[1..], b[1..]) {
        var k: nat :| SmallerAt(a[1..], b[1..], k);
        assert a[..k + 1] == [a[0]] + a[1..][..k] && b[..k + 1] == [b[0]] + b[1..][..k];
        assert SmallerAt(a, b, k + 1);
      }
      if exists k: nat :: SmallerAt(a, b, k) {
        var k: nat :| SmallerAt(a, b, k);
        if k > 0 {
          assert a[..k][0] == b[..k][0];
          assert a[1..][..k - 1] == a[..k][1..] && b[1..][..k - 1] == b[..k][1..];
          assert SmallerAt(a[1..], b[1..], k - 1);
        }
      }
    }
  }
}
