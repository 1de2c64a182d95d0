/** The checksummed entry codec: printing, parsing, and their round trips. */
module Codec {
  import opened Base
  import opened Entry
  import opened Wire
  import opened Crc

  const ENDIAN_MARKER: Byte := 0xBE
  const SCHEMA_VERSION: U32 := 1

  const BLANK: LedgerEntry := LedgerEntry(
    ZERO_ID, ZERO_ID, ZERO_ID, ZERO_ID, ZERO_ID, ZERO_ID, ZERO_ID, false, ZERO_ID,
    ZERO_ID, ZERO_ID, ZERO_ID, ZERO_ID, ZERO_ID,
    RequestStart, Generic, Quantity(0, Dimensionless, Unavailable), 0, 0, false,
    Source(ZERO_ID, ZERO_ID, 0), Envelope(0, ZERO_ID, 0, 0, ZERO_ID, 0, ZERO_ID),
    false, ZERO_ID, false, ZERO_ID, map[])

  /******* Printing, group of fields by group, each in front of `rest` *******/

  function PutOptionalId(present: bool, x: Id, rest: Bytes): Bytes {
    PutBool(present) + (if present then PutId(x) + rest else rest)
  }

  function PutHead(e: LedgerEntry, rest: Bytes): Bytes {
    PutId(e.id) + (PutId(e.ledger) + (PutId(e.tenant) + (PutId(e.workload) + (PutId(e.request)
    + (PutId(e.model) + (PutId(e.modelRevision) + PutOptionalId(e.hasAdapter, e.adapter, rest)))))))
  }

  function PutActors(e: LedgerEntry, rest: Bytes): Bytes {
    PutId(e.attempt) + (PutId(e.dispatch) + (PutId(e.worker) + (PutId(e.node) + (PutId(e.device) + rest))))
  }

  function PutKinds(ek: EventKind, rk: ResourceKind, rest: Bytes): Bytes {
    [EventCode(ek)] + ([ResourceCode(rk)] + rest)
  }

  function PutQuantity(q: Quantity, rest: Bytes): Bytes {
    PutU64(q.bits) + ([UnitCode(q.unit)] + ([ProvenanceCode(q.provenance)] + rest))
  }

  function PutTimes(e: LedgerEntry, rest: Bytes): Bytes {
    PutU64(e.startNs) + (PutU64(e.endNs) + (PutBool(e.hasEnd) + rest))
  }

  function PutSource(x: Source, rest: Bytes): Bytes {
    PutId(x.worker) + (PutId(x.boot) + (PutU64(x.accountingGeneration) + rest))
  }

  function PutEnvelope(x: Envelope, rest: Bytes): Bytes {
    PutU64(x.epoch) + (PutId(x.workerBoot) + (PutU64(x.requestGeneration) + (PutU64(x.accountingGeneration)
    + (PutId(x.attempt) + (PutU64(x.attemptGeneration) + (PutId(x.dispatch) + rest))))))
  }

  function PutPairs(keys: seq<Bytes>, m: map<Bytes, Bytes>): Bytes
    requires forall k :: k in keys ==> k in m
  {
    if keys == [] then [] else PutString(keys[0]) + (PutString(m[keys[0]]) + PutPairs(keys[1..], m))
  }

  function PutMetadata(m: map<Bytes, Bytes>): Bytes
    requires |m| <= 0xFFFF_FFFF
  {
    PutU32(|m|) + PutPairs(SortedKeys(m), m)
  }

  function PutTrailer(e: LedgerEntry): Bytes
    requires |e.metadata| <= 0xFFFF_FFFF
  {
    PutSource(e.source, PutEnvelope(e.authority,
      PutOptionalId(e.hasAccountingPolicy, e.accountingPolicy,
        PutOptionalId(e.hasPricingPolicy, e.pricingPolicy, PutMetadata(e.metadata)))))
  }

  function PutBody(e: LedgerEntry): Bytes
    requires |e.metadata| <= 0xFFFF_FFFF
  {
    PutHead(e, PutActors(e, PutKinds(e.eventKind, e.resourceKind, PutQuantity(e.quantity,
      PutTimes(e, PutTrailer(e))))))
  }

  /** The bytes a frame's checksum protects. */
  function Payload(e: LedgerEntry): Bytes
    requires |e.metadata| <= 0xFFFF_FFFF
  {
    [ENDIAN_MARKER] + (PutU32(SCHEMA_VERSION) + PutBody(e))
  }

  /** [length][crc][content]; the length is cast to 32 bits. */
  function Framed(content: Bytes): Bytes {
    PutU32(|content| % 0x1_0000_0000) + (PutU32(Crc32(content)) + content)
  }

  /** What the encoder checks before it prints anything. */
  predicate EncoderAccepts(e: LedgerEntry) {
    && IsFinite(e.quantity.bits)
    && !(IsPhysical(e.resourceKind) && IsNegative(e.quantity.bits))
    && !(e.quantity.unit.Count? && !IsIntegral(e.quantity.bits))
  }

  function EncodeEntry(e: LedgerEntry): Option<Bytes> {
    if EncoderAccepts(e) && |e.metadata| <= 0xFFFF_FFFF then Some(Framed(Payload(e))) else None
  }

  /******* Parsing, filling in an entry group by group *******/

  function GetOptionalId(s: Bytes): Parsed<(bool, Id)> {
    var (present, s) :- GetBool(s);
    if !present then Got((false, ZERO_ID), s) else
    var (x, s) :- GetId(s);
    Got((true, x), s)
  }

  function GetHead(e: LedgerEntry, s: Bytes): Parsed<LedgerEntry> {
    var (id, s) :- GetId(s);
    var (ledger, s) :- GetId(s);
    var (tenant, s) :- GetId(s);
    var (workload, s) :- GetId(s);
    var (request, s) :- GetId(s);
    var (model, s) :- GetId(s);
    var (modelRevision, s) :- GetId(s);
    var (adapter, s) :- GetOptionalId(s);
    Got(e.(id := id, ledger := ledger, tenant := tenant, workload := workload, request := request,
           model := model, modelRevision := modelRevision, hasAdapter := adapter.0, adapter := adapter.1), s)
  }

  function GetActors(e: LedgerEntry, s: Bytes): Parsed<LedgerEntry> {
    var (attempt, s) :- GetId(s);
    var (dispatch, s) :- GetId(s);
    var (worker, s) :- GetId(s);
    var (node, s) :- GetId(s);
    var (device, s) :- GetId(s);
    Got(e.(attempt := attempt, dispatch := dispatch, worker := worker, node := node, device := device), s)
  }

  function GetKinds(s: Bytes): Parsed<(EventKind, ResourceKind)> {
    var (ek, s) :- GetU8(s);
    var (rk, s) :- GetU8(s);
    if EventOf(ek).None? || ResourceOf(rk).None? then Failed
    else Got((EventOf(ek).value, ResourceOf(rk).value), s)
  }

  function GetQuantity(s: Bytes): Parsed<Quantity> {
    var (bits, s) :- GetU64(s);
    var (u, s) :- GetU8(s);
    var (p, s) :- GetU8(s);
    if UnitOf(u).None? || ProvenanceOf(p).None? then Failed
    else Got(Quantity(bits, UnitOf(u).value, ProvenanceOf(p).value), s)
  }

  function GetTimes(e: LedgerEntry, s: Bytes): Parsed<LedgerEntry> {
    var (startNs, s) :- GetU64(s);
    var (endNs, s) :- GetU64(s);
    var (hasEnd, s) :- GetBool(s);
    Got(e.(startNs := startNs, endNs := endNs, hasEnd := hasEnd), s)
  }

  function GetSource(s: Bytes): Parsed<Source> {
    var (worker, s) :- GetId(s);
    var (boot, s) :- GetId(s);
    var (generation, s) :- GetU64(s);
    Got(Source(worker, boot, generation), s)
  }

  function GetEnvelope(s: Bytes): Parsed<Envelope> {
    var (epoch, s) :- GetU64(s);
    var (workerBoot, s) :- GetId(s);
    var (requestGeneration, s) :- GetU64(s);
    var (accountingGeneration, s) :- GetU64(s);
    var (attempt, s) :- GetId(s);
    var (attemptGeneration, s) :- GetU64(s);
    var (dispatch, s) :- GetId(s);
    Got(Envelope(epoch, workerBoot, requestGeneration, accountingGeneration, attempt, attemptGeneration, dispatch), s)
  }

  /** `emplace`: the first value of a key stays. */
  function Emplace(m: map<Bytes, Bytes>, k: Bytes, v: Bytes): map<Bytes, Bytes> {
    if k in m then m else m[k := v]
  }

  function GetPairs(n: nat, m: map<Bytes, Bytes>, s: Bytes): Parsed<map<Bytes, Bytes>>
    decreases n
  {
    if n == 0 then Got(m, s) else
    var (k, s) :- GetString(s);
    var (v, s) :- GetString(s);
    GetPairs(n - 1, Emplace(m, k, v), s)
  }

  function GetTrailer(e: LedgerEntry, s: Bytes): Parsed<LedgerEntry> {
    var (source, s) :- GetSource(s);
    var (authority, s) :- GetEnvelope(s);
    var (accounting, s) :- GetOptionalId(s);
    var (pricing, s) :- GetOptionalId(s);
    var (n, s) :- GetU32(s);
    var (metadata, s) :- GetPairs(n, map[], s);
    Got(e.(source := source, authority := authority,
           hasAccountingPolicy := accounting.0, accountingPolicy := accounting.1,
           hasPricingPolicy := pricing.0, pricingPolicy := pricing.1, metadata := metadata), s)
  }

  /** Everything between the version and the end of the payload. */
  function GetBody(s: Bytes): Parsed<LedgerEntry> {
    var (e, s) :- GetHead(BLANK, s);
    var (e, s) :- GetActors(e, s);
    var (kinds, s) :- GetKinds(s);
    var (quantity, s) :- GetQuantity(s);
    var (e, s) :- GetTimes(e.(eventKind := kinds.0, resourceKind := kinds.1, quantity := quantity), s);
    GetTrailer(e, s)
  }

  /** What the decoder checks of a parsed record; Count values need not be integral. */
  predicate DecoderAccepts(e: LedgerEntry) {
    && IsFinite(e.quantity.bits)
    && !(IsPhysical(e.resourceKind) && IsNegative(e.quantity.bits))
  }

  function DecodePayload(payload: Bytes): Option<LedgerEntry> {
    match GetU8(payload)
    case Failed => None
    case Got(marker, s) =>
      if marker != ENDIAN_MARKER then None else
      match GetU32(s)
      case Failed => None
      case Got(version, s) =>
        if version != SCHEMA_VERSION then None else
        match GetBody(s)
        case Failed => None
        case Got(e, s) => if s != [] || !DecoderAccepts(e) then None else Some(e)
  }

  /** The content of the frame at the front of `data` and its length, when
      complete and intact. */
  function Unframed(data: Bytes): Option<Bytes> {
    if |data| < 8 then None else
    var len := U32Of(data[0], data[1], data[2], data[3]);
    var crc := U32Of(data[4], data[5], data[6], data[7]);
    if 8 + len > |data| || Crc32(data[8..8 + len]) != crc then None else Some(data[8..8 + len])
  }

  /** The entry in the frame at the front of `data`, and the bytes it took. */
  function DecodeEntry(data: Bytes): Option<(LedgerEntry, nat)> {
    match Unframed(data)
    case None => None
    case Some(payload) =>
      match DecodePayload(payload)
      case None => None
      case Some(e) => Some((e, 8 + |payload|))
  }

  /******* Each group reads back what it printed *******/

  lemma OptionalIdRoundTrip(present: bool, x: Id, rest: Bytes)
    ensures GetOptionalId(PutOptionalId(present, x, rest)) == Got((present, if present then x else ZERO_ID), rest)
  {
    var tail := if present then PutId(x) + rest else rest;
    GetPutBool(present, tail);
    if present { GetPutId(x, rest); }
  }

  lemma HeadRoundTrip(d: LedgerEntry, e: LedgerEntry, rest: Bytes)
    ensures GetHead(d, PutHead(e, rest))
         == Got(d.(id := e.id, ledger := e.ledger, tenant := e.tenant, workload := e.workload, request := e.request,
                   model := e.model, modelRevision := e.modelRevision,
                   hasAdapter := e.hasAdapter, adapter := Canonical(e).adapter), rest)
  {
    hide PutId, GetId, PutU64, GetU64, PutOptionalId, GetOptionalId;
    var s7 := PutOptionalId(e.hasAdapter, e.adapter, rest);
    var s6 := PutId(e.modelRevision) + s7;
    var s5 := PutId(e.model) + s6;
    var s4 := PutId(e.request) + s5;
    var s3 := PutId(e.workload) + s4;
    var s2 := PutId(e.tenant) + s3;
    var s1 := PutId(e.ledger) + s2;
    GetPutId(e.id, s1);
    GetPutId(e.ledger, s2);
    GetPutId(e.tenant, s3);
    GetPutId(e.workload, s4);
    GetPutId(e.request, s5);
    GetPutId(e.model, s6);
    GetPutId(e.modelRevision, s7);
    OptionalIdRoundTrip(e.hasAdapter, e.adapter, rest);
  }

  lemma ActorsRoundTrip(d: LedgerEntry, e: LedgerEntry, rest: Bytes)
    ensures GetActors(d, PutActors(e, rest))
         == Got(d.(attempt := e.attempt, dispatch := e.dispatch, worker := e.worker, node := e.node,
                   device := e.device), rest)
  {
    hide PutId, GetId, PutU64, GetU64, PutOptionalId, GetOptionalId;
    var s4 := PutId(e.device) + rest;
    var s3 := PutId(e.node) + s4;
    var s2 := PutId(e.worker) + s3;
    var s1 := PutId(e.dispatch) + s2;
    GetPutId(e.attempt, s1);
    GetPutId(e.dispatch, s2);
    GetPutId(e.worker, s3);
    GetPutId(e.node, s4);
    GetPutId(e.device, rest);
  }

  lemma GetPutU8(b: Byte, rest: Bytes)
    ensures GetU8([b] + rest) == Got(b, rest)
  {
  }

  lemma KindsRoundTrip(ek: EventKind, rk: ResourceKind, rest: Bytes)
    ensures GetKinds(PutKinds(ek, rk, rest)) == Got((ek, rk), rest)
  {
    var s1 := [ResourceCode(rk)] + rest;
    GetPutU8(EventCode(ek), s1);
    GetPutU8(ResourceCode(rk), rest);
  }

  lemma QuantityRoundTrip(q: Quantity, rest: Bytes)
    ensures GetQuantity(PutQuantity(q, rest)) == Got(q, rest)
  {
    var s2 := [ProvenanceCode(q.provenance)] + rest;
    var s1 := [UnitCode(q.unit)] + s2;
    GetPutU64(q.bits, s1);
    GetPutU8(UnitCode(q.unit), s2);
    GetPutU8(ProvenanceCode(q.provenance), rest);
  }

  lemma TimesRoundTrip(d: LedgerEntry, e: LedgerEntry, rest: Bytes)
    ensures GetTimes(d, PutTimes(e, rest)) == Got(d.(startNs := e.startNs, endNs := e.endNs, hasEnd := e.hasEnd), rest)
  {
    var s2 := PutBool(e.hasEnd) + rest;
    var s1 := PutU64(e.endNs) + s2;
    GetPutU64(e.startNs, s1);
    GetPutU64(e.endNs, s2);
    GetPutBool(e.hasEnd, rest);
  }

  lemma SourceRoundTrip(x: Source, rest: Bytes)
    ensures GetSource(PutSource(x, rest)) == Got(x, rest)
  {
    hide PutId, GetId, PutU64, GetU64, PutOptionalId, GetOptionalId;
    var s2 := PutU64(x.accountingGeneration) + rest;
    var s1 := PutId(x.boot) + s2;
    GetPutId(x.worker, s1);
    GetPutId(x.boot, s2);
    GetPutU64(x.accountingGeneration, rest);
  }

  lemma EnvelopeRoundTrip(x: Envelope, rest: Bytes)
    ensures GetEnvelope(PutEnvelope(x, rest)) == Got(x, rest)
  {
    hide PutId, GetId, PutU64, GetU64, PutOptionalId, GetOptionalId;
    var s6 := PutId(x.dispatch) + rest;
    var s5 := PutU64(x.attemptGeneration) + s6;
    var s4 := PutId(x.attempt) + s5;
    var s3 := PutU64(x.accountingGeneration) + s4;
    var s2 := PutU64(x.requestGeneration) + s3;
    var s1 := PutId(x.workerBoot) + s2;
    GetPutU64(x.epoch, s1);
    GetPutId(x.workerBoot, s2);
    GetPutU64(x.requestGeneration, s3);
    GetPutU64(x.accountingGeneration, s4);
    GetPutId(x.attempt, s5);
    GetPutU64(x.attemptGeneration, s6);
    GetPutId(x.dispatch, rest);
  }

  /** No string is long enough for the writer to skip it. */
  ghost predicate StringsFit(m: map<Bytes, Bytes>) {
    forall k :: k in m ==> |k| <= 0xFFFF_FFFF && |m[k]| <= 0xFFFF_FFFF
  }

  lemma PairRoundTrip(n: nat, acc: map<Bytes, Bytes>, k: Bytes, v: Bytes, tail: Bytes)
    requires n > 0 && |k| <= 0xFFFF_FFFF && |v| <= 0xFFFF_FFFF
    ensures GetPairs(n, acc, PutString(k) + (PutString(v) + tail)) == GetPairs(n - 1, Emplace(acc, k, v), tail)
  {
    var s1 := PutString(v) + tail;
    GetPutString(k, s1);
    GetPutString(v, tail);
  }

  /** Reading the pairs of the remaining `keys` completes `acc` to `m`. */
  lemma {:induction false} PairsRoundTrip(keys: seq<Bytes>, m: map<Bytes, Bytes>, acc: map<Bytes, Bytes>)
    requires forall k :: k in keys ==> k in m && k !in acc
    requires forall i, j :: 0 <= i < j < |keys| ==> keys[i] != keys[j]
    requires forall k :: k in acc ==> k in m && acc[k] == m[k]
    requires forall k :: k in m ==> k in acc || k in keys
    requires StringsFit(m)
    ensures GetPairs(|keys|, acc, PutPairs(keys, m)) == Got(m, [])
  {
    hide PutString, GetString;
    if keys == [] {
      assert acc == m;
    } else {
      var k := keys[0];
      PairRoundTrip(|keys|, acc, k, m[k], PutPairs(keys[1..], m));
      assert Emplace(acc, k, m[k]) == acc[k := m[k]];
      PairsRoundTrip(keys[1..], m, acc[k := m[k]]);
    }
  }

  lemma MetadataRoundTrip(m: map<Bytes, Bytes>)
    requires |m| <= 0xFFFF_FFFF && StringsFit(m)
    ensures GetU32(PutMetadata(m)) == Got(|m|, PutPairs(SortedKeys(m), m))
    ensures GetPairs(|m|, map[], PutPairs(SortedKeys(m), m)) == Got(m, [])
  {
    hide PutU32, GetU32, PutPairs, GetPairs;
    var keys := SortedKeys(m);
    GetPutU32(|m|, PutPairs(keys, m));
    PairsRoundTrip(keys, m, map[]);
  }

  lemma TrailerRoundTrip(d: LedgerEntry, e: LedgerEntry)
    requires |e.metadata| <= 0xFFFF_FFFF && StringsFit(e.metadata)
    ensures GetTrailer(d, PutTrailer(e))
         == Got(d.(source := e.source, authority := e.authority,
                   hasAccountingPolicy := e.hasAccountingPolicy, accountingPolicy := Canonical(e).accountingPolicy,
                   hasPricingPolicy := e.hasPricingPolicy, pricingPolicy := Canonical(e).pricingPolicy,
                   metadata := e.metadata), [])
  {
    hide PutSource, PutEnvelope, PutOptionalId, PutMetadata, PutPairs;
    hide GetSource, GetEnvelope, GetOptionalId, GetU32, GetPairs;
    var s4 := PutMetadata(e.metadata);
    var s3 := PutOptionalId(e.hasPricingPolicy, e.pricingPolicy, s4);
    var s2 := PutOptionalId(e.hasAccountingPolicy, e.accountingPolicy, s3);
    var s1 := PutEnvelope(e.authority, s2);
    SourceRoundTrip(e.source, s1);
    EnvelopeRoundTrip(e.authority, s2);
    OptionalIdRoundTrip(e.hasAccountingPolicy, e.accountingPolicy, s3);
    OptionalIdRoundTrip(e.hasPricingPolicy, e.pricingPolicy, s4);
    MetadataRoundTrip(e.metadata);
  }

  lemma BodyRoundTrip(e: LedgerEntry)
    requires |e.metadata| <= 0xFFFF_FFFF && StringsFit(e.metadata)
    ensures GetBody(PutBody(e)) == Got(Canonical(e), [])
  {
    hide PutHead, PutActors, PutKinds, PutQuantity, PutTimes, PutTrailer;
    hide GetHead, GetActors, GetKinds, GetQuantity, GetTimes, GetTrailer;
    var s5 := PutTrailer(e);
    var s4 := PutTimes(e, s5);
    var s3 := PutQuantity(e.quantity, s4);
    var s2 := PutKinds(e.eventKind, e.resourceKind, s3);
    var s1 := PutActors(e, s2);
    HeadRoundTrip(BLANK, e, s1);
    var e1 := GetHead(BLANK, PutHead(e, s1)).value;
    ActorsRoundTrip(e1, e, s2);
    var e2 := GetActors(e1, s1).value;
    KindsRoundTrip(e.eventKind, e.resourceKind, s3);
    QuantityRoundTrip(e.quantity, s4);
    var e3 := e2.(eventKind := e.eventKind, resourceKind := e.resourceKind, quantity := e.quantity);
    TimesRoundTrip(e3, e, s5);
    var e4 := GetTimes(e3, s4).value;
    TrailerRoundTrip(e4, e);
  }

  /******* Frames *******/

  lemma UnframedFramed(content: Bytes, rest: Bytes)
    requires |content| < 0x1_0000_0000
    ensures |Framed(content)| == 8 + |content|
    ensures Unframed(Framed(content) + rest) == Some(content)
  {
    hide Crc32, U32Of, PutU32;
    var data := Framed(content) + rest;
    var len, crc := PutU32(|content|), PutU32(Crc32(content));
    assert data[..4] == len && data[4..8] == crc && data[8..8 + |content|] == content;
    assert data[0] == len[0] && data[1] == len[1] && data[2] == len[2] && data[3] == len[3];
    assert data[4] == crc[0] && data[5] == crc[1] && data[6] == crc[2] && data[7] == crc[3];
    U32RoundTrip(|content|);
    U32RoundTrip(Crc32(content));
  }

  /** No 32-bit length in the entry's frame wraps. */
  ghost predicate FitsFrame(e: LedgerEntry) {
    && |e.metadata| <= 0xFFFF_FFFF && StringsFit(e.metadata)
    && |Payload(e)| < 0x1_0000_0000
  }

  ghost predicate Encodable(e: LedgerEntry) {
    EncoderAccepts(e) && FitsFrame(e)
  }

  lemma PayloadRoundTrip(e: LedgerEntry)
    requires |e.metadata| <= 0xFFFF_FFFF && StringsFit(e.metadata)
    ensures DecodePayload(Payload(e)) == if DecoderAccepts(e) then Some(Canonical(e)) else None
  {
    hide PutBody, GetBody, PutU32, GetU32;
    BodyRoundTrip(e);
    GetPutU8(ENDIAN_MARKER, PutU32(SCHEMA_VERSION) + PutBody(e));
    GetPutU32(SCHEMA_VERSION, PutBody(e));
  }

  /** `decode_entry(encode_entry(e) ++ rest)` is `e` with switched-off fields
      blanked, and consumes exactly the frame. */
  lemma EntryRoundTrip(e: LedgerEntry, rest: Bytes)
    requires Encodable(e)
    ensures EncodeEntry(e).Some?
    ensures DecodeEntry(EncodeEntry(e).value + rest) == Some((Canonical(e), |EncodeEntry(e).value|))
    ensures SameEntry(Canonical(e), e)
  {
    hide DecodePayload, Payload, Framed, Unframed;
    var payload := Payload(e);
    UnframedFramed(payload, rest);
    PayloadRoundTrip(e);
    SameEntryCanonical(e);
  }

  /** Switched-off fields leave no trace in the frame. */
  lemma CanonicalEncodesTheSame(e: LedgerEntry)
    ensures EncodeEntry(Canonical(e)) == EncodeEntry(e)
    ensures Encodable(Canonical(e)) == Encodable(e)
  {
    hide PutHead, PutKinds, PutQuantity, PutTrailer, Framed, PutU32;
    if |e.metadata| <= 0xFFFF_FFFF {
      TrailerIgnoresSwitchedOff(e);
      var facts := PutKinds(e.eventKind, e.resourceKind, PutQuantity(e.quantity, PutTimes(e, PutTrailer(e))));
      HeadIgnoresSwitchedOff(e, PutActors(e, facts));
    }
  }

  lemma HeadIgnoresSwitchedOff(e: LedgerEntry, rest: Bytes)
    ensures PutHead(Canonical(e), rest) == PutHead(e, rest)
  {
    hide PutId;
  }

  lemma TrailerIgnoresSwitchedOff(e: LedgerEntry)
    requires |e.metadata| <= 0xFFFF_FFFF
    ensures PutTrailer(Canonical(e)) == PutTrailer(e)
  {
    hide PutSource, PutEnvelope, PutMetadata, PutId;
  }

  /******* Corruption *******/

  lemma U32Injective(a: Bytes, b: Bytes)
    requires |a| == |b| == 4 && a != b
    ensures U32Of(a[0], a[1], a[2], a[3]) != U32Of(b[0], b[1], b[2], b[3])
  {
    assert a[0] != b[0] || a[1] != b[1] || a[2] != b[2] || a[3] != b[3];
  }

  lemma MismatchRejected(content: Bytes, crc: Bytes, rest: Bytes)
    requires |content| < 0x1_0000_0000 && |crc| == 4
    requires U32Of(crc[0], crc[1], crc[2], crc[3]) != Crc32(content)
    ensures DecodeEntry(PutU32(|content|) + (crc + (content + rest))) == None
  {
    hide DecodePayload, Crc32, U32Of, PutU32;
    var len := PutU32(|content|);
    var data := len + (crc + (content + rest));
    assert data[0] == len[0] && data[1] == len[1] && data[2] == len[2] && data[3] == len[3];
    assert data[4] == crc[0] && data[5] == crc[1] && data[6] == crc[2] && data[7] == crc[3];
    assert data[8..8 + |content|] == content;
    U32RoundTrip(|content|);
  }

  /** A frame begins with its length and checksum, whatever is put behind them. */
  lemma FrameHead(content: Bytes, rest: Bytes)
    requires |content| < 0x1_0000_0000
    ensures |Framed(content)| == 8 + |content|
    ensures Framed(content)[..8] + rest == PutU32(|content|) + (PutU32(Crc32(content)) + rest)
  {
    hide PutU32, Crc32;
    var head := PutU32(|content|) + PutU32(Crc32(content));
    assert Framed(content) == head + content && (head + content)[..8] == head;
  }

  /** Replace the content of an intact frame by different bytes of the same
      length that agree with it outside some 32 consecutive bits: the decoder
      rejects the frame, whatever follows it. */
  lemma PayloadBurstRejected(payload: Bytes, damaged: Bytes, at: nat, rest: Bytes)
    requires |payload| < 0x1_0000_0000 && |damaged| == |payload| && damaged != payload
    requires DifferWithinBurst(Bits(payload), Bits(damaged), at)
    ensures DecodeEntry(Framed(payload)[..8] + (damaged + rest)) == None
  {
    hide DecodeEntry, Crc32, Bits, PutU32, U32Of, Framed, DifferWithinBurst;
    BurstChangesCrc(payload, damaged, at);
    U32RoundTrip(Crc32(payload));
    FrameHead(payload, damaged + rest);
    MismatchRejected(damaged, PutU32(Crc32(payload)), rest);
  }

  /** Any change to the stored checksum alone is rejected too. */
  lemma ChecksumDamageRejected(payload: Bytes, crc: Bytes, rest: Bytes)
    requires |payload| < 0x1_0000_0000 && |crc| == 4 && crc != PutU32(Crc32(payload))
    ensures DecodeEntry(PutU32(|payload|) + (crc + (payload + rest))) == None
  {
    hide DecodeEntry, Crc32;
    U32RoundTrip(Crc32(payload));
    U32Injective(crc, PutU32(Crc32(payload)));
    MismatchRejected(payload, crc, rest);
  }
}
