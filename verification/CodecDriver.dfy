/** `encode_entry` and `decode_entry` as they run: a writer that grows a buffer
    and a reader that moves a cursor, field by field. */
module CodecDriver {
  import opened Base
  import opened Entry
  import opened Wire
  import opened Crc
  import opened Codec

  /******* Encoding; `rest` is what is written afterwards *******/

  method WriteOptionalId(w: ByteWriter, present: bool, x: Id, ghost rest: Bytes)
    modifies w
    ensures w.buf + rest == old(w.buf) + PutOptionalId(present, x, rest)
  {
    w.Bool8(present, if present then PutId(x) + rest else rest);
    if present { w.Ident(x, rest); }
  }

  method WriteHead(w: ByteWriter, e: LedgerEntry, ghost rest: Bytes)
    modifies w
    ensures w.buf + rest == old(w.buf) + PutHead(e, rest)
  {
    hide PutId, PutOptionalId;
    ghost var s7 := PutOptionalId(e.hasAdapter, e.adapter, rest);
    ghost var s6 := PutId(e.modelRevision) + s7;
    ghost var s5 := PutId(e.model) + s6;
    ghost var s4 := PutId(e.request) + s5;
    ghost var s3 := PutId(e.workload) + s4;
    ghost var s2 := PutId(e.tenant) + s3;
    ghost var s1 := PutId(e.ledger) + s2;
    w.Ident(e.id, s1);
    w.Ident(e.ledger, s2);
    w.Ident(e.tenant, s3);
    w.Ident(e.workload, s4);
    w.Ident(e.request, s5);
    w.Ident(e.model, s6);
    w.Ident(e.modelRevision, s7);
    WriteOptionalId(w, e.hasAdapter, e.adapter, rest);
  }

  method WriteActors(w: ByteWriter, e: LedgerEntry, ghost rest: Bytes)
    modifies w
    ensures w.buf + rest == old(w.buf) + PutActors(e, rest)
  {
    hide PutId;
    ghost var s4 := PutId(e.device) + rest;
    ghost var s3 := PutId(e.node) + s4;
    ghost var s2 := PutId(e.worker) + s3;
    ghost var s1 := PutId(e.dispatch) + s2;
    w.Ident(e.attempt, s1);
    w.Ident(e.dispatch, s2);
    w.Ident(e.worker, s3);
    w.Ident(e.node, s4);
    w.Ident(e.device, rest);
  }

  method WriteFacts(w: ByteWriter, e: LedgerEntry, ghost rest: Bytes)
    modifies w
    ensures w.buf + rest
         == old(w.buf) + PutKinds(e.eventKind, e.resourceKind, PutQuantity(e.quantity, PutTimes(e, rest)))
  {
    hide PutU64, EventCode, ResourceCode, UnitCode, ProvenanceCode;
    ghost var s7 := PutBool(e.hasEnd) + rest;
    ghost var s6 := PutU64(e.endNs) + s7;
    ghost var s5 := PutU64(e.startNs) + s6;
    ghost var s4 := [ProvenanceCode(e.quantity.provenance)] + s5;
    ghost var s3 := [UnitCode(e.quantity.unit)] + s4;
    ghost var s2 := PutU64(e.quantity.bits) + s3;
    ghost var s1 := [ResourceCode(e.resourceKind)] + s2;
    w.U8(EventCode(e.eventKind), s1);
    w.U8(ResourceCode(e.resourceKind), s2);
    w.U64(e.quantity.bits, s3);
    w.U8(UnitCode(e.quantity.unit), s4);
    w.U8(ProvenanceCode(e.quantity.provenance), s5);
    w.U64(e.startNs, s6);
    w.U64(e.endNs, s7);
    w.Bool8(e.hasEnd, rest);
  }

  method WriteSource(w: ByteWriter, x: Source, ghost rest: Bytes)
    modifies w
    ensures w.buf + rest == old(w.buf) + PutSource(x, rest)
  {
    hide PutId, PutU64;
    ghost var s2 := PutU64(x.accountingGeneration) + rest;
    w.Ident(x.worker, PutId(x.boot) + s2);
    w.Ident(x.boot, s2);
    w.U64(x.accountingGeneration, rest);
  }

  method WriteEnvelope(w: ByteWriter, x: Envelope, ghost rest: Bytes)
    modifies w
    ensures w.buf + rest == old(w.buf) + PutEnvelope(x, rest)
  {
    hide PutId, PutU64;
    ghost var s6 := PutId(x.dispatch) + rest;
    ghost var s5 := PutU64(x.attemptGeneration) + s6;
    ghost var s4 := PutId(x.attempt) + s5;
    ghost var s3 := PutU64(x.accountingGeneration) + s4;
    ghost var s2 := PutU64(x.requestGeneration) + s3;
    ghost var s1 := PutId(x.workerBoot) + s2;
    w.U64(x.epoch, s1);
    w.Ident(x.workerBoot, s2);
    w.U64(x.requestGeneration, s3);
    w.U64(x.accountingGeneration, s4);
    w.Ident(x.attempt, s5);
    w.U64(x.attemptGeneration, s6);
    w.Ident(x.dispatch, rest);
  }

  method WritePairs(w: ByteWriter, keys: seq<Bytes>, m: map<Bytes, Bytes>)
    requires forall k :: k in keys ==> k in m
    modifies w
    ensures w.buf == old(w.buf) + PutPairs(keys, m)
  {
    hide PutString;
    var i := 0;
    while i < |keys|
      invariant 0 <= i <= |keys|
      invariant w.buf + PutPairs(keys[i..], m) == old(w.buf) + PutPairs(keys, m)
    {
      assert keys[i..][1..] == keys[i + 1..] && keys[i..][0] == keys[i];
      ghost var tail := PutPairs(keys[i + 1..], m);
      w.Str(keys[i], PutString(m[keys[i]]) + tail);
      w.Str(m[keys[i]], tail);
      i := i + 1;
    }
    assert w.buf + PutPairs(keys[i..], m) == w.buf;
  }

  method WriteMetadata(w: ByteWriter, m: map<Bytes, Bytes>)
    requires |m| <= 0xFFFF_FFFF
    modifies w
    ensures w.buf == old(w.buf) + PutMetadata(m)
  {
    hide PutPairs, PutU32;
    var keys := SortedKeys(m);
    w.U32(|m|, PutPairs(keys, m));
    WritePairs(w, keys, m);
  }

  method WriteTrailer(w: ByteWriter, e: LedgerEntry)
    requires |e.metadata| <= 0xFFFF_FFFF
    modifies w
    ensures w.buf == old(w.buf) + PutTrailer(e)
  {
    hide PutSource, PutEnvelope, PutOptionalId, PutMetadata;
    ghost var s4 := PutMetadata(e.metadata);
    ghost var s3 := PutOptionalId(e.hasPricingPolicy, e.pricingPolicy, s4);
    ghost var s2 := PutOptionalId(e.hasAccountingPolicy, e.accountingPolicy, s3);
    WriteSource(w, e.source, PutEnvelope(e.authority, s2));
    WriteEnvelope(w, e.authority, s2);
    WriteOptionalId(w, e.hasAccountingPolicy, e.accountingPolicy, s3);
    WriteOptionalId(w, e.hasPricingPolicy, e.pricingPolicy, s4);
    WriteMetadata(w, e.metadata);
  }

  method WritePayload(w: ByteWriter, e: LedgerEntry)
    requires |e.metadata| <= 0xFFFF_FFFF && w.buf == []
    modifies w
    ensures w.buf == Payload(e)
  {
    hide PutHead, PutActors, PutKinds, PutQuantity, PutTimes, PutTrailer, PutU32;
    ghost var s3 := PutTrailer(e);
    ghost var s2 := PutKinds(e.eventKind, e.resourceKind, PutQuantity(e.quantity, PutTimes(e, s3)));
    ghost var s1 := PutActors(e, s2);
    w.U8(ENDIAN_MARKER, PutU32(SCHEMA_VERSION) + PutHead(e, s1));
    w.U32(SCHEMA_VERSION, PutHead(e, s1));
    WriteHead(w, e, s1);
    WriteActors(w, e, s2);
    WriteFacts(w, e, s3);
    WriteTrailer(w, e);
    assert w.buf == [] + Payload(e);
  }

  method FrameContent(content: Bytes) returns (out: Bytes)
    ensures out == Framed(content)
  {
    var w := new ByteWriter();
    var crc := ComputeCrc32(content);
    w.U32(|content| % 0x1_0000_0000);
    w.U32(crc);
    w.Raw(content);
    out := w.buf;
  }

  method Encode(e: LedgerEntry) returns (out: Option<Bytes>)
    ensures out == EncodeEntry(e)
  {
    hide Payload, Framed;
    if !IsFinite(e.quantity.bits) { return None; }
    if IsPhysical(e.resourceKind) && IsNegative(e.quantity.bits) { return None; }
    if e.quantity.unit.Count? && !IsIntegral(e.quantity.bits) { return None; }
    if |e.metadata| > 0xFFFF_FFFF { return None; }
    var w := new ByteWriter();
    WritePayload(w, e);
    var frame := FrameContent(w.buf);
    out := Some(frame);
  }

  /******* Decoding *******/

  method ReadOptionalId(r: ByteReader) returns (out: Option<(bool, Id)>)
    requires r.Valid()
    modifies r
    ensures r.Valid() && Reads(out, r.Rest(), GetOptionalId(old(r.Rest())))
  {
    hide GetBool, GetId;
    var present := r.Bool8();
    if present.None? { return None; }
    if !present.value { return Some((false, ZERO_ID)); }
    var x := r.Ident();
    out := if x.None? then None else Some((true, x.value));
  }

  method ReadHead(r: ByteReader, e: LedgerEntry) returns (out: Option<LedgerEntry>)
    requires r.Valid()
    modifies r
    ensures r.Valid() && Reads(out, r.Rest(), GetHead(e, old(r.Rest())))
  {
    hide GetId, GetOptionalId;
    var id := r.Ident();
    if id.None? { return None; }
    var ledger := r.Ident();
    if ledger.None? { return None; }
    var tenant := r.Ident();
    if tenant.None? { return None; }
    var workload := r.Ident();
    if workload.None? { return None; }
    var request := r.Ident();
    if request.None? { return None; }
    var model := r.Ident();
    if model.None? { return None; }
    var modelRevision := r.Ident();
    if modelRevision.None? { return None; }
    var adapter := ReadOptionalId(r);
    if adapter.None? { return None; }
    out := Some(e.(id := id.value, ledger := ledger.value, tenant := tenant.value, workload := workload.value,
                   request := request.value, model := model.value, modelRevision := modelRevision.value,
                   hasAdapter := adapter.value.0, adapter := adapter.value.1));
  }

  method ReadActors(r: ByteReader, e: LedgerEntry) returns (out: Option<LedgerEntry>)
    requires r.Valid()
    modifies r
    ensures r.Valid() && Reads(out, r.Rest(), GetActors(e, old(r.Rest())))
  {
    hide GetId;
    var attempt := r.Ident();
    if attempt.None? { return None; }
    var dispatch := r.Ident();
    if dispatch.None? { return None; }
    var worker := r.Ident();
    if worker.None? { return None; }
    var node := r.Ident();
    if node.None? { return None; }
    var device := r.Ident();
    if device.None? { return None; }
    out := Some(e.(attempt := attempt.value, dispatch := dispatch.value, worker := worker.value,
                   node := node.value, device := device.value));
  }

  method ReadKinds(r: ByteReader) returns (out: Option<(EventKind, ResourceKind)>)
    requires r.Valid()
    modifies r
    ensures r.Valid() && Reads(out, r.Rest(), GetKinds(old(r.Rest())))
  {
    hide GetU8, EventOf, ResourceOf;
    var ek := r.U8();
    if ek.None? { return None; }
    var rk := r.U8();
    if rk.None? { return None; }
    if EventOf(ek.value).None? || ResourceOf(rk.value).None? { return None; }
    out := Some((EventOf(ek.value).value, ResourceOf(rk.value).value));
  }

  method ReadQuantity(r: ByteReader) returns (out: Option<Quantity>)
    requires r.Valid()
    modifies r
    ensures r.Valid() && Reads(out, r.Rest(), GetQuantity(old(r.Rest())))
  {
    hide GetU8, GetU64, UnitOf, ProvenanceOf;
    var bits := r.U64();
    if bits.None? { return None; }
    var u := r.U8();
    if u.None? { return None; }
    var p := r.U8();
    if p.None? { return None; }
    if UnitOf(u.value).None? || ProvenanceOf(p.value).None? { return None; }
    out := Some(Quantity(bits.value, UnitOf(u.value).value, ProvenanceOf(p.value).value));
  }

  method ReadTimes(r: ByteReader, e: LedgerEntry) returns (out: Option<LedgerEntry>)
    requires r.Valid()
    modifies r
    ensures r.Valid() && Reads(out, r.Rest(), GetTimes(e, old(r.Rest())))
  {
    hide GetU64, GetBool;
    var startNs := r.U64();
    if startNs.None? { return None; }
    var endNs := r.U64();
    if endNs.None? { return None; }
    var hasEnd := r.Bool8();
    if hasEnd.None? { return None; }
    out := Some(e.(startNs := startNs.value, endNs := endNs.value, hasEnd := hasEnd.value));
  }

  method ReadSource(r: ByteReader) returns (out: Option<Source>)
    requires r.Valid()
    modifies r
    ensures r.Valid() && Reads(out, r.Rest(), GetSource(old(r.Rest())))
  {
    hide GetId, GetU64;
    var worker := r.Ident();
    if worker.None? { return None; }
    var boot := r.Ident();
    if boot.None? { return None; }
    var generation := r.U64();
    if generation.None? { return None; }
    out := Some(Source(worker.value, boot.value, generation.value));
  }

  method ReadEnvelope(r: ByteReader) returns (out: Option<Envelope>)
    requires r.Valid()
    modifies r
    ensures r.Valid() && Reads(out, r.Rest(), GetEnvelope(old(r.Rest())))
  {
    hide GetId, GetU64;
    var epoch := r.U64();
    if epoch.None? { return None; }
    var workerBoot := r.Ident();
    if workerBoot.None? { return None; }
    var requestGeneration := r.U64();
    if requestGeneration.None? { return None; }
    var accountingGeneration := r.U64();
    if accountingGeneration.None? { return None; }
    var attempt := r.Ident();
    if attempt.None? { return None; }
    var attemptGeneration := r.U64();
    if attemptGeneration.None? { return None; }
    var dispatch := r.Ident();
    if dispatch.None? { return None; }
    out := Some(Envelope(epoch.value, workerBoot.value, requestGeneration.value, accountingGeneration.value,
                         attempt.value, attemptGeneration.value, dispatch.value));
  }

  method ReadPairs(r: ByteReader, n: nat) returns (out: Option<map<Bytes, Bytes>>)
    requires r.Valid()
    modifies r
    ensures r.Valid() && Reads(out, r.Rest(), GetPairs(n, map[], old(r.Rest())))
  {
    hide GetString;
    var m: map<Bytes, Bytes> := map[];
    for i := 0 to n
      invariant r.Valid()
      invariant GetPairs(n - i, m, r.Rest()) == GetPairs(n, map[], old(r.Rest()))
    {
      var k := r.Str();
      if k.None? { return None; }
      var v := r.Str();
      if v.None? { return None; }
      m := Emplace(m, k.value, v.value);
    }
    out := Some(m);
  }

  method ReadTrailer(r: ByteReader, e: LedgerEntry) returns (out: Option<LedgerEntry>)
    requires r.Valid()
    modifies r
    ensures r.Valid() && Reads(out, r.Rest(), GetTrailer(e, old(r.Rest())))
  {
    hide GetSource, GetEnvelope, GetOptionalId, GetU32, GetPairs;
    var source := ReadSource(r);
    if source.None? { return None; }
    var authority := ReadEnvelope(r);
    if authority.None? { return None; }
    var accounting := ReadOptionalId(r);
    if accounting.None? { return None; }
    var pricing := ReadOptionalId(r);
    if pricing.None? { return None; }
    var n := r.U32();
    if n.None? { return None; }
    var metadata := ReadPairs(r, n.value);
    if metadata.None? { return None; }
    out := Some(e.(source := source.value, authority := authority.value,
                   hasAccountingPolicy := accounting.value.0, accountingPolicy := accounting.value.1,
                   hasPricingPolicy := pricing.value.0, pricingPolicy := pricing.value.1,
                   metadata := metadata.value));
  }

  method ReadBody(r: ByteReader) returns (out: Option<LedgerEntry>)
    requires r.Valid()
    modifies r
    ensures r.Valid() && Reads(out, r.Rest(), GetBody(old(r.Rest())))
  {
    hide GetHead, GetActors, GetKinds, GetQuantity, GetTimes, GetTrailer;
    var head := ReadHead(r, BLANK);
    if head.None? { return None; }
    var e := ReadActors(r, head.value);
    if e.None? { return None; }
    var kinds := ReadKinds(r);
    if kinds.None? { return None; }
    var quantity := ReadQuantity(r);
    if quantity.None? { return None; }
    var timed := ReadTimes(r, e.value.(eventKind := kinds.value.0, resourceKind := kinds.value.1,
                                       quantity := quantity.value));
    if timed.None? { return None; }
    out := ReadTrailer(r, timed.value);
  }

  method ReadPayload(payload: Bytes) returns (out: Option<LedgerEntry>)
    ensures out == DecodePayload(payload)
  {
    hide GetBody, GetU32;
    var r := new ByteReader(payload);
    var marker := r.U8();
    if marker.None? || marker.value != ENDIAN_MARKER { return None; }
    var version := r.U32();
    if version.None? || version.value != SCHEMA_VERSION { return None; }
    var e := ReadBody(r);
    if e.None? { return None; }
    if r.Remaining() != 0 { return None; }
    if !IsFinite(e.value.quantity.bits) { return None; }
    if IsPhysical(e.value.resourceKind) && IsNegative(e.value.quantity.bits) { return None; }
    out := e;
  }

  method Decode(data: Bytes) returns (out: Option<(LedgerEntry, nat)>)
    ensures out == DecodeEntry(data)
  {
    hide DecodePayload;
    if |data| < 8 { return None; }
    var len: nat := U32Of(data[0], data[1], data[2], data[3]);
    var want := U32Of(data[4], data[5], data[6], data[7]);
    var total: nat := 8 + len;
    if total > |data| { return None; }
    var payload := data[8..total];
    var got := ComputeCrc32(payload);
    if got != want { return None; }
    var e := ReadPayload(payload);
    out := if e.None? then None else Some((e.value, total));
  }
}
