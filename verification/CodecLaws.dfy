/** What the decoder returns is a fixed point of encoding and decoding. */
module CodecLaws {
  import opened Base
  import opened Entry
  import opened Wire
  import opened Codec

  /******* How long a printed map is *******/

  function PairSize(k: Bytes, v: Bytes): nat { 8 + |k| + |v| }

  /** The bytes that the pairs with keys in `keys` take. */
  ghost function PairsSize(keys: set<Bytes>, m: map<Bytes, Bytes>): nat
    requires keys <= m.Keys
  {
    if keys == {} then 0 else
    var k :| k in keys;
    PairSize(k, m[k]) + PairsSize(keys - {k}, m)
  }

  /** Any key may be counted first. */
  lemma {:induction false} CountFirst(keys: set<Bytes>, m: map<Bytes, Bytes>, k: Bytes)
    requires keys <= m.Keys && k in keys
    ensures PairsSize(keys, m) == PairSize(k, m[k]) + PairsSize(keys - {k}, m)
  {
    hide PairSize;
    var x :| x in keys && PairsSize(keys, m) == PairSize(x, m[x]) + PairsSize(keys - {x}, m);
    if x != k {
      CountFirst(keys - {x}, m, k);
      CountFirst(keys - {k}, m, x);
      assert keys - {x} - {k} == keys - {k} - {x};
    }
  }

  lemma {:induction false} SizeOfSameValues(keys: set<Bytes>, m: map<Bytes, Bytes>, n: map<Bytes, Bytes>)
    requires keys <= m.Keys && keys <= n.Keys && forall k :: k in keys ==> m[k] == n[k]
    ensures PairsSize(keys, m) == PairsSize(keys, n)
  {
    hide PairSize;
    if keys == {} {
    } else {
      var k :| k in keys;
      CountFirst(keys, m, k);
      CountFirst(keys, n, k);
      SizeOfSameValues(keys - {k}, m, n);
    }
  }

  function SetOf(keys: seq<Bytes>): set<Bytes> { set k | k in keys }

  lemma {:induction false} PutPairsLength(keys: seq<Bytes>, m: map<Bytes, Bytes>)
    requires (forall k :: k in keys ==> k in m) && StringsFit(m)
    requires forall i, j :: 0 <= i < j < |keys| ==> keys[i] != keys[j]
    ensures |PutPairs(keys, m)| == PairsSize(SetOf(keys), m)
  {
    if keys == [] {
      assert SetOf(keys) == {};
    } else {
      assert SetOf(keys) - {keys[0]} == SetOf(keys[1..]);
      CountFirst(SetOf(keys), m, keys[0]);
      PutPairsLength(keys[1..], m);
    }
  }

  /******* How much a parsed map took *******/

  lemma StringTakes(s: Bytes)
    ensures match GetString(s)
            case Failed => true
            case Got(t, rest) => |t| <= 0xFFFF_FFFF && |s| == 4 + |t| + |rest|
  {
  }

  lemma EmplaceGrows(m: map<Bytes, Bytes>, k: Bytes, v: Bytes)
    ensures var n := Emplace(m, k, v);
            PairsSize(n.Keys, n) <= PairsSize(m.Keys, m) + PairSize(k, v)
  {
    hide PairSize;
    if k !in m {
      var n := m[k := v];
      CountFirst(n.Keys, n, k);
      assert n.Keys - {k} == m.Keys;
      SizeOfSameValues(m.Keys, m, n);
    }
  }

  /** Repeated keys are dropped, so printing the map again takes no more bytes. */
  lemma {:induction false} PairsDecoded(n: nat, m: map<Bytes, Bytes>, s: Bytes)
    requires StringsFit(m)
    ensures match GetPairs(n, m, s)
            case Failed => true
            case Got(all, rest) =>
              && |all| <= |m| + n && StringsFit(all)
              && PairsSize(all.Keys, all) + |rest| <= PairsSize(m.Keys, m) + |s|
    decreases n
  {
    hide GetString, PairsSize;
    StringTakes(s);
    if n > 0 && GetString(s).Got? {
      var Got(k, t) := GetString(s);
      StringTakes(t);
      if GetString(t).Got? {
        var Got(v, u) := GetString(t);
        EmplaceGrows(m, k, v);
        PairsDecoded(n - 1, Emplace(m, k, v), u);
      }
    }
  }

  /******* The converse: what the decoder returns is a fixed point *******/

  lemma OptionalIdDecoded(s: Bytes)
    ensures GetOptionalId(s).Got? && !GetOptionalId(s).value.0 ==> GetOptionalId(s).value.1 == ZERO_ID
  {
  }

  lemma HeadDecoded(d: LedgerEntry, s: Bytes)
    ensures match GetHead(d, s)
            case Failed => true
            case Got(e, _) => !e.hasAdapter ==> e.adapter == ZERO_ID
  {
    hide GetId, GetOptionalId;
    forall t ensures GetOptionalId(t).Got? && !GetOptionalId(t).value.0 ==> GetOptionalId(t).value.1 == ZERO_ID {
      OptionalIdDecoded(t);
    }
  }

  /** Of a repeated key the first value stays. */
  lemma FirstValueStays(k: Bytes, v: Bytes, w: Bytes, rest: Bytes)
    requires |k| <= 0xFFFF_FFFF && |v| <= 0xFFFF_FFFF && |w| <= 0xFFFF_FFFF
    ensures GetPairs(2, map[], PutString(k) + (PutString(v) + (PutString(k) + (PutString(w) + rest))))
         == Got(map[k := v], rest)
  {
    hide PutString, GetString;
    var s2 := PutString(k) + (PutString(w) + rest);
    PairRoundTrip(2, map[], k, v, s2);
    PairRoundTrip(1, map[k := v], k, w, rest);
  }

  lemma TrailerDecoded(d: LedgerEntry, s: Bytes)
    ensures match GetTrailer(d, s)
            case Failed => true
            case Got(e, _) =>
              && (!e.hasAccountingPolicy ==> e.accountingPolicy == ZERO_ID)
              && (!e.hasPricingPolicy ==> e.pricingPolicy == ZERO_ID)
              && e.hasAdapter == d.hasAdapter && e.adapter == d.adapter
  {
    hide GetSource, GetEnvelope, GetOptionalId, GetU32, GetPairs;
    forall t ensures GetOptionalId(t).Got? && !GetOptionalId(t).value.0 ==> GetOptionalId(t).value.1 == ZERO_ID {
      OptionalIdDecoded(t);
    }
  }

  lemma KeepsAdapter(d: LedgerEntry, s: Bytes)
    ensures match GetActors(d, s)
            case Failed => true
            case Got(e, _) => e.hasAdapter == d.hasAdapter && e.adapter == d.adapter
    ensures match GetTimes(d, s)
            case Failed => true
            case Got(e, _) => e.hasAdapter == d.hasAdapter && e.adapter == d.adapter
  {
    hide GetId, GetU64, GetBool;
  }

  lemma BodyDecoded(s: Bytes)
    ensures match GetBody(s)
            case Failed => true
            case Got(e, _) => Canonical(e) == e
  {
    hide GetHead, GetActors, GetKinds, GetQuantity, GetTimes, GetTrailer;
    HeadDecoded(BLANK, s);
    if GetBody(s).Got? {
      var Got(e1, s1) := GetHead(BLANK, s);
      var Got(e2, s2) := GetActors(e1, s1);
      var Got(k, s3) := GetKinds(s2);
      var Got(q, s4) := GetQuantity(s3);
      var e2' := e2.(eventKind := k.0, resourceKind := k.1, quantity := q);
      var Got(e3, s5) := GetTimes(e2', s4);
      KeepsAdapter(e1, s1);
      KeepsAdapter(e2', s4);
      TrailerDecoded(e3, s5);
    }
  }

  /******* Every group takes as many bytes as it prints *******/

  function OptionalSize(present: bool): nat { if present then 17 else 1 }

  lemma ScalarsTake(s: Bytes)
    ensures GetU64(s).Got? ==> |s| == 8 + |GetU64(s).rest|
    ensures GetId(s).Got? ==> |s| == 16 + |GetId(s).rest|
  {
  }

  lemma OptionalIdTakes(s: Bytes)
    ensures match GetOptionalId(s)
            case Failed => true
            case Got(x, rest) => |s| == OptionalSize(x.0) + |rest|
  {
    hide GetId;
    forall t ensures GetId(t).Got? ==> |t| == 16 + |GetId(t).rest| { ScalarsTake(t); }
  }

  lemma HeadTakes(d: LedgerEntry, s: Bytes)
    ensures match GetHead(d, s)
            case Failed => true
            case Got(e, rest) => |s| == 112 + OptionalSize(e.hasAdapter) + |rest|
  {
    hide GetId, GetOptionalId;
    forall t ensures GetId(t).Got? ==> |t| == 16 + |GetId(t).rest| { ScalarsTake(t); }
    forall t ensures GetOptionalId(t).Got? ==>
                       |t| == OptionalSize(GetOptionalId(t).value.0) + |GetOptionalId(t).rest| {
      OptionalIdTakes(t);
    }
  }

  lemma MiddleTakes(d: LedgerEntry, s: Bytes)
    ensures GetActors(d, s).Got? ==> |s| == 80 + |GetActors(d, s).rest|
    ensures GetKinds(s).Got? ==> |s| == 2 + |GetKinds(s).rest|
    ensures GetQuantity(s).Got? ==> |s| == 10 + |GetQuantity(s).rest|
    ensures GetTimes(d, s).Got? ==> |s| == 17 + |GetTimes(d, s).rest|
  {
    hide GetId, GetU64, EventOf, ResourceOf, UnitOf, ProvenanceOf;
    forall t ensures GetId(t).Got? ==> |t| == 16 + |GetId(t).rest| { ScalarsTake(t); }
    forall t ensures GetU64(t).Got? ==> |t| == 8 + |GetU64(t).rest| { ScalarsTake(t); }
  }

  lemma EnvelopeTakes(s: Bytes)
    ensures GetSource(s).Got? ==> |s| == 40 + |GetSource(s).rest|
    ensures GetEnvelope(s).Got? ==> |s| == 80 + |GetEnvelope(s).rest|
  {
    hide GetId, GetU64;
    forall t ensures GetId(t).Got? ==> |t| == 16 + |GetId(t).rest| { ScalarsTake(t); }
    forall t ensures GetU64(t).Got? ==> |t| == 8 + |GetU64(t).rest| { ScalarsTake(t); }
  }

  function TrailerSize(e: LedgerEntry): nat {
    124 + OptionalSize(e.hasAccountingPolicy) + OptionalSize(e.hasPricingPolicy)
  }

  lemma TrailerTakes(d: LedgerEntry, s: Bytes)
    ensures match GetTrailer(d, s)
            case Failed => true
            case Got(e, rest) =>
              && |e.metadata| <= 0xFFFF_FFFF && StringsFit(e.metadata) && e.hasAdapter == d.hasAdapter
              && TrailerSize(e) + PairsSize(e.metadata.Keys, e.metadata) + |rest| <= |s|
  {
    hide GetSource, GetEnvelope, GetOptionalId, GetPairs, PairsSize;
    if GetTrailer(d, s).Got? {
      EnvelopeTakes(s);
      var s1 := GetSource(s).rest;
      EnvelopeTakes(s1);
      var s2 := GetEnvelope(s1).rest;
      OptionalIdTakes(s2);
      var s3 := GetOptionalId(s2).rest;
      OptionalIdTakes(s3);
      var s4 := GetOptionalId(s3).rest;
      var Got(n, s5) := GetU32(s4);
      NoPairs();
      PairsDecoded(n, map[], s5);
    }
  }

  lemma NoPairs()
    ensures var none: map<Bytes, Bytes> := map[]; StringsFit(none) && PairsSize(none.Keys, none) == 0
  {
  }

  function BodySize(e: LedgerEntry): nat { 221 + OptionalSize(e.hasAdapter) + TrailerSize(e) }

  lemma BodyTakes(s: Bytes)
    ensures match GetBody(s)
            case Failed => true
            case Got(e, rest) =>
              && |e.metadata| <= 0xFFFF_FFFF && StringsFit(e.metadata)
              && BodySize(e) + PairsSize(e.metadata.Keys, e.metadata) + |rest| <= |s|
  {
    hide GetHead, GetActors, GetKinds, GetQuantity, GetTimes, GetTrailer, PairsSize, TrailerSize;
    if GetBody(s).Got? {
      HeadTakes(BLANK, s);
      var Got(e1, s1) := GetHead(BLANK, s);
      MiddleTakes(e1, s1);
      KeepsAdapter(e1, s1);
      var Got(e2, s2) := GetActors(e1, s1);
      MiddleTakes(e2, s2);
      var Got(k, s3) := GetKinds(s2);
      MiddleTakes(e2, s3);
      var Got(q, s4) := GetQuantity(s3);
      var e2' := e2.(eventKind := k.0, resourceKind := k.1, quantity := q);
      MiddleTakes(e2', s4);
      KeepsAdapter(e2', s4);
      var Got(e3, s5) := GetTimes(e2', s4);
      TrailerTakes(e3, s5);
    }
  }

  lemma HeadLength(e: LedgerEntry, rest: Bytes)
    ensures |PutHead(e, rest)| == 112 + OptionalSize(e.hasAdapter) + |rest|
    ensures |PutActors(e, rest)| == 80 + |rest|
  {
    hide PutId, PutBool;
  }

  lemma FactsLength(e: LedgerEntry, rest: Bytes)
    ensures |PutKinds(e.eventKind, e.resourceKind, PutQuantity(e.quantity, PutTimes(e, rest)))| == 29 + |rest|
  {
    hide PutU64, PutBool, EventCode, ResourceCode, UnitCode, ProvenanceCode;
  }

  lemma TrailerLength(e: LedgerEntry)
    requires |e.metadata| <= 0xFFFF_FFFF && StringsFit(e.metadata)
    ensures |PutTrailer(e)| == TrailerSize(e) + PairsSize(e.metadata.Keys, e.metadata)
  {
    hide PutId, PutU64, PutU32, PutBool, PutPairs, PairsSize;
    var keys := SortedKeys(e.metadata);
    PutPairsLength(keys, e.metadata);
    assert SetOf(keys) == e.metadata.Keys;
  }

  lemma PayloadLength(e: LedgerEntry)
    requires |e.metadata| <= 0xFFFF_FFFF && StringsFit(e.metadata)
    ensures |Payload(e)| == 5 + BodySize(e) + PairsSize(e.metadata.Keys, e.metadata)
  {
    hide PutHead, PutActors, PutKinds, PutQuantity, PutTimes, PutTrailer, PutU32, PairsSize, TrailerSize;
    var s3 := PutTrailer(e);
    var s2 := PutKinds(e.eventKind, e.resourceKind, PutQuantity(e.quantity, PutTimes(e, s3)));
    HeadLength(e, PutActors(e, s2));
    HeadLength(e, s2);
    FactsLength(e, s3);
    TrailerLength(e);
  }

  /** Whatever decodes fits a frame no longer than the one it came in. */
  lemma DecodedFits(data: Bytes, e: LedgerEntry, n: nat)
    requires DecodeEntry(data) == Some((e, n))
    ensures FitsFrame(e) && 8 + |Payload(e)| <= n <= |data|
  {
    hide GetBody, Payload, PairsSize, BodySize;
    var payload := Unframed(data).value;
    assert payload[1..] == GetU8(payload).rest;
    BodyTakes(GetU32(payload[1..]).rest);
    PayloadLength(e);
  }

  /** A decoded entry encodes unless it is a Count with a fractional value; decoding
      what it encodes to gives it back unchanged, from no more bytes than before. */
  lemma DecodedIsFixedPoint(data: Bytes, e: LedgerEntry, n: nat)
    requires DecodeEntry(data) == Some((e, n))
    ensures EncodeEntry(e).Some? <==> (e.quantity.unit.Count? ==> IsIntegral(e.quantity.bits))
    ensures match EncodeEntry(e)
            case None => true
            case Some(frame) => DecodeEntry(frame) == Some((e, |frame|)) && |frame| <= n <= |data|
  {
    hide GetBody, Framed, Payload;
    var payload := Unframed(data).value;
    assert payload[1..] == GetU8(payload).rest;
    BodyDecoded(GetU32(payload[1..]).rest);
    DecodedFits(data, e, n);
    if EncodeEntry(e).Some? {
      EntryRoundTrip(e, []);
      assert EncodeEntry(e).value + [] == EncodeEntry(e).value;
      UnframedFramed(Payload(e), []);
    }
  }

  ghost predicate IsFractionalCount(e: LedgerEntry) {
    DecoderAccepts(e) && e.quantity.unit.Count? && !IsIntegral(e.quantity.bits)
  }

  /** The decoder's rules are weaker: a well-formed frame that carries a fractional
      Count decodes, though the encoder would never have written it. */
  lemma FractionalCountDecodes(e: LedgerEntry, rest: Bytes)
    requires FitsFrame(e) && IsFractionalCount(e)
    ensures EncodeEntry(e) == None
    ensures DecodeEntry(Framed(Payload(e)) + rest) == Some((Canonical(e), |Framed(Payload(e))|))
  {
    hide DecodePayload, Payload, Framed, Unframed;
    UnframedFramed(Payload(e), rest);
    PayloadRoundTrip(e);
  }

  /******* Witnesses *******/

  lemma BlankIsEncodable()
    ensures Encodable(BLANK) && EncodeEntry(BLANK).Some?
  {
    hide Payload, PairsSize;
    NoPairs();
    PayloadLength(BLANK);
  }

  /** Two to the 51st and a half. */
  const HALF_COUNT: LedgerEntry := BLANK.(quantity := Quantity(0x4320_0000_0000_0001, Count, Measured))

  lemma HalfCountIsFractional()
    ensures FitsFrame(HALF_COUNT) && IsFractionalCount(HALF_COUNT)
  {
    hide Payload, PairsSize;
    NoPairs();
    PayloadLength(HALF_COUNT);
    assert PowerOfTwo(-1) == 0.5;
  }
}
