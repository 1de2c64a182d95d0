/** What the file format guarantees: exact reload, exact truncation behaviour,
    byte-identical appends, rejection of damage, and faithful replay. */
module StoreLaws {
  import opened Base
  import opened Entry
  import opened Wire
  import opened Crc
  import opened Codec
  import opened Ledger
  import opened Store

  ghost predicate AllEncodable(es: seq<LedgerEntry>) {
    forall e :: e in es ==> Encodable(e)
  }

  function CanonicalAll(es: seq<LedgerEntry>): (r: seq<LedgerEntry>)
    ensures |r| == |es| && forall i :: 0 <= i < |es| ==> r[i] == Canonical(es[i])
  {
    seq(|es|, i requires 0 <= i < |es| => Canonical(es[i]))
  }

  function FrameOf(e: LedgerEntry): Bytes
    requires EncodeEntry(e).Some?
  {
    EncodeEntry(e).value
  }

  lemma FrameShape(e: LedgerEntry)
    requires Encodable(e)
    ensures EncodeEntry(e).Some? && |FrameOf(e)| >= 8
    ensures U32Of(FrameOf(e)[0], FrameOf(e)[1], FrameOf(e)[2], FrameOf(e)[3]) + 8 == |FrameOf(e)|
  {
    hide Payload, DecodePayload;
    EntryRoundTrip(e, []);
    assert FrameOf(e) + [] == FrameOf(e);
    DecodeTakesAll(FrameOf(e));
  }

  /** A frame that decodes to `e` is taken in unless its identity was seen. */
  lemma ScanFrame(frame: Bytes, e: LedgerEntry, rest: Bytes, seen: seq<LedgerEntry>)
    requires DecodeEntry(frame + rest) == Some((e, |frame|))
    ensures ScanFrames(frame + rest, seen)
         == if HasId(seen, e.id) then Broken(DuplicateEntryId) else ScanFrames(rest, seen + [e])
  {
    hide DecodeEntry;
    DecodeTakesAll(frame + rest);
    assert (frame + rest)[|frame|..] == rest;
  }

  lemma ScanOne(e: LedgerEntry, rest: Bytes, seen: seq<LedgerEntry>)
    requires Encodable(e)
    ensures EncodeEntry(e).Some?
    ensures ScanFrames(FrameOf(e) + rest, seen)
         == if HasId(seen, e.id) then Broken(DuplicateEntryId) else ScanFrames(rest, seen + [Canonical(e)])
  {
    hide EncodeEntry, DecodeEntry, Encodable, ScanFrames;
    EntryRoundTrip(e, rest);
    ScanFrame(FrameOf(e), Canonical(e), rest, seen);
  }

  lemma OneMoreSeen(seen: seq<LedgerEntry>, es: seq<LedgerEntry>)
    requires UniqueIds(seen + es) && es != []
    ensures !HasId(seen, es[0].id) && UniqueIds(seen + [Canonical(es[0])] + es[1..])
  {
    var all, next := seen + es, seen + [Canonical(es[0])] + es[1..];
    forall i | 0 <= i < |seen| ensures seen[i].id != es[0].id {
      assert all[i].id != all[|seen|].id;
    }
    forall i, j | 0 <= i < j < |next| ensures next[i].id != next[j].id {
      assert next[i].id == all[i].id && next[j].id == all[j].id;
    }
  }

  /** Frames of entries whose identities are new and distinct are all taken in. */
  lemma {:induction false} ScanAll(es: seq<LedgerEntry>, rest: Bytes, seen: seq<LedgerEntry>)
    requires AllEncodable(es) && UniqueIds(seen + es)
    ensures ScanFrames(Frames(es) + rest, seen) == ScanFrames(rest, seen + CanonicalAll(es))
    decreases |es|
  {
    hide EncodeEntry, DecodeEntry, Encodable, ScanFrames, UniqueIds, Canonical;
    if es == [] {
      assert Frames(es) + rest == rest && seen + CanonicalAll(es) == seen;
    } else {
      var e, tail := es[0], es[1..];
      var next := seen + [Canonical(e)];
      ScanOne(e, Frames(tail) + rest, seen);
      assert Frames(es) + rest == FrameOf(e) + (Frames(tail) + rest);
      OneMoreSeen(seen, es);
      ScanAll(tail, rest, next);
      assert next + CanonicalAll(tail) == seen + CanonicalAll(es);
    }
  }

  /** A repeated identity stops the scan, wherever the repetition is. */
  lemma {:induction false} ScanFindsDuplicate(es: seq<LedgerEntry>, rest: Bytes, seen: seq<LedgerEntry>)
    requires AllEncodable(es) && UniqueIds(seen) && !UniqueIds(seen + es)
    ensures ScanFrames(Frames(es) + rest, seen) == Broken(DuplicateEntryId)
    decreases |es|
  {
    hide EncodeEntry, DecodeEntry, Encodable, ScanFrames;
    assert seen + [] == seen;
    if es == [] {
    } else {
      var e, tail := es[0], es[1..];
      ScanOne(e, Frames(tail) + rest, seen);
      assert Frames(es) + rest == FrameOf(e) + (Frames(tail) + rest);
      if !HasId(seen, e.id) {
        var next := seen + [Canonical(e)];
        var i, j :| 0 <= i < j < |seen + es| && (seen + es)[i].id == (seen + es)[j].id;
        assert (next + tail)[i].id == (seen + es)[i].id && (next + tail)[j].id == (seen + es)[j].id;
        ScanFindsDuplicate(tail, rest, next);
      }
    }
  }

  lemma LoadAfterHeader(ledgerId: Id, s: Bytes)
    ensures Load(Header(ledgerId) + s)
         == match ScanFrames(s, [])
            case Broken(reason) => Rejected(reason)
            case Complete(entries) => Loaded(ledgerId, entries, Fingerprint(entries))
  {
    hide ScanFrames, Fingerprint, PutU64, GetU64, PutId, GetId;
    var data := Header(ledgerId) + s;
    var s2 := PutId(ledgerId) + s;
    var s1 := PutU32(SCHEMA_VERSION) + s2;
    assert data == PutU64(MAGIC) + s1;
    GetPutU64(MAGIC, s1);
    assert data[8..] == s1 && data[12..] == s2;
    assert data[8] == s1[0] && data[9] == s1[1] && data[10] == s1[2] && data[11] == s1[3];
    U32RoundTrip(SCHEMA_VERSION);
    GetPutId(ledgerId, s);
    assert data[28..] == s;
  }

  /******* Fingerprints see frames only *******/

  lemma {:induction false} FeedCanonical(m: Mix, es: seq<LedgerEntry>)
    ensures FeedEntries(m, CanonicalAll(es)) == FeedEntries(m, es)
    decreases |es|
  {
    hide FeedMix, EncodeEntry;
    if es == [] {
    } else {
      CanonicalEncodesTheSame(es[0]);
      assert CanonicalAll(es)[1..] == CanonicalAll(es[1..]);
      match EncodeEntry(es[0])
      case None => FeedCanonical(FeedMix(m, 0xFFFF_FFFF_FFFF_FFFF), es[1..]);
      case Some(frame) => FeedCanonical(FeedBytes(m, frame), es[1..]);
    }
  }

  lemma {:induction false} FeedBytesConcat(m: Mix, s: Bytes, t: Bytes)
    ensures FeedBytes(m, s + t) == FeedBytes(FeedBytes(m, s), t)
    decreases |s|
  {
    hide FeedMix;
    if s == [] {
      assert s + t == t;
    } else {
      assert (s + t)[1..] == s[1..] + t;
      FeedBytesConcat(FeedMix(m, s[0] as bv64), s[1..], t);
    }
  }

  /** The fingerprint of entries that encode takes in every byte of the file behind its
      header, in order, and nothing else. */
  lemma {:induction false} FingerprintIsOfBytes(m: Mix, es: seq<LedgerEntry>)
    requires AllEncode(es)
    ensures FeedEntries(m, es) == FeedBytes(m, Frames(es))
    decreases |es|
  {
    hide FeedMix, EncodeEntry;
    if es == [] {
    } else {
      FeedBytesConcat(m, FrameOf(es[0]), Frames(es[1..]));
      FingerprintIsOfBytes(FeedBytes(m, FrameOf(es[0])), es[1..]);
    }
  }

  /** Whatever was fed before, different next values lead to different digests. */
  lemma FeedTellsApart(m: Mix, v: bv64, w: bv64)
    requires FeedMix(m, v) == FeedMix(m, w)
    ensures v == w
  {
    hide FeedB, FeedA;
    LaneTellsApart(m.a, v, w);
  }

  /** The value last fed, from the lane before and after. */
  function LastFed(a: bv64, after: bv64): bv64 { (a ^ after) - 0x9E37_79B9_7F4A_7C15 - (a << 6) - (a >> 2) }

  lemma FeedComesOff(a: bv64, v: bv64)
    ensures LastFed(a, a ^ (v + 0x9E37_79B9_7F4A_7C15 + (a << 6) + (a >> 2))) == v
  {
  }

  lemma LaneTellsApart(a: bv64, v: bv64, w: bv64)
    requires FeedA(a, v) == FeedA(a, w)
    ensures v == w
  {
    FeedComesOff(a, v);
    FeedComesOff(a, w);
  }

  /** Two turns of the mixer from its start. */
  lemma FeedValues()
    ensures FeedMix(MIX_START, 1) == Mix(0x0629_C6F7_2CF9_ED3A, 0x69AD_C3B3_31F4_B69E)
    ensures FeedMix(FeedMix(MIX_START, 1), 255) == Mix(0x2C1A_6FB5_A5FD_ABD8, 0xD94C_2916_B8E1_D84F)
  {
  }

  /******* Saving and loading *******/

  /** A saved file loads exactly when its identities are pairwise distinct, and
      then returns the same entries, identity and fingerprint. */
  lemma SavedFileLoads(es: seq<LedgerEntry>, ledgerId: Id)
    requires AllEncodable(es)
    ensures Load(Header(ledgerId) + Frames(es))
         == if UniqueIds(es) then Loaded(ledgerId, CanonicalAll(es), Fingerprint(es)) else Rejected(DuplicateEntryId)
  {
    hide Encodable, Frames, Fingerprint, Canonical, Load, Header, ScanFrames, CanonicalAll;
    LoadAfterHeader(ledgerId, Frames(es));
    assert Frames(es) + [] == Frames(es) && [] + es == es;
    if UniqueIds(es) {
      ScanAll(es, [], []);
      assert [] + CanonicalAll(es) == CanonicalAll(es);
      ScanEnd(CanonicalAll(es));
      FingerprintCanonical(es);
    } else {
      ScanFindsDuplicate(es, [], []);
    }
  }

  lemma ScanEnd(seen: seq<LedgerEntry>)
    ensures ScanFrames([], seen) == Complete(seen)
  {
  }

  /** The loaded entries equal the saved ones in the sense of `operator==`. */
  lemma LoadedEqualsSaved(es: seq<LedgerEntry>)
    requires AllEncodable(es)
    ensures forall i :: 0 <= i < |es| ==> SameEntry(CanonicalAll(es)[i], es[i])
  {
    hide Encodable, SameEntry, Canonical;
    forall i | 0 <= i < |es| ensures SameEntry(CanonicalAll(es)[i], es[i]) {
      EncodableIsFinite(es[i]);
      SameEntryCanonical(es[i]);
    }
  }

  lemma FingerprintCanonical(es: seq<LedgerEntry>)
    ensures Fingerprint(CanonicalAll(es)) == Fingerprint(es)
  {
    FeedCanonical(MIX_START, es);
  }

  lemma EncodableIsFinite(e: LedgerEntry)
    requires Encodable(e)
    ensures IsFinite(e.quantity.bits)
  {
  }

  /******* Truncation *******/

  /** How many whole frames of `es` end exactly at byte `k`. */
  ghost function FramesEndingAt(es: seq<LedgerEntry>, k: nat): Option<nat>
    requires AllEncode(es)
    decreases |es|
  {
    if k == 0 then Some(0)
    else if es == [] || k < |FrameOf(es[0])| then None
    else match FramesEndingAt(es[1..], k - |FrameOf(es[0])|)
         case None => None
         case Some(j) => Some(j + 1)
  }

  /** ... which is to say, the frames of the first `j` entries take `k` bytes. */
  lemma {:induction false} FramesEndingAtMeans(es: seq<LedgerEntry>, k: nat, j: nat)
    requires AllEncode(es) && (forall e :: e in es ==> |FrameOf(e)| > 0) && j <= |es|
    ensures FramesEndingAt(es, k) == Some(j) <==> k == |Frames(es[..j])|
    decreases |es|
  {
    hide EncodeEntry;
    if j > 0 {
      var first, tail := es[..j], es[1..];
      assert first[1..] == tail[..j - 1];
      assert first[0] == es[0];
      if k >= |FrameOf(es[0])| {
        FramesEndingAtMeans(es[1..], k - |FrameOf(es[0])|, j - 1);
      }
    } else if k > 0 && es != [] && k >= |FrameOf(es[0])| {
      assert es[..0] == [];
    }
  }

  lemma CutInsideFrame(e: LedgerEntry, k: nat, seen: seq<LedgerEntry>)
    requires Encodable(e) && EncodeEntry(e).Some? && 0 < k < |FrameOf(e)|
    ensures ScanFrames(FrameOf(e)[..k], seen) == Broken(if k < 8 then TruncatedFrameHeader else TruncatedFramePayload)
  {
    hide EncodeEntry, Encodable, DecodeEntry;
    FrameShape(e);
  }

  lemma {:induction false} ScanTruncated(es: seq<LedgerEntry>, k: nat, seen: seq<LedgerEntry>)
    requires AllEncodable(es) && AllEncode(es) && UniqueIds(seen + es) && k <= |Frames(es)|
    ensures match FramesEndingAt(es, k)
            case Some(j) => j <= |es| && ScanFrames(Frames(es)[..k], seen) == Complete(seen + CanonicalAll(es[..j]))
            case None =>
              || ScanFrames(Frames(es)[..k], seen) == Broken(TruncatedFrameHeader)
              || ScanFrames(Frames(es)[..k], seen) == Broken(TruncatedFramePayload)
    decreases |es|
  {
    hide EncodeEntry, Encodable, DecodeEntry, UniqueIds, Canonical, ScanFrames;
    if k == 0 {
      ScanEnd(seen);
      assert seen + CanonicalAll(es[..0]) == seen;
    } else {
      var e, tail := es[0], es[1..];
      var n := |FrameOf(e)|;
      if k < n {
        assert Frames(es)[..k] == FrameOf(e)[..k];
        CutInsideFrame(e, k, seen);
      } else {
        var next := seen + [Canonical(e)];
        assert Frames(es)[..k] == FrameOf(e) + Frames(tail)[..k - n];
        ScanOne(e, Frames(tail)[..k - n], seen);
        OneMoreSeen(seen, es);
        ScanTruncated(tail, k - n, next);
        var r := FramesEndingAt(tail, k - n);
        if r.Some? {
          assert next + CanonicalAll(tail[..r.value]) == seen + CanonicalAll(es[..r.value + 1]);
        }
      }
    }
  }

  /** A file of distinct entries cut to `k` bytes loads exactly when the cut is
      at the end of the header or of a frame, and then gives that prefix. */
  lemma TruncatedFileLoads(es: seq<LedgerEntry>, ledgerId: Id, k: nat)
    requires AllEncodable(es) && UniqueIds(es) && k <= 28 + |Frames(es)|
    ensures AllEncode(es)
    ensures var cut := (Header(ledgerId) + Frames(es))[..k];
            if k >= 28 && FramesEndingAt(es, k - 28).Some? then
              var j := FramesEndingAt(es, k - 28).value;
              && j <= |es| && k == 28 + |Frames(es[..j])|
              && Load(cut) == Loaded(ledgerId, CanonicalAll(es[..j]), Fingerprint(es[..j]))
            else
              && Load(cut).Rejected?
              && forall j :: 0 <= j <= |es| ==> k != 28 + |Frames(es[..j])|
  {
    hide Encodable, EncodeEntry, Fingerprint, ScanFrames, Load, Header, Frames, FramesEndingAt;
    forall e | e in es ensures EncodeEntry(e).Some? && |FrameOf(e)| > 0 { FrameShape(e); }
    var file := Header(ledgerId) + Frames(es);
    if k >= 28 {
      assert file[..k] == Header(ledgerId) + Frames(es)[..k - 28];
      LoadAfterHeader(ledgerId, Frames(es)[..k - 28]);
      assert [] + es == es;
      ScanTruncated(es, k - 28, []);
      forall j | 0 <= j <= |es| ensures FramesEndingAt(es, k - 28) == Some(j) <==> k - 28 == |Frames(es[..j])| {
        FramesEndingAtMeans(es, k - 28, j);
      }
      var r := FramesEndingAt(es, k - 28);
      if r.Some? {
        assert [] + CanonicalAll(es[..r.value]) == CanonicalAll(es[..r.value]);
        FingerprintCanonical(es[..r.value]);
      }
    } else {
      ShortFileRejected(file[..k]);
    }
  }

  lemma ShortFileRejected(data: Bytes)
    requires |data| < 28
    ensures Load(data) == Rejected(TooSmall)
  {
  }

  /******* Appending *******/

  lemma {:induction false} FramesAppend(a: seq<LedgerEntry>, b: seq<LedgerEntry>)
    requires AllEncode(a)
    ensures Frames(a + b) == Frames(a) + Frames(b)
  {
    hide EncodeEntry;
    if a == [] {
      assert a + b == b;
    } else {
      assert (a + b)[1..] == a[1..] + b;
      FramesAppend(a[1..], b);
    }
  }

  /** Saving `a` and then appending `b` writes the bytes that saving `a ++ b` does. */
  method SaveThenAppend(a: seq<LedgerEntry>, b: seq<LedgerEntry>, ledgerId: Id)
    returns (ok: bool, appended: Bytes, saved: Bytes)
    ensures ok ==> AllEncode(a + b) && appended == saved == Header(ledgerId) + Frames(a + b)
    ensures AllEncode(a + b) ==> ok
  {
    hide EncodeEntry, Frames;
    var ok1, file := SaveSnapshot(a, ledgerId);
    var ok2;
    ok2, appended := AppendEntries(file, b);
    var ok3;
    ok3, saved := SaveSnapshot(a + b, ledgerId);
    ok := ok1 && ok2;
    if ok {
      FramesAppend(a, b);
      HeaderHasMagic(ledgerId, Frames(a));
      assert Header(ledgerId) + Frames(a) + Frames(b) == Header(ledgerId) + (Frames(a) + Frames(b));
    }
    if AllEncode(a + b) {
      assert forall e :: e in a ==> e in a + b;
      assert forall e :: e in b ==> e in a + b;
    }
  }

  lemma HeaderHasMagic(ledgerId: Id, s: Bytes)
    ensures HasMagic(Header(ledgerId) + s)
  {
    hide PutU64, GetU64, PutId, PutU32;
    var s1 := PutU32(SCHEMA_VERSION) + PutId(ledgerId) + s;
    assert Header(ledgerId) + s == PutU64(MAGIC) + s1;
    GetPutU64(MAGIC, s1);
  }

  /******* Damage *******/

  /** Damage one frame's payload within 32 consecutive bits: the file no longer
      loads, whatever intact frames come before it and whatever follows. */
  lemma DamagedFileRejected(before: seq<LedgerEntry>, payload: Bytes, damaged: Bytes, at: nat, rest: Bytes,
                            ledgerId: Id)
    requires AllEncodable(before) && UniqueIds(before) && |payload| < 0x1_0000_0000
    requires |damaged| == |payload| && damaged != payload
    requires DifferWithinBurst(Bits(payload), Bits(damaged), at)
    ensures |Framed(payload)| >= 8
    ensures Load(Header(ledgerId) + (Frames(before) + (Framed(payload)[..8] + (damaged + rest))))
         == Rejected(CorruptFrame)
  {
    hide Encodable, DecodeEntry, Bits, Frames, Fingerprint, Load, Header, Framed, ScanFrames, CanonicalAll;
    FramedLength(payload);
    var bad := Framed(payload)[..8] + (damaged + rest);
    LoadAfterHeader(ledgerId, Frames(before) + bad);
    assert [] + before == before;
    ScanAll(before, bad, []);
    PayloadBurstRejected(payload, damaged, at, rest);
    WholeButUndecodable(payload, damaged + rest, [] + CanonicalAll(before));
  }

  lemma FramedLength(content: Bytes)
    ensures |Framed(content)| == 8 + |content|
  {
    hide Crc32;
  }

  lemma WholeButUndecodable(payload: Bytes, tail: Bytes, seen: seq<LedgerEntry>)
    requires |payload| < 0x1_0000_0000 && |tail| >= |payload|
    requires DecodeEntry(Framed(payload)[..8] + tail) == None
    ensures ScanFrames(Framed(payload)[..8] + tail, seen) == Broken(CorruptFrame)
  {
    hide DecodeEntry, Crc32, U32Of, PutU32, Framed;
    FrameHead(payload, tail);
    var data, len := Framed(payload)[..8] + tail, PutU32(|payload|);
    assert data[0] == len[0] && data[1] == len[1] && data[2] == len[2] && data[3] == len[3];
    U32RoundTrip(|payload|);
  }
}
