/** The ledger file: saving, appending, loading and replaying, over its bytes. */
module Store {
  import opened Base
  import opened Entry
  import opened Wire
  import opened Codec
  import CodecDriver

  const MAGIC: U64 := 0x494C_4544_4745_524B

  function Header(ledgerId: Id): (s: Bytes)
    ensures |s| == 28
  {
    PutU64(MAGIC) + (PutU32(SCHEMA_VERSION) + PutId(ledgerId))
  }

  /** The frames of `es` back to back, up to the first entry that does not encode. */
  function Frames(es: seq<LedgerEntry>): Bytes {
    if es == [] || EncodeEntry(es[0]).None? then [] else EncodeEntry(es[0]).value + Frames(es[1..])
  }

  predicate AllEncode(es: seq<LedgerEntry>) {
    forall e :: e in es ==> EncodeEntry(e).Some?
  }

  /******* Fingerprint *******/

  datatype Mix = Mix(a: bv64, b: bv64)

  const MIX_START := Mix(0xCBF2_9CE4_8422_2325, 0x9E37_79B9_7F4A_7C15)

  function FeedA(a: bv64, v: bv64): bv64 { a ^ (v + 0x9E37_79B9_7F4A_7C15 + (a << 6) + (a >> 2)) }

  function FeedB(b: bv64, v: bv64): bv64 { (b ^ (v * 0x100_0000_01B3)) * 0x9E37_79B9_7F4A_7C15 }

  function FeedMix(m: Mix, v: bv64): Mix { Mix(FeedA(m.a, v), FeedB(m.b, v)) }

  function FeedBytes(m: Mix, s: Bytes): Mix
    decreases |s|
  {
    if s == [] then m else FeedBytes(FeedMix(m, s[0] as bv64), s[1..])
  }

  function FeedEntries(m: Mix, es: seq<LedgerEntry>): Mix
    decreases |es|
  {
    if es == [] then m else
    match EncodeEntry(es[0])
    case None => FeedEntries(FeedMix(m, 0xFFFF_FFFF_FFFF_FFFF), es[1..])
    case Some(frame) => FeedEntries(FeedBytes(m, frame), es[1..])
  }

  /** The digest, before it is cut into sixteen bytes. */
  function Fingerprint(es: seq<LedgerEntry>): Mix { FeedEntries(MIX_START, es) }

  method ComputeFingerprint(es: seq<LedgerEntry>) returns (m: Mix)
    ensures m == Fingerprint(es)
  {
    hide FeedMix, EncodeEntry;
    m := MIX_START;
    for i := 0 to |es|
      invariant FeedEntries(m, es[i..]) == Fingerprint(es)
    {
      assert es[i..][1..] == es[i + 1..];
      var frame := CodecDriver.Encode(es[i]);
      if frame.None? {
        m := FeedMix(m, 0xFFFF_FFFF_FFFF_FFFF);
      } else {
        ghost var m0 := m;
        for j := 0 to |frame.value|
          invariant FeedBytes(m, frame.value[j..]) == FeedBytes(m0, frame.value)
        {
          assert frame.value[j..][1..] == frame.value[j + 1..];
          m := FeedMix(m, frame.value[j] as bv64);
        }
      }
    }
  }

  /******* Writing *******/

  /** Write the frames of `es` after `file`, stopping at the first that does not encode. */
  method WriteFrames(file: Bytes, es: seq<LedgerEntry>) returns (ok: bool, out: Bytes)
    ensures ok == AllEncode(es)
    ensures out == file + Frames(es)
  {
    hide EncodeEntry;
    out := file;
    for i := 0 to |es|
      invariant out + Frames(es[i..]) == file + Frames(es)
      invariant forall j :: 0 <= j < i ==> EncodeEntry(es[j]).Some?
    {
      assert es[i..][1..] == es[i + 1..];
      var frame := CodecDriver.Encode(es[i]);
      if frame.None? {
        assert Frames(es[i..]) == [];
        return false, out;
      }
      ghost var before := out;
      out := out + frame.value;
      assert out + Frames(es[i + 1..]) == before + (frame.value + Frames(es[i + 1..]));
    }
    ok := true;
  }

  method SaveSnapshot(es: seq<LedgerEntry>, ledgerId: Id) returns (ok: bool, file: Bytes)
    ensures ok == AllEncode(es)
    ensures file == Header(ledgerId) + Frames(es)
  {
    ok, file := WriteFrames(Header(ledgerId), es);
  }

  predicate HasMagic(file: Bytes) {
    |file| >= 8 && GetU64(file).value == MAGIC
  }

  /** Append to `file`, starting it over when it has no valid magic. */
  method AppendEntries(file: Bytes, es: seq<LedgerEntry>) returns (ok: bool, out: Bytes)
    ensures ok == AllEncode(es)
    ensures HasMagic(file) ==> out == file + Frames(es)
    ensures !HasMagic(file) ==> out == Header(if es == [] then ZERO_ID else es[0].ledger) + Frames(es)
  {
    var start := if HasMagic(file) then file else Header(if es == [] then ZERO_ID else es[0].ledger);
    ok, out := WriteFrames(start, es);
  }

  /******* Loading *******/

  datatype Reason =
    | TooSmall | BadMagic | UnsupportedVersion
    | TruncatedFrameHeader | TruncatedFramePayload | CorruptFrame | DuplicateEntryId

  datatype LoadResult =
    | Rejected(reason: Reason)
    | Loaded(ledgerId: Id, entries: seq<LedgerEntry>, fingerprint: Mix)

  datatype Scan = Broken(reason: Reason) | Complete(entries: seq<LedgerEntry>)

  predicate HasId(seen: seq<LedgerEntry>, id: Id) {
    exists i :: 0 <= i < |seen| && seen[i].id == id
  }

  /** The frame loop: `seen` are the entries of the frames before `data`. */
  function ScanFrames(data: Bytes, seen: seq<LedgerEntry>): Scan
    decreases |data|
  {
    if data == [] then Complete(seen)
    else if |data| < 8 then Broken(TruncatedFrameHeader)
    else if U32Of(data[0], data[1], data[2], data[3]) + 8 > |data| then Broken(TruncatedFramePayload)
    else match DecodeEntry(data)
         case None => Broken(CorruptFrame)
         case Some((e, n)) =>
           if HasId(seen, e.id) then Broken(DuplicateEntryId) else ScanFrames(data[n..], seen + [e])
  }

  function Load(data: Bytes): LoadResult {
    if |data| < 28 then Rejected(TooSmall)
    else if GetU64(data).value != MAGIC then Rejected(BadMagic)
    else if U32Of(data[8], data[9], data[10], data[11]) != SCHEMA_VERSION then Rejected(UnsupportedVersion)
    else match ScanFrames(data[28..], [])
         case Broken(reason) => Rejected(reason)
         case Complete(entries) => Loaded(GetId(data[12..]).value, entries, Fingerprint(entries))
  }

  lemma DecodeTakesAll(data: Bytes)
    ensures match DecodeEntry(data)
            case None => true
            case Some((_, n)) => |data| >= 8 && n == U32Of(data[0], data[1], data[2], data[3]) + 8 <= |data|
  {
    hide DecodePayload;
  }

  /** The scan over the identities loaded so far. */
  method AlreadyLoaded(ids: seq<Id>, ghost seen: seq<LedgerEntry>, id: Id) returns (known: bool)
    requires |ids| == |seen| && forall i :: 0 <= i < |ids| ==> ids[i] == seen[i].id
    ensures known == HasId(seen, id)
  {
    for i := 0 to |ids|
      invariant forall j :: 0 <= j < i ==> ids[j] != id
    {
      if ids[i] == id {
        assert seen[i].id == id;
        return true;
      }
    }
    return false;
  }

  method LoadFile(data: Bytes) returns (res: LoadResult)
    ensures res == Load(data)
  {
    hide DecodeEntry, Fingerprint, U32Of, HasId;
    if |data| < 28 { return Rejected(TooSmall); }
    if GetU64(data).value != MAGIC { return Rejected(BadMagic); }
    if U32Of(data[8], data[9], data[10], data[11]) != SCHEMA_VERSION { return Rejected(UnsupportedVersion); }
    var pos: nat := 28;
    var seen: seq<LedgerEntry> := [];
    var ids: seq<Id> := [];
    while pos < |data|
      invariant 28 <= pos <= |data|
      invariant |ids| == |seen| && forall i :: 0 <= i < |ids| ==> ids[i] == seen[i].id
      invariant ScanFrames(data[pos..], seen) == ScanFrames(data[28..], [])
    {
      if |data| - pos < 8 { return Rejected(TruncatedFrameHeader); }
      var len := U32Of(data[pos], data[pos + 1], data[pos + 2], data[pos + 3]);
      if len + 8 > |data| - pos { return Rejected(TruncatedFramePayload); }
      var decoded := CodecDriver.Decode(data[pos..]);
      if decoded.None? { return Rejected(CorruptFrame); }
      var (e, consumed) := decoded.value;
      DecodeTakesAll(data[pos..]);
      var known := AlreadyLoaded(ids, seen, e.id);
      if known { return Rejected(DuplicateEntryId); }
      assert data[pos..][consumed..] == data[pos + consumed..];
      ids := ids + [e.id];
      seen := seen + [e];
      pos := pos + consumed;
    }
    var fingerprint := ComputeFingerprint(seen);
    res := Loaded(GetId(data[12..]).value, seen, fingerprint);
  }
}
