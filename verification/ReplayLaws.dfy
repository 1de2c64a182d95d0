/** Replaying a file into a ledger: exactly how far it gets, and doing it again. */
module ReplayLaws {
  import opened Base
  import opened Entry
  import opened Codec
  import opened CodecLaws
  import opened Ledger
  import opened Store
  import opened StoreLaws

  /** The ledger after a replay, and whether every entry went in or was there already. */
  datatype Replayed = Replayed(entries: seq<LedgerEntry>, ok: bool)

  predicate Harmless(status: AppendStatus) { status.Accepted? || status.Duplicate? }

  /** Append one by one, with no fence, until an entry is refused. */
  function Replay(entries: seq<LedgerEntry>, es: seq<LedgerEntry>): Replayed
    decreases |es|
  {
    if es == [] then Replayed(entries, true)
    else if !Harmless(StatusOf(entries, None, es[0])) then Replayed(entries, false)
    else Replay(Appended(entries, None, es[0]), es[1..])
  }

  method ReplayInto(log: LedgerLog, data: Bytes) returns (ok: bool)
    requires log.Valid()
    modifies log
    ensures log.Valid()
    ensures match Load(data)
            case Rejected(_) => !ok && log.entries == old(log.entries)
            case Loaded(_, es, _) => Replayed(log.entries, ok) == Replay(old(log.entries), es)
  {
    hide Load, StatusOf, log.Valid;
    var res := LoadFile(data);
    if res.Rejected? { return false; }
    var es := res.entries;
    for i := 0 to |es|
      invariant log.Valid()
      invariant Replay(log.entries, es[i..]) == Replay(old(log.entries), es)
    {
      assert es[i..][1..] == es[i + 1..];
      var status := log.Append(es[i], None);
      if status != Accepted && status != Duplicate {
        return false;
      }
    }
    ok := true;
  }

  /******* Exactly how far a replay gets *******/

  /** The ledger just before entry `i` of the stream. */
  function Before(entries: seq<LedgerEntry>, es: seq<LedgerEntry>, i: nat): seq<LedgerEntry>
    requires i <= |es|
  {
    AppendAll(entries, Unfenced(es[..i]))
  }

  function StatusAt(entries: seq<LedgerEntry>, es: seq<LedgerEntry>, i: nat): AppendStatus
    requires i < |es|
  {
    StatusOf(Before(entries, es, i), None, es[i])
  }

  lemma BeforeNext(entries: seq<LedgerEntry>, es: seq<LedgerEntry>, i: nat)
    requires i < |es|
    ensures Before(entries, es, i + 1) == Appended(Before(entries, es, i), None, es[i])
  {
    hide Appended;
    var now := [Attempted(es[i], None)];
    assert Unfenced(es[..i + 1]) == Unfenced(es[..i]) + now;
    AppendAllSplit(entries, Unfenced(es[..i]), now);
    assert now[1..] == [];
  }

  lemma BeforeTail(entries: seq<LedgerEntry>, es: seq<LedgerEntry>, i: nat)
    requires i < |es|
    ensures Before(entries, es, i + 1) == Before(Appended(entries, None, es[0]), es[1..], i)
  {
    hide Appended;
    assert Unfenced(es[..i + 1])[1..] == Unfenced(es[1..][..i]);
  }

  /** A replay stores everything before the first entry that is neither new nor
      already there, and nothing from that entry on. */
  lemma {:induction false} ReplayStopsAtFirstRefusal(entries: seq<LedgerEntry>, es: seq<LedgerEntry>) returns (k: nat)
    ensures k <= |es| && Replay(entries, es) == Replayed(Before(entries, es, k), k == |es|)
    ensures forall i :: 0 <= i < k ==> Harmless(StatusAt(entries, es, i))
    ensures k < |es| ==> !Harmless(StatusAt(entries, es, k))
    decreases |es|
  {
    hide StatusOf, Appended, AppendAll;
    NothingBefore(entries, es);
    if es == [] || !Harmless(StatusOf(entries, None, es[0])) {
      k := 0;
    } else {
      var next := Appended(entries, None, es[0]);
      var j := ReplayStopsAtFirstRefusal(next, es[1..]);
      k := j + 1;
      BeforeTail(entries, es, j);
      forall i | 0 <= i < k ensures Harmless(StatusAt(entries, es, i)) {
        if i > 0 {
          BeforeTail(entries, es, i - 1);
          assert StatusAt(entries, es, i) == StatusAt(next, es[1..], i - 1);
        }
      }
    }
  }

  lemma NothingBefore(entries: seq<LedgerEntry>, es: seq<LedgerEntry>)
    ensures Before(entries, es, 0) == entries
  {
    assert Unfenced(es[..0]) == [];
  }

  /** It succeeds if and only if every entry, when its turn comes, is new or already there. */
  lemma ReplaySucceedsWhenHarmless(entries: seq<LedgerEntry>, es: seq<LedgerEntry>)
    ensures Replay(entries, es).ok <==> forall i :: 0 <= i < |es| ==> Harmless(StatusAt(entries, es, i))
  {
    hide StatusAt, Replay, Before;
    var k := ReplayStopsAtFirstRefusal(entries, es);
  }

  /******* Replaying again *******/

  lemma PositionInExtension(entries: seq<LedgerEntry>, later: seq<LedgerEntry>, id: Id)
    requires UniqueIds(later) && entries <= later && Position(entries, id).Some?
    ensures Position(later, id) == Position(entries, id)
  {
    var p := Position(entries, id).value;
    assert later[p].id == id;
  }

  /** Once it was new or already there, an entry is a duplicate in every later ledger. */
  lemma HarmlessThenDuplicate(entries: seq<LedgerEntry>, later: seq<LedgerEntry>, e: LedgerEntry)
    requires UniqueIds(later) && Appended(entries, None, e) <= later && Harmless(StatusOf(entries, None, e))
    ensures StatusOf(later, None, e) == Duplicate
  {
    hide SameEntry;
    var mid := Appended(entries, None, e);
    if StatusOf(entries, None, e) == Accepted {
      assert mid[|entries|] == e && later[|entries|] == e;
      SameEntryCanonical(e);
      assert Position(later, e.id) == Some(|entries|);
    } else {
      PositionInExtension(entries, later, e.id);
    }
  }

  lemma {:induction false} AllDuplicates(entries: seq<LedgerEntry>, es: seq<LedgerEntry>)
    requires forall i :: 0 <= i < |es| ==> StatusOf(entries, None, es[i]) == Duplicate
    ensures Replay(entries, es) == Replayed(entries, true)
    decreases |es|
  {
    hide StatusOf;
    if es == [] {
    } else {
      AllDuplicates(entries, es[1..]);
    }
  }

  /** After a replay that succeeds, into any ledger, the same replay succeeds
      again: every entry is a duplicate and nothing changes. */
  lemma ReplayAgain(entries: seq<LedgerEntry>, es: seq<LedgerEntry>)
    requires UniqueIds(entries) && AllValid(entries) && Replay(entries, es).ok
    ensures var done := Replay(entries, es).entries;
            && Replay(done, es) == Replayed(done, true)
            && forall i :: 0 <= i < |es| ==> StatusOf(done, None, es[i]) == Duplicate
  {
    hide StatusOf, Appended, Replay, AllValid, UniqueIds;
    var k := ReplayStopsAtFirstRefusal(entries, es);
    var done := Replay(entries, es).entries;
    forall i | 0 <= i < |es| ensures StatusOf(done, None, es[i]) == Duplicate {
      assert Harmless(StatusAt(entries, es, i));
      BeforeNext(entries, es, i);
      ExtendsTo(entries, es, i + 1);
      HarmlessThenDuplicate(Before(entries, es, i), done, es[i]);
    }
    AllDuplicates(done, es);
  }

  lemma ExtendsTo(entries: seq<LedgerEntry>, es: seq<LedgerEntry>, i: nat)
    requires UniqueIds(entries) && AllValid(entries) && i <= |es|
    ensures Before(entries, es, i) <= Before(entries, es, |es|) && UniqueIds(Before(entries, es, |es|))
  {
    hide Appended, AppendAll, UniqueIds, AllValid;
    var a, b := Unfenced(es[..i]), Unfenced(es[i..]);
    assert es[..|es|] == es && Unfenced(es) == a + b;
    AppendAllSplit(entries, a, b);
    RunsOnlyExtend(entries, a);
    RunsOnlyExtend(AppendAll(entries, a), b);
  }

  lemma {:induction false} FreshStreamReplays(entries: seq<LedgerEntry>, es: seq<LedgerEntry>, rest: seq<LedgerEntry>)
    requires UniqueIds(entries + es) && AllValid(es)
    ensures Replay(entries, es + rest) == Replay(entries + es, rest)
    decreases |es|
  {
    hide ContentIsValid;
    if es == [] {
      assert entries + es == entries && es + rest == rest;
    } else {
      var e := es[0];
      forall i | 0 <= i < |entries| ensures entries[i].id != e.id {
        assert (entries + es)[i].id != (entries + es)[|entries|].id;
      }
      assert (entries + [e]) + es[1..] == entries + es;
      assert (es + rest)[1..] == es[1..] + rest;
      FreshStreamReplays(entries + [e], es[1..], rest);
    }
  }

  /******* Whole ledgers *******/

  /** The ledger and the encoder apply the same content rules, written twice. */
  lemma RulesAgree(e: LedgerEntry)
    ensures ContentIsValid(e) <==> EncoderAccepts(e)
    ensures ContentIsValid(Canonical(e)) <==> ContentIsValid(e)
  {
  }

  /** A ledger built by any run of appends, saved, loaded and replayed into an
      empty unfenced ledger is reproduced entry for entry with the same
      fingerprint, and replaying once more succeeds and changes nothing. */
  lemma LedgerSurvivesReplay(run: seq<Attempted>, ledgerId: Id)
    requires forall e :: e in AppendAll([], run) ==> FitsFrame(e)
    ensures var entries := AppendAll([], run);
            var same := CanonicalAll(entries);
            && AllEncode(entries)
            && Load(Header(ledgerId) + Frames(entries)) == Loaded(ledgerId, same, Fingerprint(entries))
            && Replay([], same) == Replayed(same, true) && Fingerprint(same) == Fingerprint(entries)
            && Replay(same, same) == Replayed(same, true)
  {
    hide Frames, Fingerprint, FitsFrame, ContentIsValid, Canonical, EncodeEntry, EncoderAccepts, Load, Replay;
    var entries := AppendAll([], run);
    RunsOnlyExtend([], run);
    forall e | e in entries ensures Encodable(e) && EncodeEntry(e).Some? {
      var i :| 0 <= i < |entries| && entries[i] == e;
      RulesAgree(e);
      ValidEncodes(e);
    }
    SavedFileLoads(entries, ledgerId);
    var same := CanonicalAll(entries);
    CanonicalKeepsIds(entries);
    forall i | 0 <= i < |same| ensures ContentIsValid(same[i]) { RulesAgree(entries[i]); }
    assert [] + same == same && same + [] == same;
    FreshStreamReplays([], same, []);
    NothingToReplay(same);
    FingerprintCanonical(entries);
    ReplayAgain([], same);
  }

  lemma NothingToReplay(entries: seq<LedgerEntry>)
    ensures Replay(entries, []) == Replayed(entries, true)
  {
  }

  lemma ValidEncodes(e: LedgerEntry)
    requires EncoderAccepts(e) && FitsFrame(e)
    ensures Encodable(e) && EncodeEntry(e).Some?
  {
    hide Payload;
  }

  lemma CanonicalKeepsIds(es: seq<LedgerEntry>)
    requires UniqueIds(es)
    ensures UniqueIds(CanonicalAll(es))
  {
    forall i, j | 0 <= i < j < |es| ensures CanonicalAll(es)[i].id != CanonicalAll(es)[j].id {
      assert CanonicalAll(es)[i].id == es[i].id && CanonicalAll(es)[j].id == es[j].id;
    }
  }

  /******* A file that loads but does not replay *******/

  lemma ScanPastFraction(before: seq<LedgerEntry>, e: LedgerEntry, after: seq<LedgerEntry>)
    requires AllEncodable(before) && AllEncodable(after) && UniqueIds(before + [e] + after)
    requires FitsFrame(e) && IsFractionalCount(e)
    ensures ScanFrames(Frames(before) + (Framed(Payload(e)) + Frames(after)), [])
         == Complete(CanonicalAll(before + [e] + after))
  {
    hide Encodable, Payload, Framed, Frames, ScanFrames, Canonical, IsFractionalCount, DecodeEntry, UniqueIds;
    hide AllEncodable, HasId;
    var frame, tail := Framed(Payload(e)), Frames(after);
    var known := CanonicalAll(before);
    SplitIds(before, e, after);
    assert [] + before == before && [] + known == known;
    ScanAll(before, frame + tail, []);
    FractionalCountDecodes(e, tail);
    ScanFrame(frame, Canonical(e), tail, known);
    assert tail + [] == tail;
    ScanAll(after, [], known + [Canonical(e)]);
    ScanEnd(known + [Canonical(e)] + CanonicalAll(after));
    assert CanonicalAll(before + [e] + after) == known + [Canonical(e)] + CanonicalAll(after);
  }

  /** A fractional Count in a well-formed frame loads with the rest of the file, but
      the replay stops there: what precedes it is stored, nothing else. */
  lemma FractionalCountStopsReplay(before: seq<LedgerEntry>, e: LedgerEntry, after: seq<LedgerEntry>, ledgerId: Id)
    requires AllEncodable(before) && AllEncodable(after) && UniqueIds(before + [e] + after)
    requires FitsFrame(e) && IsFractionalCount(e)
    ensures var res := Load(Header(ledgerId) + (Frames(before) + (Framed(Payload(e)) + Frames(after))));
            && res.Loaded? && res.ledgerId == ledgerId
            && res.entries == CanonicalAll(before + [e] + after)
            && Replay([], res.entries) == Replayed(CanonicalAll(before), false)
  {
    hide Encodable, Payload, Framed, Frames, Load, Header, ScanFrames, Replay, Fingerprint, UniqueIds;
    hide IsFractionalCount, CanonicalAll;
    ScanPastFraction(before, e, after);
    LoadAfterHeader(ledgerId, Frames(before) + (Framed(Payload(e)) + Frames(after)));
    FractionRefused(before, e, after);
  }

  lemma SplitIds(before: seq<LedgerEntry>, e: LedgerEntry, after: seq<LedgerEntry>)
    requires UniqueIds(before + [e] + after)
    ensures UniqueIds(before) && UniqueIds(CanonicalAll(before)) && !HasId(CanonicalAll(before), Canonical(e).id)
    ensures UniqueIds(CanonicalAll(before) + [Canonical(e)] + after)
  {
    var all := before + [e] + after;
    var known := CanonicalAll(before);
    forall i, j | 0 <= i < j < |before| ensures before[i].id != before[j].id {
      assert all[i] == before[i] && all[j] == before[j];
    }
    CanonicalKeepsIds(before);
    forall i | 0 <= i < |known| ensures known[i].id != e.id {
      assert all[i] == before[i] && all[|before|] == e;
    }
    var mixed := known + [Canonical(e)] + after;
    forall i, j | 0 <= i < j < |mixed| ensures mixed[i].id != mixed[j].id {
      assert mixed[i].id == all[i].id && mixed[j].id == all[j].id;
    }
  }

  lemma FractionRefused(before: seq<LedgerEntry>, e: LedgerEntry, after: seq<LedgerEntry>)
    requires AllEncodable(before) && UniqueIds(before + [e] + after) && IsFractionalCount(e)
    ensures Replay([], CanonicalAll(before + [e] + after)) == Replayed(CanonicalAll(before), false)
  {
    hide FitsFrame, Canonical, ContentIsValid, Replay, IsFractionalCount;
    var known, rest := CanonicalAll(before), [Canonical(e)] + CanonicalAll(after);
    SplitIds(before, e, after);
    forall i | 0 <= i < |known| ensures ContentIsValid(known[i]) {
      assert before[i] in before;
      RulesAgree(before[i]);
    }
    assert CanonicalAll(before + [e] + after) == known + rest && [] + known == known;
    FreshStreamReplays([], known, rest);
    FractionIsInvalid(known, e, CanonicalAll(after));
  }

  lemma FractionIsInvalid(entries: seq<LedgerEntry>, e: LedgerEntry, after: seq<LedgerEntry>)
    requires IsFractionalCount(e)
    ensures Replay(entries, [Canonical(e)] + after) == Replayed(entries, false)
  {
    assert ([Canonical(e)] + after)[0] == Canonical(e);
    assert StatusOf(entries, None, Canonical(e)) == Invalid;
  }
}
