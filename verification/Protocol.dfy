/** Framed messages over a byte stream that arrives in arbitrary pieces. */
module Protocol {
  import opened Base
  import opened Entry
  import opened Wire
  import opened Crc
  import opened Codec
  import CodecDriver

  /** A message with the fields its type makes active. An append status travels
      as one unchecked byte. */
  datatype Message =
    | Register(worker: Id, boot: Id)
    | RegisterAck(ok: bool, epoch: U64, accountingGeneration: U64, reason: Bytes)
    | EventSubmit(entry: LedgerEntry)
    | EventAck(status: Byte, reason: Bytes)
    | Roll(epoch: U64, accountingGeneration: U64)
    | Shutdown
    | Ping

  const MAX_CONTENT: nat := 0x100_0000

  /** An entry frame nested in a message, behind its own length. */
  function PutNested(frame: Bytes): Bytes {
    PutU32(|frame| % 0x1_0000_0000) + frame
  }

  /** Type byte and payload; `None` when the nested entry does not encode. */
  function Content(m: Message): Option<Bytes> {
    match m
    case Register(worker, boot) => Some([1] + (PutId(worker) + PutId(boot)))
    case RegisterAck(ok, epoch, generation, reason) =>
      Some([2] + (PutBool(ok) + (PutU64(epoch) + (PutU64(generation) + PutString(reason)))))
    case EventSubmit(entry) =>
      (match EncodeEntry(entry)
       case None => None
       case Some(frame) => Some([3] + PutNested(frame)))
    case EventAck(status, reason) => Some([4] + ([status] + PutString(reason)))
    case Roll(epoch, generation) => Some([5] + (PutU64(epoch) + PutU64(generation)))
    case Shutdown => Some([6])
    case Ping => Some([7])
  }

  function EncodeMessage(m: Message): Option<Bytes> {
    match Content(m)
    case None => None
    case Some(content) => Some(Framed(content))
  }

  /******* Decoding *******/

  function DecodeRegister(s: Bytes): Option<Message> {
    match GetId(s)
    case Failed => None
    case Got(worker, s) =>
      match GetId(s)
      case Failed => None
      case Got(boot, s) => if s != [] then None else Some(Register(worker, boot))
  }

  function GetRegisterAck(s: Bytes): Parsed<Message> {
    var (ok, s) :- GetBool(s);
    var (epoch, s) :- GetU64(s);
    var (generation, s) :- GetU64(s);
    var (reason, s) :- GetString(s);
    Got(RegisterAck(ok, epoch, generation, reason), s)
  }

  function GetEventAck(s: Bytes): Parsed<Message> {
    var (status, s) :- GetU8(s);
    var (reason, s) :- GetString(s);
    Got(EventAck(status, reason), s)
  }

  function GetRoll(s: Bytes): Parsed<Message> {
    var (epoch, s) :- GetU64(s);
    var (generation, s) :- GetU64(s);
    Got(Roll(epoch, generation), s)
  }

  /** A complete parse has nothing left over. */
  function Whole(p: Parsed<Message>): Option<Message> {
    if p.Got? && p.rest == [] then Some(p.value) else None
  }

  function DecodeEvent(s: Bytes): Option<Message> {
    match GetU32(s)
    case Failed => None
    case Got(n, frame) =>
      if |frame| != n then None else
      match DecodeEntry(frame)
      case None => None
      case Some((e, consumed)) => if consumed == n then Some(EventSubmit(e)) else None
  }

  /** An unknown type byte reads as a Ping. */
  function DecodeMessage(content: Bytes): Option<Message> {
    if content == [] then None else
    var s := content[1..];
    match content[0]
    case 1 => DecodeRegister(s)
    case 2 => Whole(GetRegisterAck(s))
    case 3 => DecodeEvent(s)
    case 4 => Whole(GetEventAck(s))
    case 5 => Whole(GetRoll(s))
    case 6 => if s == [] then Some(Shutdown) else None
    case _ => if s == [] then Some(Ping) else None
  }

  /** One message off the front of the bytes still to come, and what follows it. */
  function Receive(stream: Bytes): Option<(Message, Bytes)> {
    if |stream| < 8 then None else
    var len := U32Of(stream[0], stream[1], stream[2], stream[3]);
    var crc := U32Of(stream[4], stream[5], stream[6], stream[7]);
    if len == 0 || len > MAX_CONTENT || |stream| < 8 + len then None else
    var content := stream[8..8 + len];
    if Crc32(content) != crc then None else
    match DecodeMessage(content)
    case None => None
    case Some(m) => Some((m, stream[8 + len..]))
  }

  function ReceiveMany(n: nat, stream: Bytes): Option<(seq<Message>, Bytes)>
    decreases n
  {
    if n == 0 then Some(([], stream)) else
    match Receive(stream)
    case None => None
    case Some((m, rest)) =>
      match ReceiveMany(n - 1, rest)
      case None => None
      case Some((ms, end)) => Some(([m] + ms, end))
  }

  /******* Round trip of one message *******/

  function CanonicalMessage(m: Message): Message {
    if m.EventSubmit? then EventSubmit(Canonical(m.entry)) else m
  }

  /** The message fits the receiver's 16 MiB limit and no length in it wraps. */
  ghost predicate Sendable(m: Message) {
    LengthsFit(m) && match Content(m) case None => false case Some(content) => |content| <= MAX_CONTENT
  }

  ghost predicate LengthsFit(m: Message) {
    match m
    case EventSubmit(entry) => Encodable(entry)
    case RegisterAck(_, _, _, reason) => |reason| <= 0xFFFF_FFFF
    case EventAck(_, reason) => |reason| <= 0xFFFF_FFFF
    case _ => true
  }

  lemma RegisterRoundTrip(worker: Id, boot: Id)
    ensures DecodeRegister(PutId(worker) + PutId(boot)) == Some(Register(worker, boot))
  {
    hide PutId, GetId;
    GetPutId(worker, PutId(boot));
    GetPutId(boot, []);
    assert PutId(boot) + [] == PutId(boot);
  }

  lemma RegisterAckRoundTrip(ok: bool, epoch: U64, generation: U64, reason: Bytes)
    requires |reason| <= 0xFFFF_FFFF
    ensures Whole(GetRegisterAck(PutBool(ok) + (PutU64(epoch) + (PutU64(generation) + PutString(reason)))))
         == Some(RegisterAck(ok, epoch, generation, reason))
  {
    hide PutBool, GetBool, PutU64, GetU64, PutString, GetString;
    var s3 := PutString(reason);
    var s2 := PutU64(generation) + s3;
    var s1 := PutU64(epoch) + s2;
    GetPutBool(ok, s1);
    GetPutU64(epoch, s2);
    GetPutU64(generation, s3);
    GetPutString(reason, []);
    assert s3 + [] == s3;
  }

  lemma EventAckRoundTrip(status: Byte, reason: Bytes)
    requires |reason| <= 0xFFFF_FFFF
    ensures Whole(GetEventAck([status] + PutString(reason))) == Some(EventAck(status, reason))
  {
    hide PutString, GetString;
    var s1 := PutString(reason);
    GetPutU8(status, s1);
    GetPutString(reason, []);
    assert s1 + [] == s1;
  }

  lemma RollRoundTrip(epoch: U64, generation: U64)
    ensures Whole(GetRoll(PutU64(epoch) + PutU64(generation))) == Some(Roll(epoch, generation))
  {
    hide PutU64, GetU64;
    GetPutU64(epoch, PutU64(generation));
    GetPutU64(generation, []);
    assert PutU64(generation) + [] == PutU64(generation);
  }

  lemma EventRoundTrip(e: LedgerEntry, frame: Bytes)
    requires Encodable(e) && EncodeEntry(e) == Some(frame) && |frame| < 0x1_0000_0000
    ensures DecodeEvent(PutU32(|frame|) + frame) == Some(EventSubmit(Canonical(e)))
  {
    hide EncodeEntry, DecodeEntry, PutU32, GetU32, Encodable, Canonical;
    GetPutU32(|frame|, frame);
    EntryRoundTrip(e, []);
    assert frame + [] == frame;
  }

  lemma MessageRoundTrip(m: Message)
    requires Sendable(m)
    ensures DecodeMessage(Content(m).value) == Some(CanonicalMessage(m))
  {
    hide EncodeEntry, Encodable, PutId, PutU64, PutU32, PutString, PutBool;
    hide DecodeRegister, GetRegisterAck, DecodeEvent, GetEventAck, GetRoll, Whole, Canonical;
    match m
    case Register(worker, boot) =>
      RegisterRoundTrip(worker, boot);
    case RegisterAck(ok, epoch, generation, reason) =>
      RegisterAckRoundTrip(ok, epoch, generation, reason);
    case EventSubmit(entry) =>
      EventRoundTrip(entry, EncodeEntry(entry).value);
    case EventAck(status, reason) =>
      EventAckRoundTrip(status, reason);
    case Roll(epoch, generation) =>
      RollRoundTrip(epoch, generation);
    case Shutdown =>
    case Ping =>
  }

  lemma ContentNonEmpty(m: Message)
    requires Content(m).Some?
    ensures |Content(m).value| >= 1
  {
    hide EncodeEntry, PutId, PutU64, PutU32, PutString, PutBool;
  }

  lemma FrameReceived(content: Bytes, m: Message, rest: Bytes)
    requires 1 <= |content| <= MAX_CONTENT && DecodeMessage(content) == Some(m)
    ensures Receive(Framed(content) + rest) == Some((m, rest))
  {
    hide DecodeMessage, Crc32, U32Of, PutU32;
    var stream := Framed(content) + rest;
    var len, crc := PutU32(|content|), PutU32(Crc32(content));
    assert stream[..4] == len && stream[4..8] == crc && stream[8..8 + |content|] == content;
    assert stream[0] == len[0] && stream[1] == len[1] && stream[2] == len[2] && stream[3] == len[3];
    assert stream[4] == crc[0] && stream[5] == crc[1] && stream[6] == crc[2] && stream[7] == crc[3];
    assert stream[8 + |content|..] == rest;
    U32RoundTrip(|content|);
    U32RoundTrip(Crc32(content));
  }

  /******* A whole conversation *******/

  ghost predicate AllSendable(ms: seq<Message>) {
    forall m :: m in ms ==> Sendable(m)
  }

  /** The bytes that sending `ms` one after another puts on the wire. */
  function Sent(ms: seq<Message>): Bytes {
    if ms == [] then [] else
    (match EncodeMessage(ms[0]) case None => [] case Some(frame) => frame) + Sent(ms[1..])
  }

  function CanonicalMessages(ms: seq<Message>): (r: seq<Message>)
    ensures |r| == |ms| && forall i :: 0 <= i < |ms| ==> r[i] == CanonicalMessage(ms[i])
  {
    seq(|ms|, i requires 0 <= i < |ms| => CanonicalMessage(ms[i]))
  }

  /** What is sent is what is received: the same messages, in order, and the
      stream is left exactly behind them. */
  lemma {:induction false} ConversationRoundTrip(ms: seq<Message>, rest: Bytes)
    requires AllSendable(ms)
    ensures ReceiveMany(|ms|, Sent(ms) + rest) == Some((CanonicalMessages(ms), rest))
    decreases |ms|
  {
    hide Sendable, Content, DecodeMessage, Receive, CanonicalMessage, Framed;
    if ms == [] {
      assert Sent(ms) + rest == rest;
    } else {
      var m, tail := ms[0], Sent(ms[1..]) + rest;
      OneReceived(m, tail);
      assert Sent(ms) + rest == Framed(Content(m).value) + tail;
      ConversationRoundTrip(ms[1..], rest);
      assert CanonicalMessages(ms) == [CanonicalMessage(m)] + CanonicalMessages(ms[1..]);
    }
  }

  lemma OneReceived(m: Message, rest: Bytes)
    requires Sendable(m)
    ensures Content(m).Some? && Receive(Framed(Content(m).value) + rest) == Some((CanonicalMessage(m), rest))
  {
    hide Content, DecodeMessage, Receive, CanonicalMessage, Framed;
    MessageRoundTrip(m);
    ContentNonEmpty(m);
    FrameReceived(Content(m).value, CanonicalMessage(m), rest);
  }

  /******* Encoding and decoding as they run *******/

  function TypeByte(m: Message): Byte {
    match m
    case Register(_, _) => 1
    case RegisterAck(_, _, _, _) => 2
    case EventSubmit(_) => 3
    case EventAck(_, _) => 4
    case Roll(_, _) => 5
    case Shutdown => 6
    case Ping => 7
  }

  /** The field writes of `encode_message`; false when the nested entry does not encode. */
  method WriteBody(w: ByteWriter, m: Message) returns (ok: bool)
    requires w.buf == []
    modifies w
    ensures ok == Content(m).Some?
    ensures ok ==> [TypeByte(m)] + w.buf == Content(m).value
  {
    hide EncodeEntry, PutId, PutU64, PutU32, PutString, PutBool;
    ok := true;
    match m {
      case Register(worker, boot) =>
        w.Ident(worker, PutId(boot));
        w.Ident(boot);
      case RegisterAck(good, epoch, generation, reason) =>
        w.Bool8(good, PutU64(epoch) + (PutU64(generation) + PutString(reason)));
        w.U64(epoch, PutU64(generation) + PutString(reason));
        w.U64(generation, PutString(reason));
        w.Str(reason);
      case EventSubmit(entry) =>
        var frame := CodecDriver.Encode(entry);
        if frame.None? { return false; }
        w.U32(|frame.value| % 0x1_0000_0000, frame.value);
        w.Raw(frame.value);
      case EventAck(status, reason) =>
        w.U8(status, PutString(reason));
        w.Str(reason);
      case Roll(epoch, generation) =>
        w.U64(epoch, PutU64(generation));
        w.U64(generation);
      case Shutdown =>
      case Ping =>
    }
  }

  method WriteMessage(m: Message) returns (out: Option<Bytes>)
    ensures out == EncodeMessage(m)
  {
    hide Content, Framed;
    var w := new ByteWriter();
    var ok := WriteBody(w, m);
    if !ok { return None; }
    var frame := CodecDriver.FrameContent([TypeByte(m)] + w.buf);
    out := Some(frame);
  }

  method ReadRegister(r: ByteReader) returns (out: Option<Message>)
    requires r.Valid()
    modifies r
    ensures out == DecodeRegister(old(r.Rest()))
  {
    hide GetId;
    var worker := r.Ident();
    if worker.None? { return None; }
    var boot := r.Ident();
    if boot.None? { return None; }
    out := if r.Remaining() == 0 then Some(Register(worker.value, boot.value)) else None;
  }

  method ReadRegisterAck(r: ByteReader) returns (out: Option<Message>)
    requires r.Valid()
    modifies r
    ensures out == Whole(GetRegisterAck(old(r.Rest())))
  {
    hide GetBool, GetU64, GetString;
    var ok := r.Bool8();
    if ok.None? { return None; }
    var epoch := r.U64();
    if epoch.None? { return None; }
    var generation := r.U64();
    if generation.None? { return None; }
    var reason := r.Str();
    if reason.None? { return None; }
    var ack := RegisterAck(ok.value, epoch.value, generation.value, reason.value);
    out := if r.Remaining() == 0 then Some(ack) else None;
  }

  /** The entry frame is decoded where it lies, behind the type byte and its length. */
  method ReadEvent(r: ByteReader) returns (out: Option<Message>)
    requires r.Valid()
    modifies r
    ensures out == DecodeEvent(old(r.Rest()))
  {
    hide GetU32, DecodeEntry;
    var n := r.U32();
    if n.None? { return None; }
    if r.Remaining() != n.value { return None; }
    var e := CodecDriver.Decode(r.data[r.pos..]);
    if e.None? { return None; }
    out := if e.value.1 == n.value then Some(EventSubmit(e.value.0)) else None;
  }

  method ReadEventAck(r: ByteReader) returns (out: Option<Message>)
    requires r.Valid()
    modifies r
    ensures out == Whole(GetEventAck(old(r.Rest())))
  {
    hide GetU8, GetString;
    var status := r.U8();
    if status.None? { return None; }
    var reason := r.Str();
    if reason.None? { return None; }
    out := if r.Remaining() == 0 then Some(EventAck(status.value, reason.value)) else None;
  }

  method ReadRoll(r: ByteReader) returns (out: Option<Message>)
    requires r.Valid()
    modifies r
    ensures out == Whole(GetRoll(old(r.Rest())))
  {
    hide GetU64;
    var epoch := r.U64();
    if epoch.None? { return None; }
    var generation := r.U64();
    if generation.None? { return None; }
    out := if r.Remaining() == 0 then Some(Roll(epoch.value, generation.value)) else None;
  }

  method ReadMessage(content: Bytes) returns (out: Option<Message>)
    ensures out == DecodeMessage(content)
  {
    hide DecodeRegister, GetRegisterAck, DecodeEvent, GetEventAck, GetRoll, Whole;
    if |content| < 1 { return None; }
    var r := new ByteReader(content[1..]);
    match content[0] {
      case 1 => out := ReadRegister(r);
      case 2 => out := ReadRegisterAck(r);
      case 3 => out := ReadEvent(r);
      case 4 => out := ReadEventAck(r);
      case 5 => out := ReadRoll(r);
      case 6 => out := if r.Remaining() == 0 then Some(Shutdown) else None;
      case _ => out := if r.Remaining() == 0 then Some(Ping) else None;
    }
  }

  /******* The socket delivers the stream in pieces *******/

  function Flat(pieces: seq<Bytes>): Bytes {
    if pieces == [] then [] else pieces[0] + Flat(pieces[1..])
  }

  class FramedSocket {
    /** Bytes in flight, in the positive-size pieces in which they will arrive;
        the peer closes after the last one. */
    var pieces: seq<Bytes>

    ghost predicate Valid()
      reads this
    {
      forall i :: 0 <= i < |pieces| ==> pieces[i] != []
    }

    /** `recv`: at most `n` bytes of what has arrived; none only at the end. */
    method Recv(n: nat) returns (got: Bytes)
      requires Valid() && n > 0
      modifies this
      ensures Valid() && |got| <= n
      ensures got + Flat(pieces) == old(Flat(pieces))
      ensures got == [] ==> old(Flat(pieces)) == []
    {
      if pieces == [] { return []; }
      var p := pieces[0];
      if |p| <= n {
        got := p;
        pieces := pieces[1..];
      } else {
        got := p[..n];
        assert p == p[..n] + p[n..];
        pieces := [p[n..]] + pieces[1..];
      }
    }

    method ReadAll(n: nat) returns (out: Option<Bytes>)
      requires Valid()
      modifies this
      ensures Valid()
      ensures var all := old(Flat(pieces));
              if |all| < n then out.None?
              else out == Some(all[..n]) && Flat(pieces) == all[n..]
    {
      var got: Bytes := [];
      ghost var all := Flat(pieces);
      while |got| < n
        invariant Valid() && |got| <= n
        invariant got + Flat(pieces) == all
        decreases n - |got|
      {
        var r := Recv(n - |got|);
        if r == [] { return None; }
        assert (got + r) + Flat(pieces) == got + (r + Flat(pieces));
        got := got + r;
      }
      out := Some(got);
    }

    method RecvMessage() returns (out: Option<Message>)
      requires Valid()
      modifies this
      ensures Valid()
      ensures match Receive(old(Flat(pieces)))
              case None => out.None?
              case Some((m, rest)) => out == Some(m) && Flat(pieces) == rest
    {
      hide DecodeMessage, Flat;
      ghost var all := Flat(pieces);
      var hdr := ReadAll(8);
      if hdr.None? { return None; }
      var h := hdr.value;
      assert h == all[..8];
      var len: nat := U32Of(h[0], h[1], h[2], h[3]);
      var want := U32Of(h[4], h[5], h[6], h[7]);
      if len == 0 { return None; }
      if len > MAX_CONTENT { return None; }
      var content := ReadAll(len);
      if content.None? { return None; }
      assert all[8..][..len] == all[8..8 + len] && all[8..][len..] == all[8 + len..];
      var got := ComputeCrc32(content.value);
      if got != want { return None; }
      out := ReadMessage(content.value);
    }

    /** Receive `n` messages in a row. */
    method RecvMany(n: nat) returns (out: Option<seq<Message>>)
      requires Valid()
      modifies this
      ensures Valid()
      ensures match ReceiveMany(n, old(Flat(pieces)))
              case None => out.None?
              case Some((ms, rest)) => out == Some(ms) && Flat(pieces) == rest
    {
      hide Receive, Flat;
      if n == 0 { return Some([]); }
      var first := RecvMessage();
      if first.None? { return None; }
      var others := RecvMany(n - 1);
      if others.None? { return None; }
      out := Some([first.value] + others.value);
    }

    /** However the sent bytes are cut into pieces, the receiver gets exactly the messages. */
    method Deliver(ghost ms: seq<Message>, n: nat) returns (out: Option<seq<Message>>)
      requires Valid() && AllSendable(ms) && n == |ms| && Flat(pieces) == Sent(ms)
      modifies this
      ensures out == Some(CanonicalMessages(ms)) && Flat(pieces) == []
    {
      hide Sendable, Sent, Flat, ReceiveMany, CanonicalMessages;
      ConversationRoundTrip(ms, []);
      assert Sent(ms) + [] == Sent(ms);
      out := RecvMany(n);
    }
  }
}
