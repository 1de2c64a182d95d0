/** Big-endian primitives: the byte strings they print, the readers that take
    them back, and the writer and cursor objects that do it in place. */
module Wire {
  import opened Base
  import opened Entry

  /******* Printing *******/

  function PutU32(v: U32): (s: Bytes)
    ensures |s| == 4
  {
    [v / 0x100_0000, v / 0x1_0000 % 0x100, v / 0x100 % 0x100, v % 0x100]
  }

  function PutU64(v: U64): (s: Bytes)
    ensures |s| == 8
  {
    PutU32(v / 0x1_0000_0000) + PutU32(v % 0x1_0000_0000)
  }

  function PutBool(b: bool): (s: Bytes)
    ensures |s| == 1
  {
    [if b then 1 else 0]
  }

  function PutId(x: Id): (s: Bytes)
    ensures |s| == 16
  {
    PutU64(x.hi) + PutU64(x.lo)
  }

  /** An over-long string is silently skipped, as the writer does. */
  function PutString(t: Bytes): Bytes {
    if |t| > 0xFFFF_FFFF then [] else PutU32(|t|) + t
  }

  /******* Reading: a value and the bytes after it, or failure *******/

  datatype Parsed<+T> = Failed | Got(value: T, rest: Bytes) {
    predicate IsFailure() { Failed? }
    function PropagateFailure<U>(): Parsed<U> requires Failed? { Failed }
    function Extract(): (T, Bytes) requires Got? { (value, rest) }
  }

  function U32Of(a: Byte, b: Byte, c: Byte, d: Byte): U32 {
    a * 0x100_0000 + b * 0x1_0000 + c * 0x100 + d
  }

  function GetU8(s: Bytes): Parsed<Byte> {
    if |s| < 1 then Failed else Got(s[0], s[1..])
  }

  function GetU32(s: Bytes): Parsed<U32> {
    if |s| < 4 then Failed else Got(U32Of(s[0], s[1], s[2], s[3]), s[4..])
  }

  function GetU64(s: Bytes): Parsed<U64> {
    var (hi, s) :- GetU32(s);
    var (lo, s) :- GetU32(s);
    Got(hi * 0x1_0000_0000 + lo, s)
  }

  /** Any non-zero byte reads as true. */
  function GetBool(s: Bytes): Parsed<bool> {
    var (b, s) :- GetU8(s);
    Got(b != 0, s)
  }

  function GetId(s: Bytes): Parsed<Id> {
    var (hi, s) :- GetU64(s);
    var (lo, s) :- GetU64(s);
    Got(Id(hi, lo), s)
  }

  function GetString(s: Bytes): Parsed<Bytes> {
    var (n, s) :- GetU32(s);
    if |s| < n then Failed else Got(s[..n], s[n..])
  }

  /******* Each reader takes back exactly what was printed *******/

  lemma U32RoundTrip(v: U32)
    ensures U32Of(PutU32(v)[0], PutU32(v)[1], PutU32(v)[2], PutU32(v)[3]) == v
  {
    assert v / 0x100 == (v / 0x1_0000) * 0x100 + v / 0x100 % 0x100;
    assert v / 0x1_0000 == (v / 0x100_0000) * 0x100 + v / 0x1_0000 % 0x100;
  }

  lemma GetPutU32(v: U32, rest: Bytes)
    ensures GetU32(PutU32(v) + rest) == Got(v, rest)
  {
    U32RoundTrip(v);
  }

  lemma GetPutU64(v: U64, rest: Bytes)
    ensures GetU64(PutU64(v) + rest) == Got(v, rest)
  {
    var hi, lo := v / 0x1_0000_0000, v % 0x1_0000_0000;
    assert PutU64(v) + rest == PutU32(hi) + (PutU32(lo) + rest);
    GetPutU32(hi, PutU32(lo) + rest);
    GetPutU32(lo, rest);
  }

  lemma GetPutBool(b: bool, rest: Bytes)
    ensures GetBool(PutBool(b) + rest) == Got(b, rest)
  {
  }

  lemma GetPutId(x: Id, rest: Bytes)
    ensures GetId(PutId(x) + rest) == Got(x, rest)
  {
    assert PutId(x) + rest == PutU64(x.hi) + (PutU64(x.lo) + rest);
    GetPutU64(x.hi, PutU64(x.lo) + rest);
    GetPutU64(x.lo, rest);
  }

  lemma GetPutString(t: Bytes, rest: Bytes)
    requires |t| <= 0xFFFF_FFFF
    ensures GetString(PutString(t) + rest) == Got(t, rest)
  {
    assert PutString(t) + rest == PutU32(|t|) + (t + rest);
    GetPutU32(|t|, t + rest);
  }

  /******* The writer grows a buffer *******/

  /** Each method may be told, as ghost text, what the caller is going to write
      afterwards, and then says how buffer and remaining text compose. */
  class ByteWriter {
    var buf: Bytes

    constructor ()
      ensures buf == []
    {
      buf := [];
    }

    method U8(v: Byte, ghost ahead: Bytes := [])
      modifies this
      ensures buf == old(buf) + [v] && buf + ahead == old(buf) + ([v] + ahead)
    {
      buf := buf + [v];
    }

    method U32(v: U32, ghost ahead: Bytes := [])
      modifies this
      ensures buf == old(buf) + PutU32(v) && buf + ahead == old(buf) + (PutU32(v) + ahead)
    {
      U8(v / 0x100_0000);
      U8(v / 0x1_0000 % 0x100);
      U8(v / 0x100 % 0x100);
      U8(v % 0x100);
      assert buf == old(buf) + PutU32(v);
    }

    method U64(v: U64, ghost ahead: Bytes := [])
      modifies this
      ensures buf == old(buf) + PutU64(v) && buf + ahead == old(buf) + (PutU64(v) + ahead)
    {
      U32(v / 0x1_0000_0000);
      U32(v % 0x1_0000_0000);
      assert buf == old(buf) + PutU64(v);
    }

    method Raw(p: Bytes, ghost ahead: Bytes := [])
      modifies this
      ensures buf == old(buf) + p && buf + ahead == old(buf) + (p + ahead)
    {
      buf := buf + p;
    }

    method Bool8(b: bool, ghost ahead: Bytes := [])
      modifies this
      ensures buf == old(buf) + PutBool(b) && buf + ahead == old(buf) + (PutBool(b) + ahead)
    {
      U8(if b then 1 else 0);
    }

    method Ident(x: Id, ghost ahead: Bytes := [])
      modifies this
      ensures buf == old(buf) + PutId(x) && buf + ahead == old(buf) + (PutId(x) + ahead)
    {
      U64(x.hi);
      U64(x.lo);
      assert buf == old(buf) + PutId(x);
    }

    method Str(t: Bytes, ghost ahead: Bytes := [])
      modifies this
      ensures buf == old(buf) + PutString(t) && buf + ahead == old(buf) + (PutString(t) + ahead)
    {
      if |t| > 0xFFFF_FFFF { return; }
      U32(|t|);
      Raw(t);
      assert buf == old(buf) + PutString(t);
    }
  }

  /******* The reader moves a cursor *******/

  /** What a read reports and where it leaves the cursor, against the pure reader. */
  ghost predicate Reads<T>(out: Option<T>, after: Bytes, spec: Parsed<T>) {
    match spec
    case Failed => out.None?
    case Got(v, rest) => out == Some(v) && after == rest
  }

  class ByteReader {
    const data: Bytes
    var pos: nat
    var ok: bool

    ghost predicate Valid() reads this { pos <= |data| }

    ghost function Rest(): Bytes
      requires Valid()
      reads this
    {
      data[pos..]
    }

    constructor (data: Bytes)
      ensures Valid() && ok && this.data == data && Rest() == data
    {
      this.data := data;
      pos := 0;
      ok := true;
    }

    function Remaining(): (n: nat)
      requires Valid()
      reads this
      ensures n == |Rest()|
    {
      |data| - pos
    }

    method U8() returns (out: Option<Byte>)
      requires Valid()
      modifies this
      ensures Valid() && Reads(out, Rest(), GetU8(old(Rest())))
      ensures ok == (old(ok) && out.Some?)
    {
      if Remaining() < 1 {
        ok := false;
        return None;
      }
      out := Some(data[pos]);
      pos := pos + 1;
    }

    method U32() returns (out: Option<U32>)
      requires Valid()
      modifies this
      ensures Valid() && Reads(out, Rest(), GetU32(old(Rest())))
      ensures ok == (old(ok) && out.Some?)
    {
      var a := U8();
      if a.None? { return None; }
      var b := U8();
      if b.None? { return None; }
      var c := U8();
      if c.None? { return None; }
      var d := U8();
      if d.None? { return None; }
      out := Some(U32Of(a.value, b.value, c.value, d.value));
    }

    method U64() returns (out: Option<U64>)
      requires Valid()
      modifies this
      ensures Valid() && Reads(out, Rest(), GetU64(old(Rest())))
      ensures ok == (old(ok) && out.Some?)
    {
      var hi := U32();
      if hi.None? { return None; }
      var lo := U32();
      if lo.None? { return None; }
      var high: int, low: int := hi.value, lo.value;
      out := Some(high * 0x1_0000_0000 + low);
    }

    method Bool8() returns (out: Option<bool>)
      requires Valid()
      modifies this
      ensures Valid() && Reads(out, Rest(), GetBool(old(Rest())))
      ensures ok == (old(ok) && out.Some?)
    {
      var v := U8();
      out := if v.None? then None else Some(v.value != 0);
    }

    method Ident() returns (out: Option<Id>)
      requires Valid()
      modifies this
      ensures Valid() && Reads(out, Rest(), GetId(old(Rest())))
      ensures ok == (old(ok) && out.Some?)
    {
      var hi := U64();
      if hi.None? { return None; }
      var lo := U64();
      if lo.None? { return None; }
      out := Some(Id(hi.value, lo.value));
    }

    method Str() returns (out: Option<Bytes>)
      requires Valid()
      modifies this
      ensures Valid() && Reads(out, Rest(), GetString(old(Rest())))
      ensures ok == (old(ok) && out.Some?)
    {
      var n := U32();
      if n.None? { return None; }
      if Remaining() < n.value {
        ok := false;
        return None;
      }
      assert data[pos..][..n.value] == data[pos..pos + n.value];
      out := Some(data[pos..pos + n.value]);
      pos := pos + n.value;
    }
  }
}
