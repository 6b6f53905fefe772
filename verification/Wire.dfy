// mqtt/reader.go and mqtt/writer.go: the primitive encodings of MQTT 3.1.1 (chapters 1.5 and 2.2.3).
module Wire {
  import opened Basics

  datatype Error =
    | EOF
    | UnexpectedEOF
    | MalformedVarInt
    | MalformedPacket
    | MalformedHeader
    | MalformedQoS
    | BadProtocolName
    | UnacceptableProtocolVersion
    | UnknownPacketType

  /** What a read yields and what it leaves unread. */
  datatype Read<+T> = Got(value: T, rest: bytes) | Fail(error: Error, rest: bytes) {
    predicate IsFailure() { Fail? }

    function PropagateFailure<U>(): Read<U>
      requires Fail?
    {
      Fail(error, rest)
    }

    function Extract(): (T, bytes)
      requires Got?
    {
      (value, rest)
    }

    /** The same outcome, leaving other bytes unread. */
    function Leaving(left: bytes): Read<T> {
      match this
      case Got(v, _) => Got(v, left)
      case Fail(e, _) => Fail(e, left)
    }

    function Outcome(): Result<T, Error> {
      match this
      case Got(v, _) => Success(v)
      case Fail(e, _) => Failure(e)
    }
  }

  // ---- reading

  function TakeByte(s: bytes): (r: Read<byte>)
    ensures r.Got? ==> |r.rest| < |s|
  {
    if s == [] then Fail(EOF, s) else Got(s[0], s[1..])
  }

  /** io.ReadFull: a short input is consumed whole. */
  function TakeExact(s: bytes, n: nat): Read<bytes> {
    if n <= |s| then Got(s[..n], s[n..]) else Fail(UnexpectedEOF, [])
  }

  function TakeUint16(s: bytes): (r: Read<u16>)
    ensures r.Got? ==> |r.rest| < |s|
  {
    if 2 <= |s| then Got(Code(s[0]) * 256 + Code(s[1]), s[2..]) else Fail(UnexpectedEOF, [])
  }

  function TakeBytes(s: bytes): (r: Read<bytes>)
    ensures r.Got? ==> |r.rest| < |s|
  {
    var (l, rest) :- TakeUint16(s);
    if l > 0 then TakeExact(rest, l) else Got([], rest)
  }

  const MAX_REMAINING: nat := 268435455

  /** The rest of a variable-length integer when v is read so far and the next group weighs m. */
  function TakeVarIntFrom(s: bytes, m: nat, v: nat): (r: Read<nat>)
    ensures r.Got? ==> |r.rest| < |s|
  {
    if s == [] then Fail(UnexpectedEOF, s)
    else
      var b := Code(s[0]);
      var v' := v + b % 0x80 * m;
      if b < 0x80 then Got(v', s[1..])
      else if m * 0x80 > 0x200000 then Fail(MalformedVarInt, s[1..])
      else TakeVarIntFrom(s[1..], m * 0x80, v')
  }

  function TakeVarInt(s: bytes): Read<nat> { TakeVarIntFrom(s, 1, 0) }

  class Reader {
    var data: bytes

    constructor (data: bytes)
      ensures this.data == data
    {
      this.data := data;
    }

    method ReadByte() returns (r: Result<byte, Error>)
      modifies this
      ensures r == TakeByte(old(data)).Outcome() && data == TakeByte(old(data)).rest
    {
      if data == [] { return Failure(EOF); }
      r := Success(data[0]);
      data := data[1..];
    }

    method ReadExact(n: nat) returns (r: Result<bytes, Error>)
      modifies this
      ensures r == TakeExact(old(data), n).Outcome() && data == TakeExact(old(data), n).rest
    {
      if n <= |data| {
        r := Success(data[..n]);
        data := data[n..];
      } else {
        r := Failure(UnexpectedEOF);
        data := [];
      }
    }

    method ReadVarInt() returns (r: Result<nat, Error>)
      modifies this
      ensures r == TakeVarInt(old(data)).Outcome() && data == TakeVarInt(old(data)).rest
    {
      var m: nat, v: nat := 1, 0;
      while true
        invariant TakeVarIntFrom(data, m, v) == TakeVarInt(old(data))
        decreases |data|
      {
        var b := ReadByte();
        if b.Failure? { return Failure(UnexpectedEOF); }
        var group := Code(b.value);
        v := v + group % 0x80 * m;
        if group < 0x80 { return Success(v); }
        m := m * 0x80;
        if m > 0x200000 { return Failure(MalformedVarInt); }
      }
    }

    method ReadUint16() returns (r: Result<u16, Error>)
      modifies this
      ensures r == TakeUint16(old(data)).Outcome() && data == TakeUint16(old(data)).rest
    {
      var bs :- ReadExact(2);
      r := Success(Code(bs[0]) * 256 + Code(bs[1]));
    }

    method ReadBytes() returns (r: Result<bytes, Error>)
      modifies this
      ensures r == TakeBytes(old(data)).Outcome() && data == TakeBytes(old(data)).rest
    {
      var l :- ReadUint16();
      if l > 0 {
        r := ReadExact(l);
      } else {
        r := Success([]);
      }
    }

    /** A new reader over exactly the next n bytes. */
    method ReadPacket(n: nat) returns (r: Result<Reader, Error>)
      modifies this
      ensures data == TakeExact(old(data), n).rest
      ensures r.Success? <==> TakeExact(old(data), n).Got?
      ensures r.Success? ==> fresh(r.value) && r.value.data == TakeExact(old(data), n).value
      ensures r.Failure? ==> r.error == TakeExact(old(data), n).error
    {
      var pk :- ReadExact(n);
      var rdr := new Reader(pk);
      r := Success(rdr);
    }
  }

  // ---- writing

  function U16(v: u16): bytes { [(v / 256) as char, (v % 256) as char] }

  /** The length is truncated to 16 bits; the bytes are all written. */
  function Str(s: bytes): (r: bytes)
    ensures |r| == 2 + |s|
  {
    U16(|s| % 0x1_0000) + s
  }

  function VarInt(v: nat): (r: bytes)
    ensures |r| >= 1
  {
    if v < 0x80 then [v as char] else [(v % 0x80 + 0x80) as char] + VarInt(v / 0x80)
  }

  class Writer {
    var buf: bytes

    constructor ()
      ensures buf == []
    {
      buf := [];
    }

    method Reset()
      modifies this
      ensures buf == []
    {
      buf := [];
    }

    method WriteU8(i: u8)
      modifies this
      ensures buf == old(buf) + [i as char]
    {
      buf := buf + [i as char];
    }

    method WriteU16(i: u16)
      modifies this
      ensures buf == old(buf) + U16(i)
    {
      WriteU8(i / 256);
      WriteU8(i % 256);
    }

    method Write(bs: bytes)
      modifies this
      ensures buf == old(buf) + bs
    {
      buf := buf + bs;
    }

    method WriteString(s: bytes)
      modifies this
      ensures buf == old(buf) + Str(s)
    {
      WriteU16(|s| % 0x1_0000);
      for i := 0 to |s|
        invariant buf == old(buf) + U16(|s| % 0x1_0000) + s[..i]
      {
        Write([s[i]]);
      }
      assert s[..|s|] == s;
    }

    method WriteBytes(bs: bytes)
      modifies this
      ensures buf == old(buf) + Str(bs)
    {
      WriteU16(|bs| % 0x1_0000);
      Write(bs);
    }

    method WriteVarInt(value: nat)
      modifies this
      ensures buf == old(buf) + VarInt(value)
    {
      var v := value;
      while true
        invariant buf + VarInt(v) == old(buf) + VarInt(value)
        decreases v
      {
        var b := v % 0x80;
        v := v / 0x80;
        if v > 0 { b := b + 0x80; }
        WriteU8(b);
        if v == 0 { break; }
      }
    }
  }

  // ---- laws

  lemma Uint16RoundTrip(v: u16, rest: bytes)
    ensures TakeUint16(U16(v) + rest) == Got(v, rest)
  {
    assert (U16(v) + rest)[2..] == rest;
  }

  lemma ExactRoundTrip(s: bytes, rest: bytes)
    ensures TakeExact(s + rest, |s|) == Got(s, rest)
  {
    assert (s + rest)[..|s|] == s && (s + rest)[|s|..] == rest;
  }

  lemma BytesRoundTrip(s: bytes, rest: bytes)
    requires |s| < 0x1_0000
    ensures TakeBytes(Str(s) + rest) == Got(s, rest)
  {
    assert Str(s) + rest == U16(|s|) + (s + rest);
    Uint16RoundTrip(|s|, s + rest);
    ExactRoundTrip(s, rest);
    assert s == [] ==> s + rest == rest;
  }

  /** What was taken is what a writer writes for the value taken. */
  lemma Uint16Taken(s: bytes)
    requires TakeUint16(s).Got? && IsBytes(s)
    ensures s == U16(TakeUint16(s).value) + TakeUint16(s).rest && IsBytes(TakeUint16(s).rest)
  {
  }

  lemma BytesTaken(s: bytes)
    requires TakeBytes(s).Got? && IsBytes(s)
    ensures |TakeBytes(s).value| < 0x1_0000
    ensures s == Str(TakeBytes(s).value) + TakeBytes(s).rest && IsBytes(TakeBytes(s).rest)
  {
    Uint16Taken(s);
  }

  function Power(k: nat): nat { if k == 0 then 1 else 0x80 * Power(k - 1) }

  lemma {:induction false} VarIntLength(v: nat, k: nat)
    requires k >= 1
    ensures |VarInt(v)| <= k <==> v < Power(k)
  {
    if k > 1 && v >= 0x80 {
      VarIntLength(v / 0x80, k - 1);
      assert Power(k) == 0x80 * Power(k - 1);
    } else if v < 0x80 {
      PowerPositive(k - 1);
    }
  }

  lemma {:induction false} PowerPositive(k: nat)
    ensures Power(k) >= 1
  {
    if k > 0 { PowerPositive(k - 1); }
  }

  lemma Groups(v: nat, m: nat)
    requires m in {1, 0x80, 0x4000, 0x200000}
    ensures v / 0x80 * (m * 0x80) + v % 0x80 * m == v * m
    ensures v / 0x80 * (m * 0x80) < 0x1000_0000 <==> v * m < 0x1000_0000
  {
    assert m == 1 || m == 0x80 || m == 0x4000 || m == 0x200000;
  }

  lemma TakeWrittenGroup(v: nat, m: nat, acc: nat, rest: bytes)
    requires v >= 0x80
    ensures TakeVarIntFrom(VarInt(v) + rest, m, acc) ==
            if m * 0x80 > 0x200000 then Fail(MalformedVarInt, VarInt(v / 0x80) + rest)
            else TakeVarIntFrom(VarInt(v / 0x80) + rest, m * 0x80, acc + v % 0x80 * m)
  {
    var s := VarInt(v) + rest;
    assert s[0] == (v % 0x80 + 0x80) as char && s[1..] == VarInt(v / 0x80) + rest;
    assert Code(s[0]) % 0x80 == v % 0x80;
  }

  lemma {:induction false} TakeWrittenVarInt(v: nat, m: nat, acc: nat, rest: bytes)
    requires m in {1, 0x80, 0x4000, 0x200000}
    ensures v * m < 0x1000_0000 ==> TakeVarIntFrom(VarInt(v) + rest, m, acc) == Got(acc + v * m, rest)
    ensures v * m >= 0x1000_0000 ==> TakeVarIntFrom(VarInt(v) + rest, m, acc).Outcome() == Failure(MalformedVarInt)
    decreases v
  {
    if v < 0x80 {
      var s := VarInt(v) + rest;
      assert s[0] == v as char && s[1..] == rest;
    } else {
      TakeWrittenGroup(v, m, acc, rest);
      if m < 0x200000 {
        Groups(v, m);
        TakeWrittenVarInt(v / 0x80, m * 0x80, acc + v % 0x80 * m, rest);
      }
    }
  }

  /** Section 2.2.3 of MQTT 3.1.1: what is written is read back exactly up to 268435455, in 1 to 4 bytes. */
  lemma VarIntRoundTrip(v: nat, rest: bytes)
    ensures TakeVarInt(VarInt(v) + rest) == Got(v, rest) <==> v <= MAX_REMAINING
    ensures v > MAX_REMAINING ==> TakeVarInt(VarInt(v) + rest).Outcome() == Failure(MalformedVarInt)
    ensures |VarInt(v)| <= 4 <==> v <= MAX_REMAINING
  {
    TakeWrittenVarInt(v, 1, 0, rest);
    VarIntLength(v, 4);
    assert Power(4) == 0x80 * Power(3) && Power(3) == 0x80 * Power(2) && Power(2) == 0x80 * Power(1);
  }

  lemma {:induction false} TakenVarIntBound(s: bytes, m: nat, acc: nat)
    requires m in {1, 0x80, 0x4000, 0x200000} && acc < m
    requires TakeVarIntFrom(s, m, acc).Got?
    ensures var r := TakeVarIntFrom(s, m, acc);
            |r.rest| < |s| && s[|s| - |r.rest|..] == r.rest
            && r.value < 0x1000_0000 && r.value < m * Power(|s| - |r.rest|)
  {
    var b := Code(s[0]);
    var r := TakeVarIntFrom(s, m, acc);
    if b < 0x80 {
      assert Power(1) == 0x80;
    } else {
      TakenVarIntBound(s[1..], m * 0x80, acc + b % 0x80 * m);
      var k := |s| - 1 - |r.rest|;
      assert Power(k + 1) == 0x80 * Power(k);
      assert m * (0x80 * Power(k)) == m * 0x80 * Power(k);
    }
  }

  /** No accepted input yields more than 268435455, and none is shorter than what a writer writes for its value. */
  lemma VarIntTaken(s: bytes)
    requires TakeVarInt(s).Got?
    ensures var r := TakeVarInt(s);
            r.value <= MAX_REMAINING && |r.rest| < |s| && s[|s| - |r.rest|..] == r.rest
            && |VarInt(r.value)| <= |s| - |r.rest|
  {
    TakenVarIntBound(s, 1, 0);
    VarIntLength(TakeVarInt(s).value, |s| - |TakeVarInt(s).rest|);
  }
}
