// The bytes of the fourteen packets as chapters 2 and 3 of MQTT 3.1.1 give them, against what is written and what is
// accepted. Nothing here is defined by the flag, header or protocol constants of the code.
module WireFormat {
  import opened Basics
  import opened Wire
  import opened Packets
  import opened CodecLaws

  // ---- the standard's layout

  /** Table 2.1: the packet types. */
  function TypeNumber(p: Packet): nat {
    match p
    case ConnectPacket(_) => 1
    case ConnAck(_, _) => 2
    case PublishPacket(_) => 3
    case PubAck(_) => 4
    case PubRec(_) => 5
    case PubRel(_) => 6
    case PubComp(_) => 7
    case Subscribe(_, _) => 8
    case SubAck(_, _) => 9
    case Unsubscribe(_, _) => 10
    case UnsubAck(_) => 11
    case PingRequest => 12
    case PingResponse => 13
    case Disconnect => 14
  }

  /** Table 2.2: the low nibble of the first byte, but for PUBREL, where the code leaves out the reserved bit. */
  function LowNibble(p: Packet): nat {
    match p
    case PublishPacket(m) => m.flags % 0x10
    case Subscribe(_, _) => 2
    case Unsubscribe(_, _) => 2
    case _ => 0
  }

  /** Section 1.5.2: sixteen bits, the more significant byte first. */
  function Two(n: nat): bytes { [(n / 0x100 % 0x100) as char, (n % 0x100) as char] }

  /** Section 1.5.3: a length in two bytes, then the bytes. */
  function Field(s: bytes): bytes { Two(|s|) + s }

  /** Table 2.4: the remaining length in one to four bytes, seven bits each, the least significant first. */
  function Length(n: nat): bytes
    requires n < 0x1000_0000
  {
    if n < 0x80 then [n as char]
    else if n < 0x4000 then [(n % 0x80 + 0x80) as char, (n / 0x80) as char]
    else if n < 0x20_0000 then [(n % 0x80 + 0x80) as char, (n / 0x80 % 0x80 + 0x80) as char, (n / 0x4000) as char]
    else
      [(n % 0x80 + 0x80) as char, (n / 0x80 % 0x80 + 0x80) as char, (n / 0x4000 % 0x80 + 0x80) as char, (n / 0x20_0000) as char]
  }

  function TopicFields(ts: seq<Topic>): bytes {
    if ts == [] then [] else Field(ts[0].name) + [ts[0].qos as char] + TopicFields(ts[1..])
  }

  function NameFields(ns: seq<bytes>): bytes { if ns == [] then [] else Field(ns[0]) + NameFields(ns[1..]) }

  /** Bit number n of a byte, the least significant first. */
  predicate Bit(b: u8, n: nat)
    requires n < 8
  {
    b / [1, 2, 4, 8, 0x10, 0x20, 0x40, 0x80][n] % 2 == 1
  }

  /** The fields of a CONNECT behind its client identifier, as section 3.1.2.3 assigns the flag bits. */
  function ConnectPayload(c: Connect): bytes
    requires Writable(ConnectPacket(c))
  {
    (if Bit(c.flags, 2) && c.will.Some? then Field(c.will.value.topic) + Field(c.will.value.message) else [])
    + (if Bit(c.flags, 7) && c.creds.Some? then Field(c.creds.value.user) else [])
    + (if Bit(c.flags, 6) && c.creds.Some? then Field(if c.creds.value.password.Some? then c.creds.value.password.value else []) else [])
  }

  /** Variable header and payload of each kind, by the sections of chapter 3. */
  function Layout(p: Packet): bytes
    requires Writable(p)
  {
    match p
    case ConnectPacket(c) =>
      [0 as char, 4 as char, 'M', 'Q', 'T', 'T', c.clientLevel as char, c.flags as char] + Two(c.keepAlive) + Field(c.clientID)
      + ConnectPayload(c)
    case ConnAck(flags, code) => [flags as char, code as char]
    case PublishPacket(m) => Field(m.name) + (if Bit(m.flags, 1) || Bit(m.flags, 2) then Two(m.id) else []) + m.payload
    case Subscribe(id, ts) => Two(id) + TopicFields(ts)
    case SubAck(id, codes) => Two(id) + seq(|codes|, i requires 0 <= i < |codes| => codes[i] as char)
    case Unsubscribe(id, ns) => Two(id) + NameFields(ns)
    case PingRequest => []
    case PingResponse => []
    case Disconnect => []
    case _ => Two(p.id)
  }

  // ---- what is written

  lemma FieldIsStr(s: bytes)
    ensures Field(s) == Str(s)
  {
    LowBytes(|s|);
  }

  lemma LowBytes(n: nat)
    ensures n % 0x1_0000 / 0x100 == n / 0x100 % 0x100 && n % 0x1_0000 % 0x100 == n % 0x100
  {
    var high, low := n / 0x1_0000, n % 0x1_0000;
    assert n / 0x100 == 0x100 * high + low / 0x100 && n % 0x100 == low % 0x100;
  }

  lemma TwoIsU16(n: u16)
    ensures Two(n) == U16(n)
  {
  }

  lemma {:induction false} TopicFieldsWritten(ts: seq<Topic>)
    ensures TopicFields(ts) == TopicBytes(ts)
  {
    if ts != [] {
      FieldIsStr(ts[0].name);
      TopicFieldsWritten(ts[1..]);
    }
  }

  lemma {:induction false} NameFieldsWritten(ns: seq<bytes>)
    ensures NameFields(ns) == NameBytes(ns)
  {
    if ns != [] {
      FieldIsStr(ns[0]);
      NameFieldsWritten(ns[1..]);
    }
  }

  lemma PayloadWritten(c: Connect)
    requires Writable(ConnectPacket(c))
    ensures ConnectPayload(c) == WillBytes(c.flags, c.will) + UserBytes(c.flags, c.creds) + SecretBytes(c.flags, c.creds)
  {
    hide Field, Str;
    if c.will.Some? {
      FieldIsStr(c.will.value.topic);
      FieldIsStr(c.will.value.message);
    }
    if c.creds.Some? {
      FieldIsStr(c.creds.value.user);
      FieldIsStr(PasswordBytes(c.creds.value));
    }
  }

  lemma Regrouped(name: bytes, level: byte, flags: byte, alive: bytes, id: bytes, will: bytes, user: bytes, secret: bytes)
    ensures name + [level, flags] + alive + id + (will + user + secret) == name + [level] + [flags] + alive + id + will + user + secret
  {
    assert name + [level, flags] == name + [level] + [flags];
    var head := name + [level] + [flags] + alive + id;
    assert head + (will + user + secret) == head + will + user + secret;
  }

  lemma ProtocolField()
    ensures Str(PROTO) == [0 as char, 4 as char, 'M', 'Q', 'T', 'T']
  {
  }

  lemma ConnectWritten(c: Connect)
    requires Writable(ConnectPacket(c))
    ensures Layout(ConnectPacket(c)) == Body(ConnectPacket(c))
  {
    hide Field, Str, Two, U16, Bit, WillBytes, UserBytes, SecretBytes, ConnectPayload;
    PayloadWritten(c);
    FieldIsStr(c.clientID);
    TwoIsU16(c.keepAlive);
    ProtocolField();
    var name := [0 as char, 4 as char, 'M', 'Q', 'T', 'T'];
    Regrouped(name, c.clientLevel as char, c.flags as char, Two(c.keepAlive), Field(c.clientID),
              WillBytes(c.flags, c.will), UserBytes(c.flags, c.creds), SecretBytes(c.flags, c.creds));
    assert name + [c.clientLevel as char, c.flags as char]
        == [0 as char, 4 as char, 'M', 'Q', 'T', 'T', c.clientLevel as char, c.flags as char];
  }

  lemma PublishWritten(m: Publish)
    ensures Layout(PublishPacket(m)) == Body(PublishPacket(m))
  {
    hide Field, Str, Bit, QoSLevel;
    FieldIsStr(m.name);
    FlagBits(m.flags);
    TwoIsU16(m.id);
  }

  lemma ListsWritten(p: Packet)
    requires p.Subscribe? || p.Unsubscribe? || p.SubAck?
    ensures Layout(p) == Body(p)
  {
    hide TopicFields, TopicBytes, NameFields, NameBytes;
    match p
    case Subscribe(id, ts) => TwoIsU16(id); TopicFieldsWritten(ts);
    case Unsubscribe(id, ns) => TwoIsU16(id); NameFieldsWritten(ns);
    case SubAck(id, _) => TwoIsU16(id);
  }

  lemma ShortWritten(p: Packet)
    requires !p.ConnectPacket? && !p.PublishPacket? && !p.Subscribe? && !p.Unsubscribe? && !p.SubAck?
    ensures Layout(p) == Body(p)
  {
  }

  lemma LayoutWritten(p: Packet)
    requires Writable(p)
    ensures Layout(p) == Body(p)
  {
    hide Layout, Body;
    match p
    case ConnectPacket(c) => ConnectWritten(c);
    case PublishPacket(m) => PublishWritten(m);
    case Subscribe(_, _) => ListsWritten(p);
    case Unsubscribe(_, _) => ListsWritten(p);
    case SubAck(_, _) => ListsWritten(p);
    case _ => ShortWritten(p);
  }

  lemma LengthWritten(n: nat)
    requires n < 0x1000_0000
    ensures Length(n) == VarInt(n)
  {
    var a, b, c := n / 0x80, n / 0x4000, n / 0x20_0000;
    assert b == a / 0x80 && c == b / 0x80;
    assert n >= 0x80 ==> VarInt(n) == [(n % 0x80 + 0x80) as char] + VarInt(a);
    assert a >= 0x80 ==> VarInt(a) == [(a % 0x80 + 0x80) as char] + VarInt(b);
    assert b >= 0x80 ==> VarInt(b) == [(b % 0x80 + 0x80) as char] + VarInt(c);
  }

  lemma HeaderWritten(p: Packet)
    requires p.PublishPacket? ==> p.publish.flags < 0x10
    ensures Header(p) == 0x10 * TypeNumber(p) + LowNibble(p)
  {
  }

  /** Every packet is written as the standard lays it out: type and flags, the length of the rest, the rest. */
  lemma WrittenAsStandard(p: Packet)
    requires Writable(p) && (p.PublishPacket? ==> p.publish.flags < 0x10) && |Layout(p)| <= 268435455
    ensures Encode(p) == [(0x10 * TypeNumber(p) + LowNibble(p)) as char] + Length(|Layout(p)|) + Layout(p)
  {
    HeaderWritten(p);
    LayoutWritten(p);
    DeclaredLength(p);
    hide Layout, Body, Length, VarInt, Header, TypeNumber, LowNibble, RemainingLength;
    LengthWritten(|Layout(p)|);
  }

  /** What is laid out as the standard says, of a well-formed packet, is parsed as that packet. */
  lemma StandardIsParsed(p: Packet, rest: bytes)
    requires WellFormed(p)
    ensures Writable(p) && |Layout(p)| <= 268435455
    ensures ParsePacket([(0x10 * TypeNumber(p) + LowNibble(p)) as char] + Length(|Layout(p)|) + Layout(p) + rest) == Got(p, rest)
  {
    LayoutWritten(p);
    DeclaredLength(p);
    hide Layout, Body, ParsePacket, TypeNumber, LowNibble, Length;
    WrittenAsStandard(p);
    PacketRoundTrip(p, rest);
  }

  /** Whatever is accepted as a CONNECT has its fields where the standard puts them; what follows them is left over. */
  lemma ConnectIsRead(s: bytes)
    requires IsBytes(s) && ConnectBody(s).Got?
    ensures Writable(ConnectBody(s).value) && s == Layout(ConnectBody(s).value) + ConnectBody(s).rest
  {
    hide ConnectBody, Layout, Body;
    ConnectPartsTaken(s);
    LayoutWritten(ConnectBody(s).value);
  }

  function BitValue(b: bool): nat { if b then 1 else 0 }

  /** The flags of a PUBLISH (section 3.3.1) and of a CONNECT (section 3.1.2.3), bit by bit. */
  lemma FlagBits(f: u8)
    ensures Retain(f) <==> Bit(f, 0)
    ensures QoSLevel(f) == BitValue(Bit(f, 1)) + 2 * BitValue(Bit(f, 2))
    ensures IsDup(f) <==> Bit(f, 3)
    ensures (CleanSession(f) <==> Bit(f, 1)) && (HasWill(f) <==> Bit(f, 2))
    ensures WillQoS(f) == BitValue(Bit(f, 3)) + 2 * BitValue(Bit(f, 4))
    ensures (WillRetain(f) <==> Bit(f, 5)) && (HasPassword(f) <==> Bit(f, 6)) && (HasUserName(f) <==> Bit(f, 7))
  {
    TwoBits(f / 2);
    TwoBits(f / 8);
    assert f / 2 / 2 == f / 4 && f / 8 / 2 == f / 0x10;
  }

  lemma TwoBits(n: nat)
    ensures n % 4 == n % 2 + 2 * (n / 2 % 2)
  {
  }

  // ---- what is refused

  /** The name that a CONNECT starts with is readable. */
  predicate HasName(s: bytes) { 2 <= |s| && 2 + Code(s[0]) * 0x100 + Code(s[1]) <= |s| }

  /** Section 3.1.2.1: 00 04 4d 51 54 54. */
  predicate IsMQTT(s: bytes) {
    6 <= |s| && s[0] as int == 0 && s[1] as int == 4 && s[2] as int == 0x4d && s[3] as int == 0x51 && s[4] as int == 0x54 && s[5] as int == 0x54
  }

  predicate Ends(e: Error) { e == EOF || e == UnexpectedEOF }

  lemma TakesEnd(s: bytes)
    ensures TakeBytes(s).Fail? ==> Ends(TakeBytes(s).error)
    ensures TakeUint16(s).Fail? ==> Ends(TakeUint16(s).error)
    ensures TakeByte(s).Fail? ==> Ends(TakeByte(s).error)
  {
  }

  lemma WillEnds(flags: u8, s: bytes)
    ensures TakeWill(flags, s).Fail? ==> Ends(TakeWill(flags, s).error)
  {
    hide TakeBytes, Ends;
    TakesEnd(s);
    if TakeBytes(s).Got? { TakesEnd(TakeBytes(s).rest); }
  }

  lemma CredentialsEnd(flags: u8, s: bytes)
    ensures TakeCredentials(flags, s).Fail? ==> Ends(TakeCredentials(flags, s).error)
  {
    hide TakeBytes, Ends;
    TakesEnd(s);
    if TakeUser(flags, s).Got? { TakesEnd(TakeUser(flags, s).rest); }
  }

  /** What follows the level of a CONNECT can only be cut short. */
  lemma TailEnds(s: bytes)
    ensures ConnectTail(s).Fail? ==> Ends(ConnectTail(s).error)
  {
    hide TakeByte, TakeUint16, TakeBytes, TakeWill, TakeCredentials, Ends;
    TakesEnd(s);
    if TakeByte(s).Got? {
      var flags, s1 := Code(TakeByte(s).value), TakeByte(s).rest;
      TakesEnd(s1);
      if TakeUint16(s1).Got? {
        var s2 := TakeUint16(s1).rest;
        TakesEnd(s2);
        if TakeBytes(s2).Got? {
          var s3 := TakeBytes(s2).rest;
          WillEnds(flags, s3);
          if TakeWill(flags, s3).Got? { CredentialsEnd(flags, TakeWill(flags, s3).rest); }
        }
      }
    }
  }

  lemma NameTaken(s: bytes)
    requires IsBytes(s) && HasName(s)
    ensures TakeBytes(s).Got? && (TakeBytes(s).value == PROTO <==> IsMQTT(s))
    ensures IsMQTT(s) ==> TakeBytes(s).rest == s[6..]
  {
    var n := Code(s[0]) * 0x100 + Code(s[1]);
    assert TakeBytes(s).value == s[2..][..n];
    if TakeBytes(s).value == PROTO {
      assert n == 4 && s[2] == PROTO[0] && s[3] == PROTO[1] && s[4] == PROTO[2] && s[5] == PROTO[3];
    }
  }

  lemma LevelTaken(s: bytes)
    requires IsBytes(s) && 7 <= |s|
    ensures TakeByte(s[6..]) == Got(s[6], s[7..]) && Code(s[6]) == s[6] as int
  {
    assert s[6..][1..] == s[7..];
  }

  /** A readable protocol name is refused exactly if it is not MQTT, and a level exactly if it is not 4. */
  lemma ConnectIsRefused(s: bytes)
    requires IsBytes(s) && HasName(s)
    ensures ConnectBody(s).Fail? && ConnectBody(s).error == BadProtocolName <==> !IsMQTT(s)
    ensures ConnectBody(s).Fail? && ConnectBody(s).error == UnacceptableProtocolVersion <==> IsMQTT(s) && 7 <= |s| && s[6] as int != 4
  {
    NameTaken(s);
    hide TakeBytes, ConnectTail, IsMQTT;
    if IsMQTT(s) && 7 <= |s| { LevelTaken(s); TailEnds(s[7..]); }
  }

  /** What the first byte and the declared length alone decide, by Table 2.1, Table 2.2 and the two bytes of an id. */
  datatype Refusal = Unknown | BadHeader | BadLength

  predicate Refuses(r: Refusal, b: u8, n: nat) {
    match r
    case Unknown => b / 0x10 == 0 || b / 0x10 == 15
    case BadHeader => (b / 0x10 == 8 || b / 0x10 == 10) && b % 0x10 != 2
    case BadLength => (b / 0x10 == 2 || 4 <= b / 0x10 <= 7 || b / 0x10 == 11) && n != 2
  }

  function ErrorOf(r: Refusal): Error {
    match r
    case Unknown => UnknownPacketType
    case BadHeader => MalformedHeader
    case BadLength => MalformedPacket
  }

  predicate Refused(p: Read<Packet>, r: Refusal) { p.Fail? && p.error == ErrorOf(r) }

  lemma {:induction false} TopicsError(s: bytes, acc: seq<Topic>)
    ensures var r := TakeTopics(s, acc); r.Fail? ==> Ends(r.error) || r.error == MalformedQoS
    decreases |s|
  {
    hide TakeBytes, Ends;
    TakesEnd(s);
    if s != [] && TakeBytes(s).Got? {
      var t := TakeBytes(s).rest;
      TakesEnd(t);
      if t != [] && Code(t[0]) <= 2 { TopicsError(t[1..], acc + [Topic(TakeBytes(s).value, Code(t[0]))]); }
    }
  }

  lemma {:induction false} NamesError(s: bytes, acc: seq<bytes>)
    ensures var r := TakeNames(s, acc); r.Fail? ==> Ends(r.error)
    decreases |s|
  {
    hide TakeBytes, Ends;
    TakesEnd(s);
    if s != [] && TakeBytes(s).Got? { NamesError(TakeBytes(s).rest, acc + [TakeBytes(s).value]); }
  }

  predicate InBody(e: Error) { Ends(e) || e == MalformedQoS || e == BadProtocolName || e == UnacceptableProtocolVersion }

  lemma BodyError(b: u8, s: bytes)
    requires b / 0x10 in {1, 3, 8, 9, 0xa}
    ensures FrameBody(b, s).Fail? ==> InBody(FrameBody(b, s).error)
  {
    hide TakeBytes, TakeUint16, TakeByte, TakeTopics, TakeNames, ConnectTail, Ends;
    TakesEnd(s);
    if TakeBytes(s).Got? {
      TakesEnd(TakeBytes(s).rest);
      if TakeByte(TakeBytes(s).rest).Got? { TailEnds(TakeByte(TakeBytes(s).rest).rest); }
    }
    if TakeUint16(s).Got? {
      TopicsError(TakeUint16(s).rest, []);
      NamesError(TakeUint16(s).rest, []);
    }
  }

  lemma FrameDecides(b: u8, n: nat, s: bytes, r: Refusal)
    requires b / 0x10 in {1, 3, 8, 9, 0xa}
    ensures Refused(ParseFrame(b, n, s), r) <==> Refuses(r, b, n)
  {
    hide FrameBody;
    if TakeExact(s, n).Got? { BodyError(b, TakeExact(s, n).value); }
  }

  lemma IdDecides(b: u8, n: nat, s: bytes, r: Refusal)
    requires b / 0x10 in {4, 5, 6, 7, 0xb}
    ensures Refused(ParseId(b / 0x10, n, s), r) <==> Refuses(r, b, n)
  {
    hide TakeUint16, IdPacket;
    TakesEnd(s);
  }

  lemma RestDecides(b: u8, n: nat, s: bytes, r: Refusal)
    ensures Refused(ParseOf(b, n, s), r) <==> Refuses(r, b, n)
  {
    hide ParseFrame, ParseId;
    if b / 0x10 in {1, 3, 8, 9, 0xa} {
      FrameDecides(b, n, s, r);
    } else if b / 0x10 in {4, 5, 6, 7, 0xb} {
      IdDecides(b, n, s, r);
    }
  }

  lemma FirstByteTaken(b: byte, more: bytes)
    requires b as int < 0x100 && TakeVarInt(more).Got?
    ensures ParsePacket([b] + more) == ParseOf(b as int, TakeVarInt(more).value, TakeVarInt(more).rest)
  {
    hide TakeVarInt, ParseOf;
    assert ([b] + more)[1..] == more && Code(b) == b as int;
  }

  /** A first byte with a readable length is refused for its type, its reserved bits or its length exactly as the tables say. */
  lemma FirstByteDecides(b: byte, more: bytes, r: Refusal)
    requires b as int < 0x100 && TakeVarInt(more).Got?
    ensures Refused(ParsePacket([b] + more), r) <==> Refuses(r, b as int, TakeVarInt(more).value)
  {
    hide Refuses, Refused, ParsePacket, TakeVarInt;
    FirstByteTaken(b, more);
    RestDecides(b as int, TakeVarInt(more).value, TakeVarInt(more).rest, r);
  }

  const REAL := ConnectPacket(Connect("c", None, None, 60, 4, 2))

  lemma RealLayout()
    ensures WellFormed(REAL) && Length(13) == [13 as char]
    ensures Layout(REAL)
         == [0 as char, 4 as char, 'M', 'Q', 'T', 'T', 4 as char, 2 as char, 0 as char, 60 as char, 0 as char, 1 as char, 'c']
  {
    assert Two(60) == [0 as char, 60 as char] && Field("c") == [0 as char, 1 as char, 'c'];
    assert ConnectPayload(REAL.connect) == [] by { assert !Bit(2, 2) && !Bit(2, 6) && !Bit(2, 7); }
  }

  /** The CONNECT of a client "c" with a clean session and a keep alive of a minute, byte by byte. */
  lemma RealConnect()
    ensures ParsePacket([0x10 as char, 13 as char, 0 as char, 4 as char, 'M', 'Q', 'T', 'T', 4 as char, 2 as char,
                         0 as char, 60 as char, 0 as char, 1 as char, 'c'])
         == Got(ConnectPacket(Connect("c", None, None, 60, 4, 2)), [])
  {
    hide ParsePacket, Layout, WellFormed, Length;
    RealLayout();
    StandardIsParsed(REAL, []);
    var s := [0 as char, 4 as char, 'M', 'Q', 'T', 'T', 4 as char, 2 as char, 0 as char, 60 as char, 0 as char, 1 as char, 'c'];
    assert [0x10 as char] + [13 as char] + s + []
        == [0x10 as char, 13 as char, 0 as char, 4 as char, 'M', 'Q', 'T', 'T', 4 as char, 2 as char, 0 as char, 60 as char, 0 as char, 1 as char, 'c'];
  }

  /** What is cut short: the first byte, and everything behind it, which is then used up. */
  lemma ShortReads(s: bytes, n: nat)
    ensures s == [] ==> TakeByte(s) == Fail(EOF, []) && TakeVarInt(s) == Fail(UnexpectedEOF, [])
    ensures |s| < 2 ==> TakeUint16(s) == Fail(UnexpectedEOF, []) && TakeBytes(s) == Fail(UnexpectedEOF, [])
    ensures |s| < n ==> TakeExact(s, n) == Fail(UnexpectedEOF, [])
    ensures 2 <= |s| && IsBytes(s) && !HasName(s) ==> TakeBytes(s) == Fail(UnexpectedEOF, [])
  {
  }

  /** A remaining length is refused exactly when its first four bytes all say that another one follows. */
  lemma LongLengths(s: bytes)
    requires 4 <= |s| && IsBytes(s)
    ensures TakeVarInt(s).Fail? <==> s[0] as int >= 0x80 && s[1] as int >= 0x80 && s[2] as int >= 0x80 && s[3] as int >= 0x80
    ensures TakeVarInt(s).Fail? ==> TakeVarInt(s).error == MalformedVarInt
  {
    assert s[1..][1..] == s[2..] && s[2..][1..] == s[3..];
    OneGroup(s, 1, 0);
    var v1 := Code(s[0]) % 0x80;
    OneGroup(s[1..], 0x80, v1);
    var v2 := v1 + Code(s[1]) % 0x80 * 0x80;
    OneGroup(s[2..], 0x4000, v2);
    OneGroup(s[3..], 0x20_0000, v2 + Code(s[2]) % 0x80 * 0x4000);
    hide TakeVarIntFrom;
  }

  lemma OneGroup(s: bytes, m: nat, v: nat)
    requires s != [] && s[0] as int < 0x100
    ensures s[0] as int < 0x80 ==> TakeVarIntFrom(s, m, v).Got?
    ensures s[0] as int >= 0x80 && m >= 0x20_0000 ==> TakeVarIntFrom(s, m, v) == Fail(MalformedVarInt, s[1..])
    ensures s[0] as int >= 0x80 && m * 0x80 <= 0x20_0000 ==>
              TakeVarIntFrom(s, m, v) == TakeVarIntFrom(s[1..], m * 0x80, v + Code(s[0]) % 0x80 * m)
  {
  }
}
