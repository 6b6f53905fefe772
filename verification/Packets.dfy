// mqtt/pkg: the fourteen MQTT 3.1.1 control packets, what is written for each and how each is parsed.
module Packets {
  import opened Basics
  import opened Wire

  datatype Will = Will(topic: bytes, message: bytes, qos: u8, retain: bool)

  /** The password is None where the source holds a nil slice. */
  datatype Credentials = Credentials(user: bytes, password: Option<bytes>)

  datatype Connect = Connect(
    clientID: bytes, creds: Option<Credentials>, will: Option<Will>, keepAlive: u16, clientLevel: u8, flags: u8)

  datatype Publish = Publish(name: bytes, replyTo: bytes, payload: bytes, id: u16, flags: u8, sentByUs: bool)

  datatype Topic = Topic(name: bytes, qos: u8)

  datatype Packet =
    | ConnectPacket(connect: Connect)
    | ConnAck(ackFlags: u8, returnCode: u8)
    | PublishPacket(publish: Publish)
    | PubAck(id: u16)
    | PubRec(id: u16)
    | PubRel(id: u16)
    | PubComp(id: u16)
    | Subscribe(id: u16, topics: seq<Topic>)
    | SubAck(id: u16, topicReturns: seq<u8>)
    | Unsubscribe(id: u16, names: seq<bytes>)
    | UnsubAck(id: u16)
    | PingRequest
    | PingResponse
    | Disconnect

  // ---- flag bytes

  predicate CleanSession(flags: u8) { flags / 2 % 2 == 1 }
  predicate HasWill(flags: u8) { flags / 4 % 2 == 1 }
  function WillQoS(flags: u8): u8 { flags / 8 % 4 }
  predicate WillRetain(flags: u8) { flags / 32 % 2 == 1 }
  predicate HasPassword(flags: u8) { flags / 64 % 2 == 1 }
  predicate HasUserName(flags: u8) { flags / 128 % 2 == 1 }

  predicate Retain(flags: u8) { flags % 2 == 1 }
  function QoSLevel(flags: u8): u8 { flags / 2 % 4 }
  predicate IsDup(flags: u8) { flags / 8 % 2 == 1 }

  /** The flag byte of a new CONNECT; each |= sets a bit that may be set already. */
  function ConnectFlags(clean: bool, will: Option<Will>, pass: bool, user: bool): u8 {
    // willFlag | (QoS << 3) is disjoint from the clean session bit; the shift drops what leaves the byte
    var f: u8 := (if clean then 2 else 0) + (if will.Some? then 4 + will.value.qos * 8 % 0x100 else 0);
    OrUserName(OrPassword(OrRetain(f, will.Some? && will.value.retain), pass), user)
  }

  function OrRetain(f: u8, on: bool): u8 { if on && !WillRetain(f) then f + 0x20 else f }
  function OrPassword(f: u8, on: bool): u8 { if on && !HasPassword(f) then f + 0x40 else f }
  function OrUserName(f: u8, on: bool): u8 { if on && !HasUserName(f) then f + 0x80 else f }

  /** A PUBLISH that the bridge makes itself; each |= sets a bit that may be set already. */
  function NewPublish2(id: u16, topic: bytes, payload: bytes, qos: u8, dup: bool, retain: bool): Publish {
    var f: u8 := qos * 2 % 0x100;
    var g: u8 := if dup && !IsDup(f) then f + 8 else f;
    Publish(topic, "", payload, id, if retain && !Retain(g) then g + 1 else g, false)
  }

  predicate HasSecret(creds: Option<Credentials>) {
    creds.Some? && creds.value.password.Some? && |creds.value.password.value| > 0
  }

  predicate HasUser(creds: Option<Credentials>) { creds.Some? && |creds.value.user| > 0 }

  function NewConnect(clientID: bytes, clean: bool, keepAlive: u16, will: Option<Will>, creds: Option<Credentials>): Connect {
    Connect(clientID, creds, will, keepAlive, 4, ConnectFlags(clean, will, HasSecret(creds), HasUser(creds)))
  }

  /** flags &^= willFlag | willQoS | willRetainFlag, which are the adjacent bits 2 to 5. */
  function WithoutWill(flags: u8): u8 { flags % 4 + 0x40 * (flags / 0x40) }

  function DeleteWill(c: Connect): Connect {
    c.(flags := WithoutWill(c.flags), will := None)
  }

  // ---- what is written

  /** What Write demands of a packet: the fields its flags promise are there. */
  predicate Writable(p: Packet) {
    p.ConnectPacket? ==>
      var c := p.connect;
      && (HasWill(c.flags) ==> c.will.Some?)
      && (HasUserName(c.flags) || HasPassword(c.flags) ==> c.creds.Some?)
  }

  function PasswordBytes(c: Credentials): bytes { if c.password.Some? then c.password.value else [] }

  function TopicsLength(ts: seq<Topic>): nat {
    if ts == [] then 0 else 3 + |ts[0].name| + TopicsLength(ts[1..])
  }

  function NamesLength(ns: seq<bytes>): nat {
    if ns == [] then 0 else 2 + |ns[0]| + NamesLength(ns[1..])
  }

  /** The remaining length that is declared for a packet. */
  function RemainingLength(p: Packet): nat
    requires Writable(p)
  {
    match p
    case ConnectPacket(c) =>
      6 + 1 + 1 + 2 + 2 + |c.clientID|
      + (if HasWill(c.flags) then 2 + |c.will.value.topic| + 2 + |c.will.value.message| else 0)
      + (if HasUserName(c.flags) then 2 + |c.creds.value.user| else 0)
      + (if HasPassword(c.flags) then 2 + |PasswordBytes(c.creds.value)| else 0)
    case PublishPacket(m) => 2 + |m.name| + |m.payload| + if QoSLevel(m.flags) > 0 then 2 else 0
    case Subscribe(_, ts) => 2 + TopicsLength(ts)
    case SubAck(_, rs) => 2 + |rs|
    case Unsubscribe(_, ns) => 2 + NamesLength(ns)
    case PingRequest => 0
    case PingResponse => 0
    case Disconnect => 0
    case _ => 2
  }

  /** The high nibble is the packet type. In 0x30 | flags the type bits win over flag bits above 0x0f. */
  function Header(p: Packet): u8 {
    match p
    case ConnectPacket(_) => 0x10
    case ConnAck(_, _) => 0x20
    case PublishPacket(m) => m.flags / 0x40 * 0x40 + 0x30 + m.flags % 0x10
    case PubAck(_) => 0x40
    case PubRec(_) => 0x50
    case PubRel(_) => 0x60
    case PubComp(_) => 0x70
    case Subscribe(_, _) => 0x82
    case SubAck(_, _) => 0x90
    case Unsubscribe(_, _) => 0xa2
    case UnsubAck(_) => 0xb0
    case PingRequest => 0xc0
    case PingResponse => 0xd0
    case Disconnect => 0xe0
  }

  function AsBytes(ns: seq<u8>): (bs: bytes)
    ensures |bs| == |ns|
  {
    seq(|ns|, i requires 0 <= i < |ns| => ns[i] as char)
  }

  function AsNumbers(bs: bytes): (ns: seq<u8>)
    ensures |ns| == |bs|
  {
    seq(|bs|, i requires 0 <= i < |bs| => Code(bs[i]))
  }

  function TopicBytes(ts: seq<Topic>): bytes
  {
    if ts == [] then [] else Str(ts[0].name) + [ts[0].qos as char] + TopicBytes(ts[1..])
  }

  function NameBytes(ns: seq<bytes>): bytes
  {
    if ns == [] then [] else Str(ns[0]) + NameBytes(ns[1..])
  }

  function WillBytes(flags: u8, will: Option<Will>): bytes
    requires HasWill(flags) ==> will.Some?
  {
    if HasWill(flags) then Str(will.value.topic) + Str(will.value.message) else []
  }

  function UserBytes(flags: u8, creds: Option<Credentials>): bytes
    requires HasUserName(flags) ==> creds.Some?
  {
    if HasUserName(flags) then Str(creds.value.user) else []
  }

  function SecretBytes(flags: u8, creds: Option<Credentials>): bytes
    requires HasPassword(flags) ==> creds.Some?
  {
    if HasPassword(flags) then Str(PasswordBytes(creds.value)) else []
  }

  const PROTO: bytes := ['M', 'Q', 'T', 'T']

  function Body(p: Packet): bytes
    requires Writable(p)
  {
    match p
    case ConnectPacket(c) =>
      Str(PROTO) + [c.clientLevel as char] + [c.flags as char] + U16(c.keepAlive) + Str(c.clientID)
      + WillBytes(c.flags, c.will) + UserBytes(c.flags, c.creds) + SecretBytes(c.flags, c.creds)
    case ConnAck(f, rc) => [f as char, rc as char]
    case PublishPacket(m) => Str(m.name) + (if QoSLevel(m.flags) > 0 then U16(m.id) else []) + m.payload
    case Subscribe(id, ts) => U16(id) + TopicBytes(ts)
    case SubAck(id, rs) => U16(id) + AsBytes(rs)
    case Unsubscribe(id, ns) => U16(id) + NameBytes(ns)
    case PingRequest => []
    case PingResponse => []
    case Disconnect => []
    case _ => U16(p.id)
  }

  function Encode(p: Packet): bytes
    requires Writable(p)
  {
    [Header(p) as char] + VarInt(RemainingLength(p)) + Body(p)
  }

  // ---- how a body is parsed

  function TakeWill(flags: u8, s: bytes): Read<Option<Will>> {
    if !HasWill(flags) then Got(None, s)
    else
      var (topic, s) :- TakeBytes(s);
      var (message, s) :- TakeBytes(s);
      Got(Some(Will(topic, message, WillQoS(flags), WillRetain(flags))), s)
  }

  function TakeUser(flags: u8, s: bytes): Read<bytes> {
    if HasUserName(flags) then TakeBytes(s) else Got([], s)
  }

  /** ReadBytes yields nil for a length of zero. */
  function TakePassword(flags: u8, s: bytes): Read<Option<bytes>> {
    if HasPassword(flags) then
      var (bs, s) :- TakeBytes(s);
      Got(if bs == [] then None else Some(bs), s)
    else
      Got(None, s)
  }

  function TakeCredentials(flags: u8, s: bytes): Read<Option<Credentials>> {
    if !HasUserName(flags) && !HasPassword(flags) then Got(None, s)
    else
      var (user, s) :- TakeUser(flags, s);
      var (password, s) :- TakePassword(flags, s);
      Got(Some(Credentials(user, password)), s)
  }

  /** A CONNECT of protocol level 4 behind that level. */
  function ConnectTail(s: bytes): Read<Packet> {
    var (flags, s) :- TakeByte(s);
    var (keepAlive, s) :- TakeUint16(s);
    var (clientID, s) :- TakeBytes(s);
    var (will, s) :- TakeWill(Code(flags), s);
    var (creds, s) :- TakeCredentials(Code(flags), s);
    Got(ConnectPacket(Connect(clientID, creds, will, keepAlive, 4, Code(flags))), s)
  }

  function ConnectBody(s: bytes): Read<Packet> {
    var (proto, s) :- TakeBytes(s);
    if proto != PROTO then Fail(BadProtocolName, s) else
    var (level, s) :- TakeByte(s);
    if Code(level) != 4 then Fail(UnacceptableProtocolVersion, s) else ConnectTail(s)
  }

  function PublishBody(b: u8, s: bytes): Read<Packet> {
    var flags := b % 0x10;
    var (name, s) :- TakeBytes(s);
    if QoSLevel(flags) > 0 then
      var (id, s) :- TakeUint16(s);
      Got(PublishPacket(Publish(name, "", s, id, flags, false)), [])
    else
      Got(PublishPacket(Publish(name, "", s, 0, flags, false)), [])
  }

  function TakeTopics(s: bytes, acc: seq<Topic>): Read<seq<Topic>>
    decreases |s|
  {
    if s == [] then Got(acc, s)
    else
      var (name, s) :- TakeBytes(s);
      var (qos, s) :- TakeByte(s);
      if Code(qos) > 2 then Fail(MalformedQoS, s)
      else TakeTopics(s, acc + [Topic(name, Code(qos))])
  }

  function SubscribeBody(s: bytes): Read<Packet> {
    var (id, s) :- TakeUint16(s);
    var (topics, s) :- TakeTopics(s, []);
    Got(Subscribe(id, topics), s)
  }

  function TakeNames(s: bytes, acc: seq<bytes>): Read<seq<bytes>>
    decreases |s|
  {
    if s == [] then Got(acc, s)
    else
      var (name, s) :- TakeBytes(s);
      TakeNames(s, acc + [name])
  }

  function UnsubscribeBody(s: bytes): Read<Packet> {
    var (id, s) :- TakeUint16(s);
    var (names, s) :- TakeNames(s, []);
    Got(Unsubscribe(id, names), s)
  }

  function SubAckBody(s: bytes): Read<Packet> {
    var (id, s) :- TakeUint16(s);
    Got(SubAck(id, AsNumbers(s)), [])
  }

  // ---- frames

  /** The acknowledgements whose whole body is a packet identifier. */
  function IdPacket(tp: nat, id: u16): Packet
    requires tp in {4, 5, 6, 7, 0xb}
  {
    match tp
    case 4 => PubAck(id)
    case 5 => PubRec(id)
    case 6 => PubRel(id)
    case 7 => PubComp(id)
    case _ => UnsubAck(id)
  }

  function ParseId(tp: nat, n: nat, s: bytes): Read<Packet>
    requires tp in {4, 5, 6, 7, 0xb}
  {
    if n != 2 then Fail(MalformedPacket, s)
    else
      var (id, s) :- TakeUint16(s);
      Got(IdPacket(tp, id), s)
  }

  function ParseConnAck(n: nat, s: bytes): Read<Packet> {
    if n != 2 then Fail(MalformedPacket, s)
    else
      var (bs, s) :- TakeExact(s, 2);
      Got(ConnAck(Code(bs[0]), Code(bs[1])), s)
  }

  function FrameBody(b: u8, body: bytes): Read<Packet> {
    match b / 0x10
    case 1 => ConnectBody(body)
    case 3 => PublishBody(b, body)
    case 8 => SubscribeBody(body)
    case 9 => SubAckBody(body)
    case _ => UnsubscribeBody(body)
  }

  /** Bodies that are read into a frame of their own first; what the frame has left is dropped with it. */
  function ParseFrame(b: u8, n: nat, s: bytes): Read<Packet> {
    if b / 0x10 in {8, 0xa} && b % 0x10 != 2 then Fail(MalformedHeader, s)
    else
      var (body, left) :- TakeExact(s, n);
      FrameBody(b, body).Leaving(left)
  }

  function ParseOf(b: u8, n: nat, s: bytes): Read<Packet> {
    match b / 0x10
    case 2 => ParseConnAck(n, s)
    case 0xc => Got(PingRequest, s)
    case 0xd => Got(PingResponse, s)
    case 0xe => Got(Disconnect, s)
    case 0 => Fail(UnknownPacketType, s)
    case 0xf => Fail(UnknownPacketType, s)
    case tp => if tp in {1, 3, 8, 9, 0xa} then ParseFrame(b, n, s) else ParseId(tp, n, s)
  }

  /** The next packet: header byte, remaining length, body. */
  function ParsePacket(s: bytes): Read<Packet> {
    var (b, s) :- TakeByte(s);
    var (n, s) :- TakeVarInt(s);
    ParseOf(Code(b), n, s)
  }
}
