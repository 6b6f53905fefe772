// The writing and parsing code itself: Write of each packet type, Parse* of each packet type, and the
// dispatch on the header byte, each against the functions of Packets.
module Codec {
  import opened Basics
  import opened Wire
  import opened Packets

  // ---- Write

  method WriteConnect(c: Connect, w: Writer)
    requires Writable(ConnectPacket(c))
    modifies w
    ensures w.buf == old(w.buf) + Encode(ConnectPacket(c))
  {
    hide Str, U16, VarInt, HasWill, HasUserName, HasPassword;
    var pkLen := 2 + 4 + 1 + 1 + 2 + 2 + |c.clientID|;
    if HasWill(c.flags) {
      pkLen := pkLen + 2 + |c.will.value.topic|;
      pkLen := pkLen + 2 + |c.will.value.message|;
    }
    if HasUserName(c.flags) { pkLen := pkLen + 2 + |c.creds.value.user|; }
    if HasPassword(c.flags) { pkLen := pkLen + 2 + |PasswordBytes(c.creds.value)|; }
    w.WriteU8(0x10);
    w.WriteVarInt(pkLen);
    ghost var head := w.buf;
    WriteConnectBody(c, w);
    hide Body;
    assert w.buf == head + Body(ConnectPacket(c));
  }

  method WriteConnectBody(c: Connect, w: Writer)
    requires Writable(ConnectPacket(c))
    modifies w
    ensures w.buf == old(w.buf) + Body(ConnectPacket(c))
  {
    hide Str, U16, HasWill, HasUserName, HasPassword;
    ghost var head, fixed := w.buf, Str(PROTO) + [c.clientLevel as char] + [c.flags as char] + U16(c.keepAlive) + Str(c.clientID);
    w.WriteString(PROTO);
    w.WriteU8(c.clientLevel);
    w.WriteU8(c.flags);
    w.WriteU16(c.keepAlive);
    w.WriteString(c.clientID);
    assert w.buf == head + fixed;
    WriteConnectPayload(c, w);
  }

  /** The fields behind the client identifier, each there only if a flag says so. */
  method WriteConnectPayload(c: Connect, w: Writer)
    requires Writable(ConnectPacket(c))
    modifies w
    ensures w.buf == old(w.buf) + WillBytes(c.flags, c.will) + UserBytes(c.flags, c.creds) + SecretBytes(c.flags, c.creds)
  {
    hide Str, HasWill, HasUserName, HasPassword;
    if HasWill(c.flags) {
      w.WriteString(c.will.value.topic);
      w.WriteBytes(c.will.value.message);
    }
    assert w.buf == old(w.buf) + WillBytes(c.flags, c.will);
    if HasUserName(c.flags) { w.WriteString(c.creds.value.user); }
    assert w.buf == old(w.buf) + WillBytes(c.flags, c.will) + UserBytes(c.flags, c.creds);
    if HasPassword(c.flags) { w.WriteBytes(PasswordBytes(c.creds.value)); }
  }

  method WritePublish(m: Publish, w: Writer)
    modifies w
    ensures w.buf == old(w.buf) + Encode(PublishPacket(m))
  {
    hide Str, U16, VarInt, QoSLevel;
    w.WriteU8(m.flags / 0x40 * 0x40 + 0x30 + m.flags % 0x10);
    var pkLen := 2 + |m.name| + |m.payload|;
    if QoSLevel(m.flags) > 0 { pkLen := pkLen + 2; }
    w.WriteVarInt(pkLen);
    ghost var head, id := w.buf, if QoSLevel(m.flags) > 0 then U16(m.id) else [];
    w.WriteString(m.name);
    if QoSLevel(m.flags) > 0 { w.WriteU16(m.id); }
    w.Write(m.payload);
    assert w.buf == head + (Str(m.name) + id + m.payload);
  }

  method WriteSubscribe(id: u16, topics: seq<Topic>, w: Writer)
    modifies w
    ensures w.buf == old(w.buf) + Encode(Subscribe(id, topics))
  {
    hide U16, VarInt, TopicBytes;
    var pkLen := 2;
    for i := 0 to |topics|
      invariant pkLen + TopicsLength(topics[i..]) == 2 + TopicsLength(topics)
    {
      assert topics[i..][1..] == topics[i + 1..];
      pkLen := pkLen + 3 + |topics[i].name|;
    }
    w.WriteU8(0x80 + 2);
    w.WriteVarInt(pkLen);
    ghost var head := w.buf;
    w.WriteU16(id);
    WriteTopics(topics, w);
    assert w.buf == head + Body(Subscribe(id, topics));
  }

  method WriteTopics(topics: seq<Topic>, w: Writer)
    modifies w
    ensures w.buf == old(w.buf) + TopicBytes(topics)
  {
    hide Str;
    for i := 0 to |topics|
      invariant w.buf + TopicBytes(topics[i..]) == old(w.buf) + TopicBytes(topics)
    {
      assert topics[i..][1..] == topics[i + 1..];
      w.WriteString(topics[i].name);
      w.WriteU8(topics[i].qos);
    }
  }

  method WriteUnsubscribe(id: u16, names: seq<bytes>, w: Writer)
    modifies w
    ensures w.buf == old(w.buf) + Encode(Unsubscribe(id, names))
  {
    hide U16, VarInt, NameBytes;
    var pkLen := 2;
    for i := 0 to |names|
      invariant pkLen + NamesLength(names[i..]) == 2 + NamesLength(names)
    {
      assert names[i..][1..] == names[i + 1..];
      pkLen := pkLen + 2 + |names[i]|;
    }
    w.WriteU8(0xa0 + 2);
    w.WriteVarInt(pkLen);
    ghost var head := w.buf;
    w.WriteU16(id);
    WriteNames(names, w);
    assert w.buf == head + Body(Unsubscribe(id, names));
  }

  method WriteNames(names: seq<bytes>, w: Writer)
    modifies w
    ensures w.buf == old(w.buf) + NameBytes(names)
  {
    hide Str;
    for i := 0 to |names|
      invariant w.buf + NameBytes(names[i..]) == old(w.buf) + NameBytes(names)
    {
      assert names[i..][1..] == names[i + 1..];
      w.WriteString(names[i]);
    }
  }

  method WriteId(tp: nat, id: u16, w: Writer)
    requires tp in {4, 5, 6, 7, 0xb}
    modifies w
    ensures w.buf == old(w.buf) + Encode(IdPacket(tp, id))
  {
    w.WriteU8(tp * 0x10);
    w.WriteU8(2);
    w.WriteU16(id);
  }

  method WriteConnAck(flags: u8, code: u8, w: Writer)
    modifies w
    ensures w.buf == old(w.buf) + Encode(ConnAck(flags, code))
  {
    w.WriteU8(0x20);
    w.WriteU8(2);
    w.WriteU8(flags);
    w.WriteU8(code);
  }

  method WriteSubAck(id: u16, codes: seq<u8>, w: Writer)
    modifies w
    ensures w.buf == old(w.buf) + Encode(SubAck(id, codes))
  {
    hide U16, VarInt, AsBytes;
    w.WriteU8(0x90);
    w.WriteVarInt(2 + |codes|);
    w.WriteU16(id);
    w.Write(AsBytes(codes));
  }

  /** PINGREQ, PINGRESP and DISCONNECT. */
  method WriteEmpty(p: Packet, w: Writer)
    requires p.PingRequest? || p.PingResponse? || p.Disconnect?
    modifies w
    ensures w.buf == old(w.buf) + Encode(p)
  {
    w.WriteU8(Header(p));
    w.WriteU8(0);
  }

  /** Packet.Write of every packet type. */
  method WritePacket(p: Packet, w: Writer)
    requires Writable(p)
    modifies w
    ensures w.buf == old(w.buf) + Encode(p)
  {
    hide Encode, Writable;
    match p {
      case ConnectPacket(c) => WriteConnect(c, w);
      case ConnAck(flags, code) => WriteConnAck(flags, code, w);
      case PublishPacket(m) => WritePublish(m, w);
      case PubAck(id) => WriteId(4, id, w);
      case PubRec(id) => WriteId(5, id, w);
      case PubRel(id) => WriteId(6, id, w);
      case PubComp(id) => WriteId(7, id, w);
      case Subscribe(id, topics) => WriteSubscribe(id, topics, w);
      case SubAck(id, codes) => WriteSubAck(id, codes, w);
      case Unsubscribe(id, names) => WriteUnsubscribe(id, names, w);
      case UnsubAck(id) => WriteId(0xb, id, w);
      case _ => WriteEmpty(p, w);
    }
  }

  // ---- Parse

  method ParseWill(r: Reader, flags: u8) returns (res: Result<Option<Will>, Error>)
    modifies r
    ensures res == TakeWill(flags, old(r.data)).Outcome()
    ensures res.Success? ==> r.data == TakeWill(flags, old(r.data)).rest
  {
    hide TakeBytes, HasWill, WillQoS, WillRetain;
    if !HasWill(flags) { return Success(None); }
    var topic :- r.ReadBytes();
    var message :- r.ReadBytes();
    res := Success(Some(Will(topic, message, WillQoS(flags), WillRetain(flags))));
  }

  method ParseCredentials(r: Reader, flags: u8) returns (res: Result<Option<Credentials>, Error>)
    modifies r
    ensures res == TakeCredentials(flags, old(r.data)).Outcome()
  {
    hide TakeBytes, HasUserName, HasPassword;
    if !HasUserName(flags) && !HasPassword(flags) { return Success(None); }
    var creds := Credentials([], None);
    if HasUserName(flags) {
      var user :- r.ReadBytes();
      creds := Credentials(user, None);
    }
    if HasPassword(flags) {
      var bs :- r.ReadBytes();
      creds := creds.(password := if bs == [] then None else Some(bs));
    }
    res := Success(Some(creds));
  }

  method ParseConnect(outer: Reader, n: nat) returns (res: Result<Packet, Error>)
    modifies outer
    ensures res == ParseFrame(0x10, n, old(outer.data)).Outcome() && outer.data == ParseFrame(0x10, n, old(outer.data)).rest
  {
    hide TakeBytes, TakeUint16, TakeWill, TakeCredentials;
    var r :- outer.ReadPacket(n);
    var proto :- r.ReadBytes();
    if proto != PROTO { return Failure(BadProtocolName); }
    var level :- r.ReadByte();
    if Code(level) != 4 { return Failure(UnacceptableProtocolVersion); }
    var f :- r.ReadByte();
    var flags := Code(f);
    var keepAlive :- r.ReadUint16();
    var clientID :- r.ReadBytes();
    var will :- ParseWill(r, flags);
    var creds :- ParseCredentials(r, flags);
    res := Success(ConnectPacket(Connect(clientID, creds, will, keepAlive, Code(level), flags)));
  }

  method ParsePublish(outer: Reader, b: u8, n: nat) returns (res: Result<Packet, Error>)
    requires b / 0x10 == 3
    modifies outer
    ensures res == ParseFrame(b, n, old(outer.data)).Outcome() && outer.data == ParseFrame(b, n, old(outer.data)).rest
  {
    var r :- outer.ReadPacket(n);
    var pp := Publish([], [], [], 0, b % 0x10, false);
    var name :- r.ReadBytes();
    pp := pp.(name := name);
    if QoSLevel(pp.flags) > 0 {
      var id :- r.ReadUint16();
      pp := pp.(id := id);
    }
    assert r.data[..|r.data|] == r.data;
    var payload := r.ReadExact(|r.data|);
    res := Success(PublishPacket(pp.(payload := payload.value)));
  }

  method ParseSubscribe(outer: Reader, b: u8, n: nat) returns (res: Result<Packet, Error>)
    requires b / 0x10 == 8
    modifies outer
    ensures res == ParseFrame(b, n, old(outer.data)).Outcome() && outer.data == ParseFrame(b, n, old(outer.data)).rest
  {
    if b % 0x10 != 2 { return Failure(MalformedHeader); }
    var r :- outer.ReadPacket(n);
    var id :- r.ReadUint16();
    ghost var body := r.data;
    var topics: seq<Topic> := [];
    while |r.data| > 0
      invariant TakeTopics(r.data, topics) == TakeTopics(body, [])
      invariant outer.data == old(outer.data[n..]) && r != outer
      modifies r
      decreases |r.data|
    {
      var name :- r.ReadBytes();
      var qos :- r.ReadByte();
      if Code(qos) > 2 { return Failure(MalformedQoS); }
      topics := topics + [Topic(name, Code(qos))];
    }
    res := Success(Subscribe(id, topics));
  }

  method ParseUnsubscribe(outer: Reader, b: u8, n: nat) returns (res: Result<Packet, Error>)
    requires b / 0x10 == 0xa
    modifies outer
    ensures res == ParseFrame(b, n, old(outer.data)).Outcome() && outer.data == ParseFrame(b, n, old(outer.data)).rest
  {
    if b % 0x10 != 2 { return Failure(MalformedHeader); }
    var r :- outer.ReadPacket(n);
    var id :- r.ReadUint16();
    ghost var body := r.data;
    var names: seq<bytes> := [];
    while |r.data| > 0
      invariant TakeNames(r.data, names) == TakeNames(body, [])
      invariant outer.data == old(outer.data[n..]) && r != outer
      modifies r
      decreases |r.data|
    {
      var name :- r.ReadBytes();
      names := names + [name];
    }
    res := Success(Unsubscribe(id, names));
  }

  method ParseSubAck(outer: Reader, b: u8, n: nat) returns (res: Result<Packet, Error>)
    requires b / 0x10 == 9
    modifies outer
    ensures res == ParseFrame(b, n, old(outer.data)).Outcome() && outer.data == ParseFrame(b, n, old(outer.data)).rest
  {
    var r :- outer.ReadPacket(n);
    var id :- r.ReadUint16();
    assert r.data[..n - 2] == r.data;
    var bs := r.ReadExact(n - 2);
    res := Success(SubAck(id, AsNumbers(bs.value)));
  }

  method ParseIdPacket(r: Reader, tp: nat, n: nat) returns (res: Result<Packet, Error>)
    requires tp in {4, 5, 6, 7, 0xb}
    modifies r
    ensures res == ParseId(tp, n, old(r.data)).Outcome() && r.data == ParseId(tp, n, old(r.data)).rest
  {
    if n != 2 { return Failure(MalformedPacket); }
    var id :- r.ReadUint16();
    res := Success(IdPacket(tp, id));
  }

  method ParseConnAckPacket(r: Reader, n: nat) returns (res: Result<Packet, Error>)
    modifies r
    ensures res == ParseConnAck(n, old(r.data)).Outcome() && r.data == ParseConnAck(n, old(r.data)).rest
  {
    if n != 2 { return Failure(MalformedPacket); }
    var bs :- r.ReadExact(2);
    res := Success(ConnAck(Code(bs[0]), Code(bs[1])));
  }

  /** The next packet on the stream. */
  method Parse(r: Reader) returns (res: Result<Packet, Error>)
    modifies r
    ensures res == ParsePacket(old(r.data)).Outcome() && r.data == ParsePacket(old(r.data)).rest
  {
    hide TakeVarInt, ParseFrame, ParseId, ParseConnAck, TakeUint16, TakeBytes;
    var first :- r.ReadByte();
    var n :- r.ReadVarInt();
    var b := Code(first);
    match b / 0x10 {
      case 1 => FrameIgnoresConnectFlags(b, n, r.data); res := ParseConnect(r, n);
      case 2 => res := ParseConnAckPacket(r, n);
      case 3 => res := ParsePublish(r, b, n);
      case 4 => res := ParseIdPacket(r, 4, n);
      case 5 => res := ParseIdPacket(r, 5, n);
      case 6 => res := ParseIdPacket(r, 6, n);
      case 7 => res := ParseIdPacket(r, 7, n);
      case 8 => res := ParseSubscribe(r, b, n);
      case 9 => res := ParseSubAck(r, b, n);
      case 0xa => res := ParseUnsubscribe(r, b, n);
      case 0xb => res := ParseIdPacket(r, 0xb, n);
      case 0xc => res := Success(PingRequest);
      case 0xd => res := Success(PingResponse);
      case 0xe => res := Success(Disconnect);
      case _ => res := Failure(UnknownPacketType);
    }
  }

  lemma FrameIgnoresConnectFlags(b: u8, n: nat, s: bytes)
    requires b / 0x10 == 1
    ensures ParseFrame(b, n, s) == ParseFrame(0x10, n, s)
  {
  }
}
