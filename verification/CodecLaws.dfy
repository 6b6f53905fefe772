// Laws of the MQTT codec: printing and parsing undo each other, packet by packet and over whole streams.
module CodecLaws {
  import opened Basics
  import opened Wire
  import opened Packets

  // ---- which packets a parser can yield

  predicate Short(s: bytes) { |s| < 0x1_0000 }

  predicate WillAgrees(flags: u8, will: Option<Will>) {
    match will
    case None => !HasWill(flags)
    case Some(w) =>
      HasWill(flags) && Short(w.topic) && Short(w.message) && w.qos == WillQoS(flags) && w.retain == WillRetain(flags)
  }

  predicate CredentialsAgree(flags: u8, creds: Option<Credentials>) {
    match creds
    case None => !HasUserName(flags) && !HasPassword(flags)
    case Some(c) =>
      && (HasUserName(flags) || HasPassword(flags))
      && (if HasUserName(flags) then Short(c.user) else c.user == "")
      && (c.password.Some? ==> HasPassword(flags) && Short(c.password.value) && c.password.value != [])
  }

  /** Flags and fields tell the same story, every string and byte field fits its length prefix, the whole fits a frame. */
  predicate WellFormed(p: Packet) {
    && Writable(p)
    && RemainingLength(p) <= MAX_REMAINING
    && match p
       case ConnectPacket(c) =>
         c.clientLevel == 4 && Short(c.clientID) && WillAgrees(c.flags, c.will) && CredentialsAgree(c.flags, c.creds)
       case PublishPacket(m) =>
         m.flags < 0x10 && Short(m.name) && m.replyTo == "" && !m.sentByUs && (QoSLevel(m.flags) == 0 ==> m.id == 0)
       case Subscribe(_, ts) => forall i :: 0 <= i < |ts| ==> Short(ts[i].name) && ts[i].qos <= 2
       case Unsubscribe(_, ns) => forall i :: 0 <= i < |ns| ==> Short(ns[i])
       case _ => true
  }

  // ---- the declared length

  lemma {:induction false} TopicBytesLength(ts: seq<Topic>)
    ensures |TopicBytes(ts)| == TopicsLength(ts)
  {
    if ts != [] { TopicBytesLength(ts[1..]); }
  }

  lemma {:induction false} NameBytesLength(ns: seq<bytes>)
    ensures |NameBytes(ns)| == NamesLength(ns)
  {
    if ns != [] { NameBytesLength(ns[1..]); }
  }

  /** The declared remaining length is the number of bytes then written, over-long strings included. */
  lemma DeclaredLength(p: Packet)
    requires Writable(p)
    ensures RemainingLength(p) == |Body(p)|
  {
    match p
    case Subscribe(_, ts) => TopicBytesLength(ts);
    case Unsubscribe(_, ns) => NameBytesLength(ns);
    case _ =>
  }

  // ---- parsing what was printed

  lemma WillRoundTrip(flags: u8, will: Option<Will>, rest: bytes)
    requires WillAgrees(flags, will)
    ensures TakeWill(flags, WillBytes(flags, will) + rest) == Got(will, rest)
  {
    hide Str, U16, TakeBytes, TakeUint16;
    if will.Some? {
      var w := will.value;
      BytesRoundTrip(w.topic, Str(w.message) + rest);
      BytesRoundTrip(w.message, rest);
      assert WillBytes(flags, will) + rest == Str(w.topic) + (Str(w.message) + rest);
    } else {
      assert WillBytes(flags, will) + rest == rest;
    }
  }

  lemma CredentialsRoundTrip(flags: u8, creds: Option<Credentials>, rest: bytes)
    requires CredentialsAgree(flags, creds)
    ensures TakeCredentials(flags, UserBytes(flags, creds) + SecretBytes(flags, creds) + rest) == Got(creds, rest)
  {
    hide Str, U16, TakeBytes, TakeUint16;
    var user, secret := UserBytes(flags, creds), SecretBytes(flags, creds);
    assert user + secret + rest == user + (secret + rest);
    if HasUserName(flags) {
      BytesRoundTrip(creds.value.user, secret + rest);
    } else {
      assert user + (secret + rest) == secret + rest;
    }
    if HasPassword(flags) {
      BytesRoundTrip(PasswordBytes(creds.value), rest);
    } else {
      assert secret + rest == rest;
    }
  }

  lemma ConnectRoundTrip(c: Connect)
    requires WellFormed(ConnectPacket(c))
    ensures ConnectBody(Body(ConnectPacket(c))) == Got(ConnectPacket(c), [])
  {
    hide Str, U16, TakeBytes, TakeUint16, TakeWill, TakeCredentials, WillBytes, UserBytes, SecretBytes;
    var s5 := UserBytes(c.flags, c.creds) + SecretBytes(c.flags, c.creds) + [];
    var s4 := WillBytes(c.flags, c.will) + s5;
    var s3 := Str(c.clientID) + s4;
    var s2 := U16(c.keepAlive) + s3;
    var s1 := [c.flags as char] + s2;
    var s0 := [c.clientLevel as char] + s1;
    assert Body(ConnectPacket(c)) == Str(PROTO) + s0;
    BytesRoundTrip(PROTO, s0);
    assert s0[1..] == s1 && s1[1..] == s2;
    Uint16RoundTrip(c.keepAlive, s3);
    BytesRoundTrip(c.clientID, s4);
    WillRoundTrip(c.flags, c.will, s5);
    CredentialsRoundTrip(c.flags, c.creds, []);
  }

  lemma PublishRoundTrip(m: Publish)
    requires WellFormed(PublishPacket(m))
    ensures m.flags < 0x10 && PublishBody(0x30 + m.flags, Body(PublishPacket(m))) == Got(PublishPacket(m), [])
  {
    hide Str, U16, TakeBytes, TakeUint16, QoSLevel;
    var s := (if QoSLevel(m.flags) > 0 then U16(m.id) else []) + m.payload;
    assert Body(PublishPacket(m)) == Str(m.name) + s;
    BytesRoundTrip(m.name, s);
    if QoSLevel(m.flags) > 0 {
      Uint16RoundTrip(m.id, m.payload);
    } else {
      assert s == m.payload;
    }
  }

  lemma {:induction false} TopicsRoundTrip(ts: seq<Topic>, acc: seq<Topic>)
    requires forall i :: 0 <= i < |ts| ==> Short(ts[i].name) && ts[i].qos <= 2
    ensures TakeTopics(TopicBytes(ts), acc) == Got(acc + ts, [])
  {
    hide Str, U16, TakeBytes, TakeUint16;
    if ts == [] {
      assert acc + ts == acc;
    } else {
      var t, tail := ts[0], TopicBytes(ts[1..]);
      assert TopicBytes(ts) == Str(t.name) + ([t.qos as char] + tail);
      BytesRoundTrip(t.name, [t.qos as char] + tail);
      assert ([t.qos as char] + tail)[1..] == tail;
      TopicsRoundTrip(ts[1..], acc + [t]);
      assert acc + [t] + ts[1..] == acc + ts;
    }
  }

  lemma {:induction false} NamesRoundTrip(ns: seq<bytes>, acc: seq<bytes>)
    requires forall i :: 0 <= i < |ns| ==> Short(ns[i])
    ensures TakeNames(NameBytes(ns), acc) == Got(acc + ns, [])
  {
    hide Str, U16, TakeBytes, TakeUint16;
    if ns == [] {
      assert acc + ns == acc;
    } else {
      BytesRoundTrip(ns[0], NameBytes(ns[1..]));
      NamesRoundTrip(ns[1..], acc + [ns[0]]);
      assert acc + [ns[0]] + ns[1..] == acc + ns;
    }
  }

  lemma NumbersRoundTrip(ns: seq<u8>, bs: bytes)
    ensures AsNumbers(AsBytes(ns)) == ns
    ensures IsBytes(bs) ==> AsBytes(AsNumbers(bs)) == bs
  {
  }

  lemma SubscribeRoundTrip(p: Packet)
    requires WellFormed(p) && p.Subscribe?
    ensures SubscribeBody(Body(p)) == Got(p, [])
  {
    Uint16RoundTrip(p.id, TopicBytes(p.topics));
    TopicsRoundTrip(p.topics, []);
    assert [] + p.topics == p.topics;
  }

  lemma SubAckRoundTrip(p: Packet)
    requires WellFormed(p) && p.SubAck?
    ensures SubAckBody(Body(p)) == Got(p, [])
  {
    Uint16RoundTrip(p.id, AsBytes(p.topicReturns));
    NumbersRoundTrip(p.topicReturns, []);
  }

  lemma UnsubscribeRoundTrip(p: Packet)
    requires WellFormed(p) && p.Unsubscribe?
    ensures UnsubscribeBody(Body(p)) == Got(p, [])
  {
    Uint16RoundTrip(p.id, NameBytes(p.names));
    NamesRoundTrip(p.names, []);
    assert [] + p.names == p.names;
  }

  predicate Framed(p: Packet) {
    p.ConnectPacket? || p.PublishPacket? || p.Subscribe? || p.SubAck? || p.Unsubscribe?
  }

  lemma FrameBodyRoundTrip(p: Packet)
    requires WellFormed(p) && Framed(p)
    ensures Header(p) / 0x10 in {1, 3, 8, 9, 0xa} && (Header(p) / 0x10 in {8, 0xa} ==> Header(p) % 0x10 == 2)
    ensures FrameBody(Header(p), Body(p)) == Got(p, [])
  {
    hide WellFormed, Writable, Body, ConnectBody, PublishBody, SubscribeBody, SubAckBody, UnsubscribeBody;
    match p {
      case ConnectPacket(c) => ConnectRoundTrip(c);
      case PublishPacket(m) => PublishRoundTrip(m);
      case Subscribe(_, _) => SubscribeRoundTrip(p);
      case SubAck(_, _) => SubAckRoundTrip(p);
      case Unsubscribe(_, _) => UnsubscribeRoundTrip(p);
    }
  }

  lemma FrameRoundTrip(p: Packet, rest: bytes)
    requires WellFormed(p) && Framed(p)
    ensures Header(p) / 0x10 in {1, 3, 8, 9, 0xa}
    ensures ParseFrame(Header(p), RemainingLength(p), Body(p) + rest) == Got(p, rest)
  {
    FrameBodyRoundTrip(p);
    DeclaredLength(p);
    hide WellFormed, Writable, Body, RemainingLength, FrameBody, Header, Framed;
    ExactRoundTrip(Body(p), rest);
  }

  lemma FitsFrame(p: Packet)
    requires WellFormed(p)
    ensures Writable(p) && RemainingLength(p) <= MAX_REMAINING
  {
  }

  lemma BodyRoundTrip(p: Packet, rest: bytes)
    requires WellFormed(p)
    ensures Writable(p) && RemainingLength(p) <= MAX_REMAINING
    ensures ParseOf(Header(p), RemainingLength(p), Body(p) + rest) == Got(p, rest)
  {
    hide U16, TakeUint16, ParseFrame, WellFormed;
    FitsFrame(p);
    match p
    case ConnAck(_, _) => ExactRoundTrip(Body(p), rest);
    case PubAck(id) => Uint16RoundTrip(id, rest);
    case PubRec(id) => Uint16RoundTrip(id, rest);
    case PubRel(id) => Uint16RoundTrip(id, rest);
    case PubComp(id) => Uint16RoundTrip(id, rest);
    case UnsubAck(id) => Uint16RoundTrip(id, rest);
    case PingRequest => assert Body(p) + rest == rest;
    case PingResponse => assert Body(p) + rest == rest;
    case Disconnect => assert Body(p) + rest == rest;
    case _ => FrameRoundTrip(p, rest);
  }

  lemma HeadRoundTrip(h: byte, n: nat, t: bytes)
    requires n <= MAX_REMAINING
    ensures TakeByte([h] + VarInt(n) + t) == Got(h, VarInt(n) + t)
    ensures TakeVarInt(VarInt(n) + t) == Got(n, t)
  {
    VarIntRoundTrip(n, t);
    hide VarInt, TakeVarInt;
    assert ([h] + VarInt(n) + t)[1..] == VarInt(n) + t;
  }

  lemma PacketRoundTrip(p: Packet, rest: bytes)
    requires WellFormed(p)
    ensures ParsePacket(Encode(p) + rest) == Got(p, rest)
  {
    hide WellFormed, Writable, VarInt, TakeVarInt, TakeByte, ParseOf, Body, RemainingLength;
    BodyRoundTrip(p, rest);
    HeadRoundTrip(Header(p) as char, RemainingLength(p), Body(p) + rest);
    assert Encode(p) + rest == [Header(p) as char] + VarInt(RemainingLength(p)) + (Body(p) + rest);
  }

  // ---- printing what was parsed

  lemma WillTaken(flags: u8, s: bytes)
    requires IsBytes(s) && TakeWill(flags, s).Got?
    ensures var r := TakeWill(flags, s);
            WillAgrees(flags, r.value) && IsBytes(r.rest) && s == WillBytes(flags, r.value) + r.rest
  {
    hide Str, U16, TakeBytes, TakeUint16;
    if HasWill(flags) {
      BytesTaken(s);
      BytesTaken(TakeBytes(s).rest);
      var w, rest := TakeWill(flags, s).value.value, TakeWill(flags, s).rest;
      assert s == Str(w.topic) + (Str(w.message) + rest);
      assert Str(w.topic) + (Str(w.message) + rest) == Str(w.topic) + Str(w.message) + rest;
    } else {
      assert [] + s == s;
    }
  }

  lemma UserTaken(flags: u8, s: bytes)
    requires IsBytes(s) && TakeUser(flags, s).Got?
    ensures var r := TakeUser(flags, s);
            && IsBytes(r.rest) && (if HasUserName(flags) then Short(r.value) else r.value == [])
            && s == UserBytes(flags, Some(Credentials(r.value, None))) + r.rest
  {
    hide Str, TakeBytes, HasUserName;
    if HasUserName(flags) { BytesTaken(s); } else { assert [] + s == s; }
  }

  lemma PasswordTaken(flags: u8, s: bytes)
    requires IsBytes(s) && TakePassword(flags, s).Got?
    ensures var r := TakePassword(flags, s);
            && (r.value.Some? ==> HasPassword(flags) && Short(r.value.value) && r.value.value != [])
            && s == SecretBytes(flags, Some(Credentials([], r.value))) + r.rest
  {
    hide Str, TakeBytes, HasPassword;
    if HasPassword(flags) { BytesTaken(s); } else { assert [] + s == s; }
  }

  lemma CredentialsTaken(flags: u8, s: bytes)
    requires IsBytes(s) && TakeCredentials(flags, s).Got?
    ensures var r := TakeCredentials(flags, s);
            && CredentialsAgree(flags, r.value)
            && s == UserBytes(flags, r.value) + SecretBytes(flags, r.value) + r.rest
  {
    hide Str, TakeUser, TakePassword, HasUserName, HasPassword;
    var r := TakeCredentials(flags, s);
    if r.value.Some? {
      UserTaken(flags, s);
      PasswordTaken(flags, TakeUser(flags, s).rest);
      var user, secret := UserBytes(flags, r.value), SecretBytes(flags, r.value);
      assert user + (secret + r.rest) == user + secret + r.rest;
    } else {
      assert [] + [] + s == s;
    }
  }

  lemma Regroup(s: bytes, done: bytes, left: bytes, part: bytes, rest: bytes)
    requires s == done + left && left == part + rest
    ensures s == done + part + rest
  {
  }

  lemma ConnectPartsTaken(s: bytes)
    requires IsBytes(s) && ConnectBody(s).Got?
    ensures var r := ConnectBody(s);
            && r.value.ConnectPacket? && Writable(r.value) && s == Body(r.value) + r.rest
            && var c := r.value.connect;
               c.clientLevel == 4 && Short(c.clientID) && WillAgrees(c.flags, c.will) && CredentialsAgree(c.flags, c.creds)
  {
    hide Str, U16, TakeBytes, TakeUint16, TakeWill, TakeCredentials, WillBytes, UserBytes, SecretBytes;
    BytesTaken(s);
    var r := ConnectBody(s);
    var c := r.value.connect;
    var s0 := TakeBytes(s).rest;
    var s1 := s0[1..];
    var s2 := s1[1..];
    Uint16Taken(s2);
    var s3 := TakeUint16(s2).rest;
    BytesTaken(s3);
    var s4 := TakeBytes(s3).rest;
    WillTaken(c.flags, s4);
    var s5 := TakeWill(c.flags, s4).rest;
    CredentialsTaken(c.flags, s5);
    var level, flags := [c.clientLevel as char], [c.flags as char];
    var will, user, secret := WillBytes(c.flags, c.will), UserBytes(c.flags, c.creds), SecretBytes(c.flags, c.creds);
    assert s0 == level + s1 && s1 == flags + s2;
    hide *;
    var d := Str(PROTO);
    Regroup(s, d, s0, level, s1);
    Regroup(s, d + level, s1, flags, s2);
    Regroup(s, d + level + flags, s2, U16(c.keepAlive), s3);
    Regroup(s, d + level + flags + U16(c.keepAlive), s3, Str(c.clientID), s4);
    Regroup(s, d + level + flags + U16(c.keepAlive) + Str(c.clientID), s4, will, s5);
    Regroup(s, d + level + flags + U16(c.keepAlive) + Str(c.clientID) + will, s5, user + secret, r.rest);
    assert d + level + flags + U16(c.keepAlive) + Str(c.clientID) + will + (user + secret)
        == d + level + flags + U16(c.keepAlive) + Str(c.clientID) + will + user + secret;
  }

  /** What a CONNECT parser leaves unread behind the last field is all that printing does not give back. */
  lemma ConnectTaken(s: bytes)
    requires IsBytes(s) && ConnectBody(s).Got? && |s| <= MAX_REMAINING
    ensures var r := ConnectBody(s); r.value.ConnectPacket? && WellFormed(r.value) && s == Body(r.value) + r.rest
  {
    ConnectPartsTaken(s);
    hide ConnectBody, Body, RemainingLength;
    DeclaredLength(ConnectBody(s).value);
  }

  lemma PublishTaken(b: u8, s: bytes)
    requires IsBytes(s) && PublishBody(b, s).Got? && |s| <= MAX_REMAINING
    ensures var p := PublishBody(b, s).value;
            WellFormed(p) && p.PublishPacket? && p.publish.flags == b % 0x10 && Body(p) == s
  {
    hide Str, U16, TakeBytes, TakeUint16;
    BytesTaken(s);
    var p := PublishBody(b, s).value;
    if QoSLevel(p.publish.flags) > 0 {
      Uint16Taken(TakeBytes(s).rest);
    }
    assert Body(p) == s;
    DeclaredLength(p);
  }

  lemma {:induction false} TopicsTaken(s: bytes, acc: seq<Topic>)
    requires IsBytes(s) && TakeTopics(s, acc).Got?
    ensures var r := TakeTopics(s, acc);
            && r.rest == [] && |r.value| >= |acc| && r.value[..|acc|] == acc
            && (forall i :: |acc| <= i < |r.value| ==> Short(r.value[i].name) && r.value[i].qos <= 2)
            && s == TopicBytes(r.value[|acc|..])
    decreases |s|
  {
    hide Str, U16, TakeBytes, TakeUint16;
    var r := TakeTopics(s, acc);
    if s != [] {
      BytesTaken(s);
      var name, s1 := TakeBytes(s).value, TakeBytes(s).rest;
      var t := Topic(name, Code(s1[0]));
      TopicsTaken(s1[1..], acc + [t]);
      var ts := r.value[|acc|..];
      assert r.value[..|acc| + 1] == acc + [t];
      assert ts[0] == t && ts[1..] == r.value[|acc| + 1..];
      assert s1 == [t.qos as char] + s1[1..];
      assert s == Str(t.name) + [t.qos as char] + s1[1..];
    }
  }

  lemma {:induction false} NamesTaken(s: bytes, acc: seq<bytes>)
    requires IsBytes(s) && TakeNames(s, acc).Got?
    ensures var r := TakeNames(s, acc);
            && r.rest == [] && |r.value| >= |acc| && r.value[..|acc|] == acc
            && (forall i :: |acc| <= i < |r.value| ==> Short(r.value[i]))
            && s == NameBytes(r.value[|acc|..])
    decreases |s|
  {
    hide Str, U16, TakeBytes, TakeUint16;
    var r := TakeNames(s, acc);
    if s != [] {
      BytesTaken(s);
      var name := TakeBytes(s).value;
      NamesTaken(TakeBytes(s).rest, acc + [name]);
      var ns := r.value[|acc|..];
      assert r.value[..|acc| + 1] == acc + [name];
      assert ns[0] == name && ns[1..] == r.value[|acc| + 1..];
    }
  }

  lemma ListsTaken(tp: nat, s: bytes)
    requires IsBytes(s) && |s| <= MAX_REMAINING
    ensures tp == 8 && SubscribeBody(s).Got? ==> var p := SubscribeBody(s).value; WellFormed(p) && p.Subscribe? && Body(p) == s
    ensures tp == 9 && SubAckBody(s).Got? ==> var p := SubAckBody(s).value; WellFormed(p) && p.SubAck? && Body(p) == s
    ensures tp == 10 && UnsubscribeBody(s).Got? ==> var p := UnsubscribeBody(s).value; WellFormed(p) && p.Unsubscribe? && Body(p) == s
  {
    hide U16, TakeUint16, TakeTopics, TakeNames, TopicBytes, NameBytes;
    if TakeUint16(s).Got? {
      Uint16Taken(s);
      var rest := TakeUint16(s).rest;
      if tp == 8 && SubscribeBody(s).Got? {
        TopicsTaken(rest, []);
        var ts := TakeTopics(rest, []).value;
        assert ts[0..] == ts;
        DeclaredLength(SubscribeBody(s).value);
      } else if tp == 9 && SubAckBody(s).Got? {
        NumbersRoundTrip([], rest);
        DeclaredLength(SubAckBody(s).value);
      } else if tp == 10 && UnsubscribeBody(s).Got? {
        NamesTaken(rest, []);
        var ns := TakeNames(rest, []).value;
        assert ns[0..] == ns;
        DeclaredLength(UnsubscribeBody(s).value);
      }
    }
  }

  lemma FrameBodyTaken(b: u8, body: bytes)
    requires IsBytes(body) && |body| <= MAX_REMAINING && b / 0x10 in {1, 3, 8, 9, 0xa} && FrameBody(b, body).Got?
    ensures var p := FrameBody(b, body).value;
            && WellFormed(p) && Framed(p) && (p.ConnectPacket? <==> b / 0x10 == 1)
            && if p.ConnectPacket? then Body(p) <= body else Body(p) == body
  {
    hide ConnectBody, PublishBody, SubscribeBody, SubAckBody, UnsubscribeBody, WellFormed, Body, Writable;
    match b / 0x10 {
      case 1 => ConnectTaken(body);
      case 3 => PublishTaken(b, body);
      case _ => ListsTaken(b / 0x10, body);
    }
  }

  lemma FrameTaken(b: u8, n: nat, s: bytes)
    requires IsBytes(s) && n <= MAX_REMAINING && b / 0x10 in {1, 3, 8, 9, 0xa} && ParseFrame(b, n, s).Got?
    ensures var r := ParseFrame(b, n, s);
            && WellFormed(r.value) && Framed(r.value) && n <= |s| && r.rest == s[n..]
            && (!r.value.ConnectPacket? ==> s[..n] == Body(r.value))
  {
    hide FrameBody, WellFormed, Body, Writable, Framed;
    FrameBodyTaken(b, s[..n]);
  }

  lemma ParsedIsWellFormed(s: bytes)
    requires IsBytes(s) && ParsePacket(s).Got?
    ensures WellFormed(ParsePacket(s).value) && |ParsePacket(s).rest| < |s| && IsBytes(ParsePacket(s).rest)
  {
    var n := TakeVarInt(s[1..]);
    VarIntTaken(s[1..]);
    ParsedOfIsWellFormed(Code(s[0]), n.value, n.rest);
    hide TakeVarInt, ParseOf, WellFormed;
    var t, rest := n.rest, ParsePacket(s).rest;
    assert t == s[|s| - |t|..] && rest == t[|t| - |rest|..];
  }

  lemma ShortBodyParsed(tp: nat, n: nat, s: bytes)
    ensures tp in {4, 5, 6, 7, 0xb} && ParseId(tp, n, s).Got? ==>
              !Framed(ParseId(tp, n, s).value) && |s| >= 2 && ParseId(tp, n, s).rest == s[2..]
    ensures ParseConnAck(n, s).Got? ==>
              !Framed(ParseConnAck(n, s).value) && |s| >= 2 && ParseConnAck(n, s).rest == s[2..]
  {
  }

  lemma UnframedIsWellFormed(b: u8, n: nat, s: bytes)
    requires b / 0x10 !in {1, 3, 8, 9, 0xa} && ParseOf(b, n, s).Got?
    ensures var r := ParseOf(b, n, s);
            !Framed(r.value) && |r.rest| <= |s| && r.rest == s[|s| - |r.rest|..]
  {
    hide ParseFrame, ParseId, ParseConnAck;
    ShortBodyParsed(b / 0x10, n, s);
  }

  lemma UnframedFits(p: Packet)
    requires !Framed(p)
    ensures WellFormed(p)
  {
  }

  lemma ParsedOfIsWellFormed(b: u8, n: nat, s: bytes)
    requires IsBytes(s) && n <= MAX_REMAINING && ParseOf(b, n, s).Got?
    ensures var r := ParseOf(b, n, s); WellFormed(r.value) && |r.rest| <= |s| && r.rest == s[|s| - |r.rest|..]
  {
    hide WellFormed, ParseFrame, ParseId, ParseConnAck, Framed;
    if b / 0x10 in {1, 3, 8, 9, 0xa} {
      FrameTaken(b, n, s);
    } else {
      UnframedIsWellFormed(b, n, s);
      UnframedFits(ParseOf(b, n, s).value);
    }
  }

  predicate ExactlyFramed(p: Packet) { p.PublishPacket? || p.Subscribe? || p.Unsubscribe? || p.SubAck? }

  lemma FrameReprints(b: u8, n: nat, s: bytes)
    requires IsBytes(s) && n <= MAX_REMAINING && ParseOf(b, n, s).Got? && ExactlyFramed(ParseOf(b, n, s).value)
    ensures var p := ParseOf(b, n, s).value;
            Writable(p) && RemainingLength(p) == n == |Body(p)| && s == Body(p) + ParseOf(b, n, s).rest
  {
    hide ParseFrame, WellFormed, Writable, Body, RemainingLength;
    FrameTaken(b, n, s);
    var p := ParseOf(b, n, s).value;
    FitsFrame(p);
    DeclaredLength(p);
    assert s == s[..n] + s[n..];
  }

  /**
   * A parsed PUBLISH, SUBSCRIBE, UNSUBSCRIBE or SUBACK took exactly the declared frame, and rewriting the
   * packet gives the declared length and the same body bytes.
   */
  lemma PrintingUndoesParsing(s: bytes)
    requires IsBytes(s) && ParsePacket(s).Got? && ExactlyFramed(ParsePacket(s).value)
    ensures var p, rest, declared := ParsePacket(s).value, ParsePacket(s).rest, TakeVarInt(s[1..]);
            && Writable(p) && declared.Got?
            && RemainingLength(p) == declared.value == |Body(p)|
            && declared.rest == Body(p) + rest
  {
    hide TakeVarInt, ParseOf, Writable, Body, RemainingLength, ExactlyFramed;
    var n := TakeVarInt(s[1..]);
    VarIntTaken(s[1..]);
    FrameReprints(Code(s[0]), n.value, n.rest);
  }

  // ---- streams

  predicate AllWritable(ps: seq<Packet>) { forall i :: 0 <= i < |ps| ==> Writable(ps[i]) }

  predicate AllWellFormed(ps: seq<Packet>) { forall i :: 0 <= i < |ps| ==> WellFormed(ps[i]) }

  /** Packets written back to back on one Writer. */
  function EncodeAll(ps: seq<Packet>): bytes
    requires AllWritable(ps)
  {
    if ps == [] then [] else Encode(ps[0]) + EncodeAll(ps[1..])
  }

  lemma ParseShortens(s: bytes)
    requires ParsePacket(s).Got?
    ensures |ParsePacket(s).rest| < |s|
  {
    hide TakeVarIntFrom;
    var n := TakeVarInt(s[1..]);
    assert |n.rest| < |s|;
  }

  /** Parsing packet after packet until the stream is used up. */
  function ParseAll(s: bytes): Result<seq<Packet>, Error>
    decreases |s|
  {
    if s == [] then Success([])
    else match ParsePacket(s)
      case Fail(e, _) => Failure(e)
      case Got(p, rest) =>
        ParseShortens(s);
        var ps :- ParseAll(rest);
        Success([p] + ps)
  }

  lemma NonEmpty(p: Packet)
    requires Writable(p)
    ensures Encode(p) != []
  {
  }

  lemma {:induction false} WrittenStreamParses(ps: seq<Packet>)
    requires AllWritable(ps) && AllWellFormed(ps)
    ensures ParseAll(EncodeAll(ps)) == Success(ps)
  {
    hide WellFormed, Writable, Encode, ParsePacket;
    if ps != [] {
      PacketRoundTrip(ps[0], EncodeAll(ps[1..]));
      WrittenStreamParses(ps[1..]);
      NonEmpty(ps[0]);
      assert [ps[0]] + ps[1..] == ps;
    }
  }

  lemma {:induction false} ParsedStreamIsWellFormed(s: bytes)
    requires IsBytes(s) && ParseAll(s).Success?
    ensures AllWellFormed(ParseAll(s).value)
    decreases |s|
  {
    hide WellFormed, ParsePacket;
    if s != [] {
      ParsedIsWellFormed(s);
      ParsedStreamIsWellFormed(ParsePacket(s).rest);
    }
  }

  /**
   * Any sequence of packets of the fourteen kinds, written back to back, is parsed back to exactly that
   * sequence with nothing left over if and only if every packet is well formed (chapters 2 and 3 of MQTT 3.1.1).
   */
  lemma StreamRoundTrip(ps: seq<Packet>)
    requires AllWritable(ps) && IsBytes(EncodeAll(ps))
    ensures ParseAll(EncodeAll(ps)) == Success(ps) <==> AllWellFormed(ps)
  {
    if AllWellFormed(ps) {
      WrittenStreamParses(ps);
    } else if ParseAll(EncodeAll(ps)) == Success(ps) {
      ParsedStreamIsWellFormed(EncodeAll(ps));
    }
  }

  // ---- building and changing a CONNECT

  function One(b: bool): nat { if b then 1 else 0 }

  /** A flag byte as the sum of its fields. */
  function Sum(clean: bool, will: bool, qos: nat, retain: bool, pass: bool, user: bool): nat {
    2 * One(clean) + 4 * One(will) + 8 * qos + 0x20 * One(retain) + 0x40 * One(pass) + 0x80 * One(user)
  }

  lemma SumDigits(f: nat, c: nat, w: nat, q: nat, r: nat, p: nat, u: nat)
    requires f == 2 * c + 4 * w + 8 * q + 0x20 * r + 0x40 * p + 0x80 * u
    requires c < 2 && w < 2 && q < 4 && r < 2 && p < 2 && u < 2
    ensures f / 2 % 2 == c && f / 4 % 2 == w && f / 8 % 4 == q && f / 0x20 % 2 == r && f / 0x40 % 2 == p && f / 0x80 % 2 == u
  {
    assert f / 2 == c + 2 * (w + 2 * q + 8 * r + 0x10 * p + 0x20 * u);
    assert f / 4 == w + 2 * (q + 4 * r + 8 * p + 0x10 * u);
    assert f / 8 == q + 4 * (r + 2 * p + 4 * u);
    assert f / 0x20 == r + 2 * (p + 2 * u);
    assert f / 0x40 == p + 2 * u;
    assert f / 0x80 == u;
  }

  lemma SumFields(clean: bool, will: bool, qos: nat, retain: bool, pass: bool, user: bool)
    requires qos < 4
    ensures var f := Sum(clean, will, qos, retain, pass, user);
            && f < 0x100 && CleanSession(f) == clean && HasWill(f) == will && WillQoS(f) == qos
            && WillRetain(f) == retain && HasPassword(f) == pass && HasUserName(f) == user
  {
    SumDigits(Sum(clean, will, qos, retain, pass, user), One(clean), One(will), qos, One(retain), One(pass), One(user));
  }

  /** A will QoS of 4 or more spills into the flags above it: retain, password and user name. */
  function Spill(will: Option<Will>, weight: nat): bool
    requires weight > 0
  {
    will.Some? && will.value.qos / weight % 2 == 1
  }

  lemma Halves(n: nat)
    ensures n == n % 4 + 4 * (n / 4 % 2) + 8 * (n / 8 % 2) + 0x10 * (n / 0x10 % 2) + 0x20 * (n / 0x20)
  {
    assert n / 8 == n / 4 / 2 && n / 0x10 == n / 8 / 2 && n / 0x20 == n / 0x10 / 2;
  }

  lemma ByteOfSum(low: nat, high: nat)
    requires low < 0x100
    ensures (low + 0x100 * high) % 0x100 == low
  {
  }

  /** The five bits of a will QoS that stay in the byte. */
  lemma QoSBits(q: u8)
    ensures q * 8 % 0x100 == 8 * (q % 4) + 0x20 * (q / 4 % 2) + 0x40 * (q / 8 % 2) + 0x80 * (q / 0x10 % 2)
  {
    Halves(q);
    ByteOfSum(8 * (q % 4) + 0x20 * (q / 4 % 2) + 0x40 * (q / 8 % 2) + 0x80 * (q / 0x10 % 2), q / 0x20);
  }

  lemma ConnectFlagFields(clean: bool, will: Option<Will>, pass: bool, user: bool)
    ensures var f := ConnectFlags(clean, will, pass, user);
            && CleanSession(f) == clean && HasWill(f) == will.Some?
            && (will.Some? ==> WillQoS(f) == will.value.qos % 4 && WillRetain(f) == (will.value.retain || Spill(will, 4)))
            && HasPassword(f) == (pass || Spill(will, 8)) && HasUserName(f) == (user || Spill(will, 0x10))
  {
    hide HasWill, WillQoS, WillRetain, HasPassword, HasUserName, CleanSession;
    var w, r := will.Some?, will.Some? && will.value.retain;
    var q, r0, p0, u0 := if w then will.value.qos % 4 else 0, Spill(will, 4), Spill(will, 8), Spill(will, 0x10);
    if w { QoSBits(will.value.qos); }
    SumFields(clean, w, q, r0, p0, u0);
    SumFields(clean, w, q, r0 || r, p0, u0);
    SumFields(clean, w, q, r0 || r, p0 || pass, u0);
    SumFields(clean, w, q, r0 || r, p0 || pass, u0 || user);
    assert OrRetain(Sum(clean, w, q, r0, p0, u0), r) == Sum(clean, w, q, r0 || r, p0, u0);
    assert OrPassword(Sum(clean, w, q, r0 || r, p0, u0), pass) == Sum(clean, w, q, r0 || r, p0 || pass, u0);
    assert OrUserName(Sum(clean, w, q, r0 || r, p0 || pass, u0), user) == Sum(clean, w, q, r0 || r, p0 || pass, u0 || user);
  }

  /**
   * For any arguments, NewConnect builds a packet whose will and credentials can be told by its flags exactly under
   * these conditions.
   */
  lemma NewConnectSurvives(clientID: bytes, clean: bool, keepAlive: u16, will: Option<Will>, creds: Option<Credentials>)
    ensures var c := NewConnect(clientID, clean, keepAlive, will, creds);
            && CleanSession(c.flags) == clean
            && (WillAgrees(c.flags, c.will) <==>
                 will.Some? ==> will.value.qos < 4 && Short(will.value.topic) && Short(will.value.message))
            && (CredentialsAgree(c.flags, c.creds) <==>
                 match creds
                 case None => !Spill(will, 8) && !Spill(will, 0x10)
                 case Some(cr) =>
                   && Short(cr.user)
                   && (cr.password.Some? ==> cr.password.value != [] && Short(cr.password.value))
                   && (cr.user != [] || cr.password.Some? || Spill(will, 8) || Spill(will, 0x10)))
  {
    ConnectFlagFields(clean, will, HasSecret(creds), HasUser(creds));
    hide ConnectFlags, HasWill, WillQoS, WillRetain, HasPassword, HasUserName, CleanSession;
  }

  lemma FlagThirds(low: nat, mid: nat, high: nat)
    requires low < 4 && mid < 0x10 && high < 4
    ensures var f, g := low + 4 * mid + 0x40 * high, low + 0x40 * high;
            && g / 4 % 2 == 0 && g / 8 % 4 == 0 && g / 0x20 % 2 == 0
            && g / 2 % 2 == f / 2 % 2 && g / 0x40 == f / 0x40 && g / 0x80 == f / 0x80
  {
    var f, g := low + 4 * mid + 0x40 * high, low + 0x40 * high;
    assert f / 2 == low / 2 + 2 * (mid + 0x10 * high) && g / 2 == low / 2 + 2 * (0x10 * high);
    assert g / 4 == 2 * (8 * high) && g / 8 == 4 * (2 * high) && g / 0x20 == 2 * high;
    assert f / 0x40 == high && g / 0x40 == high;
    assert f / 0x80 == high / 2 && g / 0x80 == high / 2;
  }

  lemma FlagsWithoutWill(f: u8)
    ensures var g := WithoutWill(f);
            && !HasWill(g) && WillQoS(g) == 0 && !WillRetain(g)
            && CleanSession(g) == CleanSession(f) && HasPassword(g) == HasPassword(f) && HasUserName(g) == HasUserName(f)
  {
    FlagThirds(f % 4, f / 4 % 0x10, f / 0x40);
    assert f == f % 4 + 4 * (f / 4 % 0x10) + 0x40 * (f / 0x40);
  }

  /** Deleting the will leaves a packet without one, keeps every other flag and keeps the packet well formed. */
  lemma DeleteWillKeeps(c: Connect)
    ensures var d := DeleteWill(c);
            && !HasWill(d.flags) && WillQoS(d.flags) == 0 && !WillRetain(d.flags) && d.will.None?
            && CleanSession(d.flags) == CleanSession(c.flags)
            && (WellFormed(ConnectPacket(c)) ==> WellFormed(ConnectPacket(d)))
  {
    FlagsWithoutWill(c.flags);
    hide WithoutWill, HasWill, WillQoS, WillRetain, HasPassword, HasUserName, CleanSession;
  }
}
