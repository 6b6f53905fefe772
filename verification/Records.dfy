// The JSON form of a PUBLISH, of credentials and of a tracked publish: mqtt/pkg/publish.go, credentials.go, bridge/natspub.go.
module Records {
  import opened Basics
  import opened Json
  import opened Packets

  datatype Pair = Pair(encode: bytes -> string, decode: string -> Option<bytes>)

  ghost predicate IsInverse(p: Pair) { forall b :: p.decode(p.encode(b)) == Some(b) }

  /** Base64: any printing and parsing of bytes where parsing undoes printing. */
  type Base64 = p: Pair | IsInverse(p) witness Pair(b => b, s => Some(s))

  const BASE64: Base64

  function Encode64(b: bytes): string { BASE64.encode(b) }

  function Decode64(s: string): Option<bytes> { BASE64.decode(s) }

  lemma Base64RoundTrip(b: bytes)
    ensures Decode64(Encode64(b)) == Some(b)
  {
  }

  /** The character 127 counts as printable. */
  predicate IsPrintableASCII(bs: bytes) { forall i :: 0 <= i < |bs| ==> 32 <= Code(bs[i]) <= 127 }

  // ---- PUBLISH

  function PayloadField(payload: bytes, more: Tokens): Tokens {
    if payload == [] then more
    else if IsPrintableASCII(payload) then [Str("payload")] + ([Str(payload)] + more)
    else [Str("payloadEnc")] + ([Str(Encode64(payload))] + more)
  }

  function ReplyToField(replyTo: string, more: Tokens): Tokens {
    if replyTo == "" then more else [Str("replyTo")] + ([Str(replyTo)] + more)
  }

  /** The tokens of p, followed by more. */
  function PublishJson(p: Publish, more: Tokens): Tokens {
    [Begin] + ([Str("flags")] + ([Num(p.flags)] + ([Str("id")] + ([Num(p.id)] + ([Str("name")] + ([Str(p.name)] +
    ReplyToField(p.replyTo, PayloadField(p.payload, [End] + more))))))))
  }

  const NO_PUBLISH := Publish("", "", "", 0, 0, false)

  function PublishField(k: string, p: Publish, ts: Tokens): Read<Publish> {
    if k == "flags" then
      match Int(ts) case Panic => Panic case Got(n, rest) => Got(p.(flags := n % 0x100), rest)
    else if k == "id" then
      match Int(ts) case Panic => Panic case Got(n, rest) => Got(p.(id := n % 0x1_0000), rest)
    else if k == "name" then
      match String(ts) case Panic => Panic case Got(s, rest) => Got(p.(name := s), rest)
    else if k == "replyTo" then
      match String(ts) case Panic => Panic case Got(s, rest) => Got(p.(replyTo := s), rest)
    else if k == "payload" then
      match String(ts) case Panic => Panic case Got(s, rest) => Got(p.(payload := s), rest)
    else if k == "payloadEnc" then
      match String(ts)
      case Panic => Panic
      case Got(s, rest) =>
        (match Decode64(s) case None => Panic case Some(b) => Got(p.(payload := b), rest))
    else Got(p, ts)
  }

  /** The mark that a message came from this server is not saved. */
  function Unmarked(p: Publish): Publish { p.(sentByUs := false) }

  lemma NumberKeys(p: Publish, flags: u8, id: u16, more: Tokens)
    ensures PublishField("flags", p, [Num(flags)] + more) == Got(p.(flags := flags), more)
    ensures PublishField("id", p, [Num(id)] + more) == Got(p.(id := id), more)
  {
    hide String, Int, IsInverse;
    Reads("", flags, more);
    Reads("", id, more);
  }

  lemma StringKeys(p: Publish, s: string, more: Tokens)
    ensures PublishField("name", p, [Str(s)] + more) == Got(p.(name := s), more)
    ensures PublishField("replyTo", p, [Str(s)] + more) == Got(p.(replyTo := s), more)
    ensures PublishField("payload", p, [Str(s)] + more) == Got(p.(payload := s), more)
  {
    hide String, Int, IsInverse;
    Reads(s, 0, more);
  }

  lemma PayloadEncKey(p: Publish, b: bytes, more: Tokens)
    ensures PublishField("payloadEnc", p, [Str(Encode64(b))] + more) == Got(p.(payload := b), more)
  {
    hide String, Int, IsInverse, Encode64, Decode64;
    Reads(Encode64(b), 0, more);
    Base64RoundTrip(b);
  }

  lemma PublishRoundTrip(p: Publish, more: Tokens)
    ensures Consumer(PublishJson(p, more), NO_PUBLISH, PublishField) == Got(Some(Unmarked(p)), more)
  {
    hide Fields, Consumer, PublishField, PayloadField;
    var p1 := NO_PUBLISH.(flags := p.flags);
    var p2 := p1.(id := p.id);
    var p3 := p2.(name := p.name);
    var p4 := p3.(replyTo := p.replyTo);
    var t4 := PayloadField(p.payload, [End] + more);
    var t3 := ReplyToField(p.replyTo, t4);
    var t2 := [Str("name")] + ([Str(p.name)] + t3);
    var t1 := [Str("id")] + ([Num(p.id)] + t2);
    NumberKeys(NO_PUBLISH, p.flags, p.id, t1);
    OneField("flags", [Num(p.flags)] + t1, NO_PUBLISH, PublishField, p1, t1);
    NumberKeys(p1, p.flags, p.id, t2);
    OneField("id", [Num(p.id)] + t2, p1, PublishField, p2, t2);
    StringKeys(p2, p.name, t3);
    OneField("name", [Str(p.name)] + t3, p2, PublishField, p3, t3);
    if p.replyTo != "" {
      StringKeys(p3, p.replyTo, t4);
      OneField("replyTo", [Str(p.replyTo)] + t4, p3, PublishField, p4, t4);
    }
    PayloadRoundTrip(p.payload, p4, more);
    OneObject([Str("flags")] + ([Num(p.flags)] + t1), NO_PUBLISH, PublishField, Unmarked(p), more);
  }

  lemma PayloadRoundTrip(payload: bytes, p: Publish, more: Tokens)
    requires p.payload == []
    ensures Fields(PayloadField(payload, [End] + more), p, PublishField) == Got(p.(payload := payload), more)
  {
    hide IsPrintableASCII, Fields, PublishField;
    var q := p.(payload := payload);
    var t := [End] + more;
    NoField(more, q, PublishField);
    if payload == [] {
    } else if IsPrintableASCII(payload) {
      StringKeys(p, payload, t);
      OneField("payload", [Str(payload)] + t, p, PublishField, q, t);
    } else {
      PayloadEncKey(p, payload, t);
      OneField("payloadEnc", [Str(Encode64(payload))] + t, p, PublishField, q, t);
    }
  }

  // ---- credentials

  function UserField(user: string, more: Tokens): Tokens {
    if user == "" then more else [Str("u")] + ([Str(user)] + more)
  }

  function PasswordField(password: Option<bytes>, more: Tokens): Tokens {
    if password.None? then more else [Str("p")] + ([Str(Encode64(password.value))] + more)
  }

  function CredentialsJson(c: Credentials, more: Tokens): Tokens {
    [Begin] + UserField(c.user, PasswordField(c.password, [End] + more))
  }

  const NO_CREDENTIALS := Credentials("", None)

  function CredentialsField(k: string, c: Credentials, ts: Tokens): Read<Credentials> {
    if k == "u" then
      match String(ts) case Panic => Panic case Got(s, rest) => Got(c.(user := s), rest)
    else if k == "p" then
      match String(ts)
      case Panic => Panic
      case Got(s, rest) =>
        (match Decode64(s) case None => Panic case Some(b) => Got(c.(password := Some(b)), rest))
    else Got(c, ts)
  }

  lemma UserKey(c: Credentials, user: string, more: Tokens)
    ensures CredentialsField("u", c, [Str(user)] + more) == Got(c.(user := user), more)
  {
    hide String;
    Reads(user, 0, more);
  }

  lemma PasswordKey(c: Credentials, password: bytes, more: Tokens)
    ensures CredentialsField("p", c, [Str(Encode64(password))] + more) == Got(c.(password := Some(password)), more)
  {
    hide String;
    assert "p" != "u";
    Reads(Encode64(password), 0, more);
    Base64RoundTrip(password);
  }

  /** No password and an empty one stay apart. */
  lemma CredentialsRoundTrip(c: Credentials, more: Tokens)
    ensures Consumer(CredentialsJson(c, more), NO_CREDENTIALS, CredentialsField) == Got(Some(c), more)
  {
    hide Fields, Consumer, CredentialsField;
    var c1 := NO_CREDENTIALS.(user := c.user);
    var t2 := [End] + more;
    var t1 := PasswordField(c.password, t2);
    if c.user != "" {
      UserKey(NO_CREDENTIALS, c.user, t1);
      OneField("u", [Str(c.user)] + t1, NO_CREDENTIALS, CredentialsField, c1, t1);
    }
    if c.password.Some? {
      PasswordKey(c1, c.password.value, t2);
      OneField("p", [Str(Encode64(c.password.value))] + t2, c1, CredentialsField, c, t2);
    }
    NoField(more, c, CredentialsField);
    OneObject(UserField(c.user, t1), NO_CREDENTIALS, CredentialsField, c, more);
  }

  // ---- tracked publishes

  /** pp is None only while one is read. */
  datatype NatsPub = NatsPub(pp: Option<Publish>, creds: Option<Credentials>)

  function CredsField(creds: Option<Credentials>, more: Tokens): Tokens {
    if creds.None? then more else [Str("c")] + CredentialsJson(creds.value, more)
  }

  function NatsPubJson(n: NatsPub, more: Tokens): Tokens
    requires n.pp.Some?
  {
    [Begin] + ([Str("m")] + PublishJson(n.pp.value, CredsField(n.creds, [End] + more)))
  }

  const NO_NATS_PUB := NatsPub(None, None)

  function NatsPubField(k: string, n: NatsPub, ts: Tokens): Read<NatsPub> {
    if k == "m" then
      match Consumer(ts, NO_PUBLISH, PublishField)
      case Panic => Panic
      case Got(pp, rest) => Got(n.(pp := pp), rest)
    else if k == "c" then
      match Consumer(ts, NO_CREDENTIALS, CredentialsField)
      case Panic => Panic
      case Got(c, rest) => Got(n.(creds := c), rest)
    else Got(n, ts)
  }

  function UnmarkedPub(n: NatsPub): NatsPub
    requires n.pp.Some?
  {
    n.(pp := Some(Unmarked(n.pp.value)))
  }

  lemma NatsPubRoundTrip(n: NatsPub, more: Tokens)
    requires n.pp.Some?
    ensures Consumer(NatsPubJson(n, more), NO_NATS_PUB, NatsPubField) == Got(Some(UnmarkedPub(n)), more)
  {
    hide Fields, PublishJson, CredentialsJson, PublishField, CredentialsField, Consumer;
    var n1 := NO_NATS_PUB.(pp := Some(Unmarked(n.pp.value)));
    var t2 := [End] + more;
    var t1 := CredsField(n.creds, t2);
    PublishRoundTrip(n.pp.value, t1);
    OneField("m", PublishJson(n.pp.value, t1), NO_NATS_PUB, NatsPubField, n1, t1);
    if n.creds.Some? {
      CredentialsRoundTrip(n.creds.value, t2);
      OneField("c", CredentialsJson(n.creds.value, t2), n1, NatsPubField, UnmarkedPub(n), t2);
    }
    NoField(more, UnmarkedPub(n), NatsPubField);
    OneObject([Str("m")] + PublishJson(n.pp.value, t1), NO_NATS_PUB, NatsPubField, UnmarkedPub(n), more);
  }
}
