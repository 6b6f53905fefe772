// The state file token by token: the keys and the order in which each part is written, against literal tokens.
module FileFormat {
  import opened Basics
  import opened Strconv
  import opened Json
  import opened Packets
  import opened Records
  import opened Nats
  import opened Sessions
  import opened IdManager
  import opened Retained
  import opened Persistence

  /** One PUBLISH: an empty reply subject and an empty payload are left out, printable payloads are written as they are. */
  function PublishTokens(p: Publish): Tokens {
    [Begin, Str("flags"), Num(p.flags), Str("id"), Num(p.id), Str("name"), Str(p.name)]
    + (if p.replyTo == "" then [] else [Str("replyTo"), Str(p.replyTo)])
    + (if p.payload == "" then []
       else if forall i :: 0 <= i < |p.payload| ==> 32 <= p.payload[i] as int % 0x100 <= 127 then [Str("payload"), Str(p.payload)]
       else [Str("payloadEnc"), Str(Encode64(p.payload))])
    + [End]
  }

  lemma PublishWritten(p: Publish, more: Tokens)
    ensures PublishJson(p, more) == PublishTokens(p) + more
  {
    hide Encode64;
    assert IsPrintableASCII(p.payload) <==> forall i :: 0 <= i < |p.payload| ==> 32 <= p.payload[i] as int % 0x100 <= 127;
  }

  /** A tracked publish with credentials: an empty user and a missing password are left out. */
  function TrackedTokens(p: Publish, creds: Option<Credentials>): Tokens {
    [Begin, Str("m")] + PublishTokens(p) + CredentialsTokens(creds) + [End]
  }

  function CredentialsTokens(creds: Option<Credentials>): Tokens {
    match creds
    case None => []
    case Some(c) =>
      [Str("c"), Begin] + (if c.user == "" then [] else [Str("u"), Str(c.user)])
      + (match c.password case None => [] case Some(s) => [Str("p"), Str(Encode64(s))]) + [End]
  }

  lemma CredentialsWritten(creds: Option<Credentials>, more: Tokens)
    ensures CredsField(creds, more) == CredentialsTokens(creds) + more
  {
    match creds
    case None =>
    case Some(c) =>
      var u := if c.user == "" then [] else [Str("u"), Str(c.user)];
      var p := match c.password case None => [] case Some(s) => [Str("p"), Str(Encode64(s))];
      hide Encode64;
      assert PasswordField(c.password, [End] + more) == p + ([End] + more);
      hide PasswordField;
      assert UserField(c.user, p + ([End] + more)) == u + (p + ([End] + more));
      hide UserField;
      Around([Str("c"), Begin], u, p, [End], more);
      assert [Str("c")] + ([Begin] + (u + (p + ([End] + more)))) == [Str("c"), Begin] + (u + (p + ([End] + more)));
  }

  lemma Around<T>(a: seq<T>, b: seq<T>, c: seq<T>, d: seq<T>, more: seq<T>)
    ensures a + (b + (c + (d + more))) == a + b + c + d + more
  {
    assert c + (d + more) == c + d + more;
    assert b + (c + d + more) == b + c + d + more;
  }

  lemma Flat<T>(a: T, b: T, c: T, d: T, e: T, more: seq<T>)
    ensures [a] + ([b] + ([c] + more)) == [a, b, c] + more
    ensures [a] + ([b] + ([c] + ([d] + ([e] + more)))) == [a, b, c, d, e] + more
  {
    assert [c] + ([d] + ([e] + more)) == [c, d, e] + more;
    assert [b] + ([c, d, e] + more) == [b, c, d, e] + more;
    assert [b] + ([c] + more) == [b, c] + more;
  }

  lemma TrackedWritten(p: Publish, creds: Option<Credentials>, more: Tokens)
    ensures NatsPubJson(NatsPub(Some(p), creds), more) == TrackedTokens(p, creds) + more
  {
    hide Encode64, PublishTokens, PublishJson, CredentialsTokens, CredsField;
    CredentialsWritten(creds, [End] + more);
    PublishWritten(p, CredsField(creds, [End] + more));
  }

  /** A session with one awaited ack and one delivery that is not acknowledged. */
  function SessionTokens(id: string, client: string, k: u16, subject: string, j: u16, p: Publish): Tokens {
    [Begin, Str("id"), Str(id), Str("cid"), Str(client), Str("awAck"), Begin, Str(Itoa(k)), Str(subject), End,
     Str("awClientAck"), Begin, Str(Itoa(j))] + PublishTokens(p) + [End, End]
  }

  lemma LastEntry(k: u16, subject: string, p: Publish, t: Tokens)
    ensures AckEntries([k], map[k := subject], t) == [Str(Itoa(k))] + ([Str(subject)] + t)
    ensures ClientAckEntries([k], map[k := p], t) == [Str(Itoa(k))] + PublishJson(p, t)
    ensures NumsJson([k], t) == [Num(k)] + t
  {
    hide PublishJson, Itoa;
    assert [k][1..] == [];
    assert AckEntries([], map[k := subject], t) == t && ClientAckEntries([], map[k := p], t) == t && NumsJson([], t) == t;
  }

  lemma OneAck(k: u16, subject: string, more: Tokens)
    ensures AcksField([k], map[k := subject], more) == [Str("awAck"), Begin, Str(Itoa(k)), Str(subject), End] + more
  {
    LastEntry(k, subject, NO_PUBLISH, [End] + more);
    hide AckEntries, Itoa;
    Flat(Str("awAck"), Begin, Str(Itoa(k)), Str(subject), End, more);
  }

  lemma OneClientAck(j: u16, p: Publish, more: Tokens)
    ensures ClientAcksField([j], map[j := p], more) == [Str("awClientAck"), Begin, Str(Itoa(j))] + PublishTokens(p) + [End] + more
  {
    LastEntry(j, "", p, [End] + more);
    PublishWritten(p, [End] + more);
    hide PublishTokens, PublishJson, Itoa, ClientAckEntries;
    Flat(Str("awClientAck"), Begin, Str(Itoa(j)), End, End, PublishTokens(p) + ([End] + more));
    Around([Str("awClientAck"), Begin, Str(Itoa(j))], PublishTokens(p), [End], [], more);
    assert [] + more == more && [Str("awClientAck"), Begin, Str(Itoa(j))] + PublishTokens(p) + [End] + [] == [Str("awClientAck"), Begin, Str(Itoa(j))] + PublishTokens(p) + [End];
  }

  lemma SessionWritten(id: string, client: string, k: u16, sub: Sub, j: u16, p: Publish, more: Tokens)
    ensures SessionJson(SessionState(id, client, map[], map[k := sub], map[j := p]), SessionOrder([k], [j]), more)
         == SessionTokens(id, client, k, sub.subject, j, p) + more
  {
    hide PublishTokens, Itoa, AcksField, ClientAcksField;
    assert Subjects(map[k := sub]) == map[k := sub.subject];
    OneAck(k, sub.subject, ClientAcksField([j], map[j := p], [End] + more));
    OneClientAck(j, p, [End] + more);
  }

  lemma IdsWritten(next: u16, id: u16, more: Tokens)
    ensures IdsJson(next, [id], more)
         == [Begin, Str("next"), Num(next)] + [Str("inFlight"), BeginList, Num(id), EndList, End] + more
  {
    LastEntry(id, "", NO_PUBLISH, [EndList] + ([End] + more));
    hide NumsJson;
    Flat(Str("inFlight"), BeginList, Num(id), EndList, End, more);
    Flat(Begin, Str("next"), Num(next), End, End, [Str("inFlight"), BeginList, Num(id), EndList, End] + more);
  }

  lemma ManagerWritten(seed: nat, client: string, own: SessionState, o: SessionOrder, more: Tokens)
    requires IteratesSession(o, own)
    ensures IteratesSessions([client], map[client := o], map[client := own])
    ensures ManagerJson(Manager(seed, map[client := own]), [client], map[client := o], more)
         == [Begin, Str("seed"), Num(seed), Str("sessions"), Begin, Str(client)] + SessionJson(own, o, [End] + ([End] + more))
  {
    hide SessionJson, IteratesSession;
    assert SessionEntries([client][1..], map[client := o], map[client := own], [End] + ([End] + more)) == [End] + ([End] + more);
  }

  lemma RetainedWritten(q: Publish, more: Tokens)
    ensures var s := Store(map[q.name := q], [q.name]);
            s.Valid() && RetainedPart(s, more) == [Str("retained"), Begin, Str(q.name)] + PublishTokens(q) + [End] + more
  {
    hide PublishTokens, PublishJson;
    var s := Store(map[q.name := q], [q.name]);
    assert RetainedEntries(s.msgs, [q.name][1..], [End] + more) == [End] + more;
    PublishWritten(q, [End] + more);
  }

  lemma LastPub(n: NatsPub, t: Tokens)
    requires n.pp.Some?
    ensures PubEntries([n.pp.value.id], map[n.pp.value.id := n], t) == NatsPubJson(n, t)
  {
    hide NatsPubJson;
    assert [n.pp.value.id][1..] == [];
    assert PubEntries([], map[n.pp.value.id := n], t) == t;
  }

  lemma PubAcksWritten(n: NatsPub, more: Tokens)
    requires n.pp.Some?
    ensures var id := n.pp.value.id;
            PubAcksPart([id], map[id := n], more) == [Str("pubacks"), BeginList] + TrackedTokens(n.pp.value, n.creds) + [EndList] + more
  {
    var tracked := TrackedTokens(n.pp.value, n.creds);
    assert n == NatsPub(Some(n.pp.value), n.creds);
    LastPub(n, [EndList] + more);
    TrackedWritten(n.pp.value, n.creds, [EndList] + more);
    hide TrackedTokens, NatsPubJson, PubEntries;
    assert [Str("pubacks")] + ([BeginList] + (tracked + ([EndList] + more))) == [Str("pubacks"), BeginList] + tracked + [EndList] + more;
  }

  /** A server that has one of everything, in its file. */
  lemma FileWritten(ts: string, next: u16, id: u16, seed: nat, sid: string, client: string, k: u16, sub: Sub, j: u16, p: Publish,
                    q: Publish, n: NatsPub, o: Iteration, more: Tokens)
    requires seed < SEEDS && client != "" && n.pp.Some?
    requires o == Iteration([id], [client], map[client := SessionOrder([k], [j])], [n.pp.value.id])
    ensures var own := SessionState(sid, client, map[], map[k := sub], map[j := p]);
            var s := Server(Ids(next, {id}), Manager(seed, map[client := own]), Store(map[q.name := q], [q.name]), map[n.pp.value.id := n], Some(own));
            && s.Valid() && IteratesServer(o, s)
            && ServerJson(s, ts, o, more)
               == [Begin, Str("ts"), Str(ts), Str("id"), Str(client)]
                  + ([Str("idm"), Begin, Str("next"), Num(next), Str("inFlight"), BeginList, Num(id), EndList, End]
                  + ([Str("sm"), Begin, Str("seed"), Num(seed), Str("sessions"), Begin, Str(client)]
                     + SessionTokens(sid, client, k, sub.subject, j, p) + [End, End]
                  + ([Str("retained"), Begin, Str(q.name)] + PublishTokens(q) + [End]
                  + ([Str("pubacks"), BeginList] + TrackedTokens(n.pp.value, n.creds) + [EndList]
                  + ([End] + more)))))
  {
    hide PublishTokens, SessionTokens, TrackedTokens, SessionJson, IdsJson, ManagerJson, RetainedPart, PubAcksPart;
    var own := SessionState(sid, client, map[], map[k := sub], map[j := p]);
    var t4 := PubAcksPart([n.pp.value.id], map[n.pp.value.id := n], [End] + more);
    PubAcksWritten(n, [End] + more);
    RetainedWritten(q, t4);
    var t3 := RetainedPart(Store(map[q.name := q], [q.name]), t4);
    ManagerWritten(seed, client, own, SessionOrder([k], [j]), t3);
    SessionWritten(sid, client, k, sub, j, p, [End] + ([End] + t3));
    var t2 := ManagerJson(Manager(seed, map[client := own]), [client], map[client := SessionOrder([k], [j])], t3);
    IdsWritten(next, id, [Str("sm")] + t2);
    var session := SessionTokens(sid, client, k, sub.subject, j, p);
    assert [Str("sm")] + ([Begin, Str("seed"), Num(seed), Str("sessions"), Begin, Str(client)] + (session + ([End] + ([End] + t3))))
        == [Str("sm"), Begin, Str("seed"), Num(seed), Str("sessions"), Begin, Str(client)] + session + [End, End] + t3;
    Flat(Begin, Str("ts"), Str(ts), Str("id"), Str(client), [Str("idm")] + IdsJson(next, [id], [Str("sm")] + t2));
    assert [Str("idm")] + ([Begin, Str("next"), Num(next)] + [Str("inFlight"), BeginList, Num(id), EndList, End] + ([Str("sm")] + t2))
        == [Str("idm"), Begin, Str("next"), Num(next), Str("inFlight"), BeginList, Num(id), EndList, End] + ([Str("sm")] + t2);
  }
}
