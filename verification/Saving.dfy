// The MarshalToJSON methods: each writes its receiver's tokens; maps are written in whatever order they are iterated.
module Saving {
  import opened Basics
  import opened Strconv
  import opened Json
  import opened Packets
  import opened Records
  import opened Nats
  import opened Sessions
  import opened IdManager
  import opened Retained
  import opened Persistence
  import opened Loading

  // ---- what follows an object does not change its tokens

  lemma Regroup(a: Tokens, b: Tokens, c: Tokens, d: Tokens)
    ensures a + (b + (c + d)) == (a + (b + c)) + d
  {
  }

  lemma PublishJsonMore(p: Publish, more: Tokens)
    ensures PublishJson(p, more) == PublishJson(p, []) + more
  {
    hide IsPrintableASCII, IsInverse, Encode64;
    var a, b := PayloadField(p.payload, [End] + more), PayloadField(p.payload, [End] + []);
    assert a == b + more;
    assert ReplyToField(p.replyTo, a) == ReplyToField(p.replyTo, b) + more;
  }

  lemma CredentialsJsonMore(c: Credentials, more: Tokens)
    ensures CredentialsJson(c, more) == CredentialsJson(c, []) + more
  {
    hide IsInverse, Encode64;
    var a, b := PasswordField(c.password, [End] + more), PasswordField(c.password, [End] + []);
    assert a == b + more;
    assert UserField(c.user, a) == UserField(c.user, b) + more;
  }

  lemma NatsPubJsonMore(n: NatsPub, more: Tokens)
    requires n.pp.Some?
    ensures NatsPubJson(n, more) == NatsPubJson(n, []) + more
  {
    hide PublishJson, CredentialsJson;
    var a, b := CredsField(n.creds, [End] + more), CredsField(n.creds, [End] + []);
    if n.creds.Some? {
      CredentialsJsonMore(n.creds.value, [End] + more);
      CredentialsJsonMore(n.creds.value, [End] + []);
    }
    assert a == b + more;
    PublishJsonMore(n.pp.value, a);
    PublishJsonMore(n.pp.value, b);
  }

  method WritePublish(p: Publish, w: Encoder)
    modifies w
    ensures w.out == old(w.out) + PublishJson(p, [])
  {
    hide IsPrintableASCII, IsInverse, Encode64;
    w.Write([Begin, Str("flags"), Num(p.flags), Str("id"), Num(p.id), Str("name"), Str(p.name)]);
    if p.replyTo != "" {
      w.Write([Str("replyTo"), Str(p.replyTo)]);
    }
    if |p.payload| > 0 {
      if IsPrintableASCII(p.payload) {
        w.Write([Str("payload"), Str(p.payload)]);
      } else {
        w.Write([Str("payloadEnc"), Str(Encode64(p.payload))]);
      }
    }
    w.Write([End]);
  }

  method WriteCredentials(c: Credentials, w: Encoder)
    modifies w
    ensures w.out == old(w.out) + CredentialsJson(c, [])
  {
    hide IsInverse, Encode64;
    w.Write([Begin]);
    if c.user != "" {
      w.Write([Str("u"), Str(c.user)]);
    }
    if c.password.Some? {
      w.Write([Str("p"), Str(Encode64(c.password.value))]);
    }
    w.Write([End]);
  }

  method WriteNatsPub(n: NatsPub, w: Encoder)
    requires n.pp.Some?
    modifies w
    ensures w.out == old(w.out) + NatsPubJson(n, [])
  {
    hide PublishJson, CredentialsJson;
    w.Write([Begin, Str("m")]);
    WritePublish(n.pp.value, w);
    if n.creds.Some? {
      w.Write([Str("c")]);
      WriteCredentials(n.creds.value, w);
      CredentialsJsonMore(n.creds.value, [End] + []);
    }
    w.Write([End]);
    PublishJsonMore(n.pp.value, CredsField(n.creds, [End] + []));
  }

  // ---- the id manager

  lemma {:induction false} NumsJsonMore(order: seq<u16>, more: Tokens)
    ensures NumsJson(order, more) == NumsJson(order, []) + more
  {
    if order != [] {
      NumsJsonMore(order[1..], more);
    }
  }

  lemma {:induction false} NumsJsonSnoc(order: seq<u16>, id: u16)
    ensures NumsJson(order + [id], []) == NumsJson(order, []) + [Num(id)]
  {
    if order == [] {
      assert order + [id] == [id] && [id][1..] == [];
    } else {
      assert (order + [id])[1..] == order[1..] + [id];
      NumsJsonSnoc(order[1..], id);
    }
  }

  /** One more key of an iteration. */
  lemma IteratesSnoc<K(!new)>(order: seq<K>, keys: set<K>, todo: set<K>, k: K)
    requires Iterates(order, keys - todo) && todo <= keys && k in todo
    ensures Iterates(order + [k], keys - (todo - {k}))
  {
    assert keys - (todo - {k}) == (keys - todo) + {k};
  }

  method WriteIDManager(s: IDManager, w: Encoder) returns (inf: seq<u16>)
    modifies w
    ensures Iterates(inf, s.inFlight) && w.out == old(w.out) + IdsJson(s.nextFreePkgID, inf, [])
  {
    hide Iterates, InFlightField, NumsJson, IdsJson;
    inf := [];
    var todo := s.inFlight;
    IteratesNone(s.inFlight);
    while todo != {}
      invariant todo <= s.inFlight && Iterates(inf, s.inFlight - todo)
      modifies {}
    {
      var k :| k in todo;
      IteratesSnoc(inf, s.inFlight, todo, k);
      inf := inf + [k];
      todo := todo - {k};
    }
    assert s.inFlight - todo == s.inFlight;
    w.Write([Begin, Str("next"), Num(s.nextFreePkgID)]);
    WriteInFlight(inf, w);
    w.Write([End]);
    IdsJsonFlat(s.nextFreePkgID, inf);
  }

  lemma IdsJsonFlat(next: u16, order: seq<u16>)
    ensures IdsJson(next, order, []) == [Begin, Str("next"), Num(next)] + InFlightField(order, []) + [End]
  {
    hide InFlightField, NumsJson;
    InFlightFieldFlat(order, [End] + []);
    InFlightFieldFlat(order, []);
  }

  method WriteInFlight(inf: seq<u16>, w: Encoder)
    modifies w
    ensures w.out == old(w.out) + InFlightField(inf, [])
  {
    hide NumsJson;
    InFlightFieldFlat(inf, []);
    if |inf| > 0 {
      w.Write([Str("inFlight"), BeginList]);
      ghost var before := w.out;
      NumsJsonNone(inf);
      var i := 0;
      while i < |inf|
        invariant i <= |inf| && w.out == before + NumsJson(inf[..i], [])
      {
        NumsJsonSnoc(inf[..i], inf[i]);
        assert inf[..i + 1] == inf[..i] + [inf[i]];
        w.Write([Num(inf[i])]);
        i := i + 1;
      }
      assert inf[..i] == inf;
      w.Write([EndList]);
    }
  }

  lemma NumsJsonNone(order: seq<u16>)
    ensures NumsJson(order[..0], []) == []
  {
  }

  lemma InFlightFieldFlat(order: seq<u16>, more: Tokens)
    ensures InFlightField(order, more)
         == if order == [] then more else [Str("inFlight"), BeginList] + NumsJson(order, []) + [EndList] + more
  {
    NumsJsonMore(order, [EndList] + more);
  }

  lemma IteratesNone<K(!new)>(keys: set<K>)
    ensures Iterates([], keys - keys)
  {
  }

  // ---- retained messages

  lemma {:induction false} RetainedEntriesMore(msgs: map<string, Publish>, order: seq<string>, more: Tokens)
    requires forall t :: t in order ==> t in msgs
    ensures RetainedEntries(msgs, order, more) == RetainedEntries(msgs, order, []) + more
    decreases |order|
  {
    hide PublishJson;
    if order != [] {
      RetainedEntriesMore(msgs, order[1..], more);
      var p, rest := PublishJson(msgs[order[0]], []), RetainedEntries(msgs, order[1..], []);
      PublishJsonMore(msgs[order[0]], rest + more);
      PublishJsonMore(msgs[order[0]], rest);
      Regroup([Str(order[0])], p, rest, more);
    }
  }

  lemma {:induction false} RetainedEntriesSnoc(msgs: map<string, Publish>, order: seq<string>, t: string)
    requires t in msgs && forall u :: u in order ==> u in msgs
    ensures RetainedEntries(msgs, order + [t], [])
         == RetainedEntries(msgs, order, []) + [Str(t)] + PublishJson(msgs[t], [])
    decreases |order|
  {
    hide PublishJson;
    if order == [] {
      assert order + [t] == [t] && [t][1..] == [];
    } else {
      assert (order + [t])[1..] == order[1..] + [t];
      RetainedEntriesSnoc(msgs, order[1..], t);
      PublishJsonMore(msgs[order[0]], RetainedEntries(msgs, order[1..] + [t], []));
      PublishJsonMore(msgs[order[0]], RetainedEntries(msgs, order[1..], []));
    }
  }

  method WriteRetained(r: RetainedMessages, w: Encoder)
    requires r.State().Valid()
    modifies w
    ensures w.out == old(w.out) + RetainedJson(r.State(), [])
  {
    hide PublishJson, RetainedEntries;
    w.Write([Begin]);
    ghost var before := w.out;
    RetainedEntriesNone(r.msgs, r.order);
    var i := 0;
    while i < |r.order|
      invariant i <= |r.order|
      invariant w.out == before + RetainedEntries(r.msgs, r.order[..i], [])
    {
      var t := r.order[i];
      RetainedEntriesSnoc(r.msgs, r.order[..i], t);
      assert r.order[..i + 1] == r.order[..i] + [t];
      w.Write([Str(t)]);
      WritePublish(r.msgs[t], w);
      i := i + 1;
    }
    assert r.order[..i] == r.order;
    RetainedEntriesMore(r.msgs, r.order, [End] + []);
    w.Write([End]);
  }

  lemma RetainedEntriesNone(msgs: map<string, Publish>, order: seq<string>)
    ensures RetainedEntries(msgs, order[..0], []) == []
  {
  }

  // ---- sessions

  lemma {:induction false} AckEntriesMore(order: seq<u16>, m: map<u16, string>, more: Tokens)
    requires forall k :: k in order ==> k in m
    ensures AckEntries(order, m, more) == AckEntries(order, m, []) + more
    decreases |order|
  {
    hide Itoa;
    if order != [] {
      AckEntriesMore(order[1..], m, more);
      Regroup([Str(Itoa(order[0]))], [Str(m[order[0]])], AckEntries(order[1..], m, []), more);
    }
  }

  lemma {:induction false} AckEntriesSnoc(order: seq<u16>, m: map<u16, string>, k: u16)
    requires k in m && forall j :: j in order ==> j in m
    ensures AckEntries(order + [k], m, []) == AckEntries(order, m, []) + [Str(Itoa(k)), Str(m[k])]
    decreases |order|
  {
    hide Itoa;
    if order == [] {
      assert order + [k] == [k] && [k][1..] == [];
    } else {
      assert (order + [k])[1..] == order[1..] + [k];
      AckEntriesSnoc(order[1..], m, k);
      Regroup([Str(Itoa(order[0]))], [Str(m[order[0]])], AckEntries(order[1..], m, []), [Str(Itoa(k)), Str(m[k])]);
    }
  }

  lemma {:induction false} ClientAckEntriesMore(order: seq<u16>, m: map<u16, Publish>, more: Tokens)
    requires forall k :: k in order ==> k in m
    ensures ClientAckEntries(order, m, more) == ClientAckEntries(order, m, []) + more
    decreases |order|
  {
    hide Itoa, PublishJson;
    if order != [] {
      ClientAckEntriesMore(order[1..], m, more);
      var p, rest := PublishJson(m[order[0]], []), ClientAckEntries(order[1..], m, []);
      PublishJsonMore(m[order[0]], rest + more);
      PublishJsonMore(m[order[0]], rest);
      Regroup([Str(Itoa(order[0]))], p, rest, more);
    }
  }

  lemma {:induction false} ClientAckEntriesSnoc(order: seq<u16>, m: map<u16, Publish>, k: u16)
    requires k in m && forall j :: j in order ==> j in m
    ensures ClientAckEntries(order + [k], m, []) == ClientAckEntries(order, m, []) + [Str(Itoa(k))] + PublishJson(m[k], [])
    decreases |order|
  {
    hide Itoa, PublishJson;
    if order == [] {
      assert order + [k] == [k] && [k][1..] == [];
    } else {
      assert (order + [k])[1..] == order[1..] + [k];
      ClientAckEntriesSnoc(order[1..], m, k);
      var p, rest := PublishJson(m[order[0]], []), ClientAckEntries(order[1..], m, []);
      PublishJsonMore(m[order[0]], ClientAckEntries(order[1..] + [k], m, []));
      PublishJsonMore(m[order[0]], rest);
      Regroup([Str(Itoa(order[0]))], p, rest, [Str(Itoa(k))] + PublishJson(m[k], []));
    }
  }

  lemma IterationIsWithin<K(!new)>(order: seq<K>, keys: set<K>, todo: set<K>)
    requires Iterates(order, keys - todo)
    ensures forall k :: k in order ==> k in keys
    ensures todo == {} ==> Iterates(order, keys)
    ensures order == [] <==> keys - todo == {}
  {
    if order != [] { assert order[0] in order; }
    assert todo == {} ==> keys - todo == keys;
  }

  method WriteAckEntries(s: Session, w: Encoder) returns (ghost order: seq<u16>)
    modifies w
    ensures Iterates(order, s.awaitsAck.Keys) && forall k :: k in order ==> k in Subjects(s.awaitsAck)
    ensures w.out == old(w.out) + AckEntries(order, Subjects(s.awaitsAck), [])
  {
    hide Iterates, Itoa, AckEntries, Subjects;
    order := [];
    var todo := s.awaitsAck.Keys;
    ghost var keys, subjects, before := todo, Subjects(s.awaitsAck), w.out;
    SubjectsOf(s.awaitsAck);
    IteratesNone(keys);
    AckEntriesNone(subjects);
    while todo != {}
      invariant todo <= keys && Iterates(order, keys - todo) && forall k :: k in order ==> k in subjects
      invariant w.out == before + AckEntries(order, subjects, [])
    {
      var k :| k in todo;
      w.Write([Str(Itoa(k)), Str(s.awaitsAck[k].subject)]);
      AckEntriesSnoc(order, subjects, k);
      IteratesSnoc(order, keys, todo, k);
      order := order + [k];
      todo := todo - {k};
    }
    assert keys - todo == keys;
  }

  method WriteAcks(s: Session, w: Encoder) returns (ghost order: seq<u16>)
    modifies w
    ensures Iterates(order, s.awaitsAck.Keys)
    ensures w.out == old(w.out) + AcksField(order, Subjects(s.awaitsAck), [])
  {
    hide Iterates, Itoa, AckEntries, AcksField, Subjects;
    order := [];
    if |s.awaitsAck.Keys| > 0 {
      w.Write([Str("awAck"), Begin]);
      order := WriteAckEntries(s, w);
      w.Write([End]);
    } else {
      IteratesNone(s.awaitsAck.Keys);
      assert s.awaitsAck.Keys == {};
    }
    assert s.awaitsAck.Keys - {} == s.awaitsAck.Keys;
    IterationIsWithin(order, s.awaitsAck.Keys, {});
    SubjectsOf(s.awaitsAck);
    AcksFieldFlat(order, Subjects(s.awaitsAck));
  }

  lemma SubjectsOf(subs: map<u16, Sub>)
    ensures Subjects(subs).Keys == subs.Keys && forall k :: k in subs ==> Subjects(subs)[k] == subs[k].subject
  {
  }

  lemma AcksFieldFlat(order: seq<u16>, m: map<u16, string>)
    requires forall k :: k in order ==> k in m
    ensures AcksField(order, m, [])
         == if order == [] then [] else [Str("awAck"), Begin] + AckEntries(order, m, []) + [End]
  {
    hide AckEntries;
    AckEntriesMore(order, m, [End] + []);
  }

  lemma AckEntriesNone(m: map<u16, string>)
    ensures AckEntries([], m, []) == []
  {
  }

  method WriteClientAcks(s: Session, w: Encoder) returns (ghost order: seq<u16>)
    modifies w
    ensures Iterates(order, s.awaitsClientAck.Keys)
    ensures w.out == old(w.out) + ClientAcksField(order, s.awaitsClientAck, [])
  {
    hide Iterates, Itoa, ClientAckEntries, ClientAcksField, PublishJson;
    order := [];
    var todo := s.awaitsClientAck.Keys;
    ghost var keys, unack := todo, s.awaitsClientAck;
    IteratesNone(keys);
    IterationIsWithin(order, keys, todo);
    if |todo| > 0 {
      w.Write([Str("awClientAck"), Begin]);
      ghost var before := w.out;
      ClientAckEntriesNone(unack);
      while todo != {}
        invariant todo <= keys && Iterates(order, keys - todo) && forall k :: k in order ==> k in unack
        invariant w.out == before + ClientAckEntries(order, unack, [])
      {
        var k :| k in todo;
        w.Write([Str(Itoa(k))]);
        WritePublish(s.awaitsClientAck[k], w);
        ClientAckEntriesSnoc(order, unack, k);
        IteratesSnoc(order, keys, todo, k);
        order := order + [k];
        todo := todo - {k};
      }
      w.Write([End]);
    }
    IterationIsWithin(order, keys, todo);
    ClientAcksFieldFlat(order, unack);
  }

  lemma ClientAcksFieldFlat(order: seq<u16>, m: map<u16, Publish>)
    requires forall k :: k in order ==> k in m
    ensures ClientAcksField(order, m, [])
         == if order == [] then [] else [Str("awClientAck"), Begin] + ClientAckEntries(order, m, []) + [End]
  {
    hide ClientAckEntries;
    ClientAckEntriesMore(order, m, [End] + []);
  }

  lemma ClientAckEntriesNone(m: map<u16, Publish>)
    ensures ClientAckEntries([], m, []) == []
  {
  }

  lemma FieldsMore(s: SessionState, o: SessionOrder, more: Tokens)
    requires IteratesSession(o, s)
    ensures AcksField(o.acks, Subjects(s.awaitsAck), more) == AcksField(o.acks, Subjects(s.awaitsAck), []) + more
    ensures ClientAcksField(o.clientAcks, s.awaitsClientAck, more) == ClientAcksField(o.clientAcks, s.awaitsClientAck, []) + more
  {
    hide AckEntries, ClientAckEntries;
    AckEntriesMore(o.acks, Subjects(s.awaitsAck), [End] + more);
    AckEntriesMore(o.acks, Subjects(s.awaitsAck), [End] + []);
    ClientAckEntriesMore(o.clientAcks, s.awaitsClientAck, [End] + more);
    ClientAckEntriesMore(o.clientAcks, s.awaitsClientAck, [End] + []);
  }

  lemma SessionJsonMore(s: SessionState, o: SessionOrder, more: Tokens)
    requires IteratesSession(o, s)
    ensures SessionJson(s, o, more)
         == [Begin, Str("id"), Str(s.id), Str("cid"), Str(s.clientID)] + AcksField(o.acks, Subjects(s.awaitsAck), [])
            + ClientAcksField(o.clientAcks, s.awaitsClientAck, []) + [End] + more
  {
    hide AcksField, ClientAcksField;
    FieldsMore(s, o, [End] + more);
    FieldsMore(s, o, ClientAcksField(o.clientAcks, s.awaitsClientAck, [End] + more));
  }

  method WriteSession(s: Session, w: Encoder) returns (ghost o: SessionOrder)
    modifies w
    ensures IteratesSession(o, s.State()) && w.out == old(w.out) + SessionJson(s.State(), o, [])
  {
    hide AcksField, ClientAcksField, SessionJson, Iterates;
    w.Write([Begin, Str("id"), Str(s.id), Str("cid"), Str(s.clientID)]);
    ghost var a := WriteAcks(s, w);
    ghost var c := WriteClientAcks(s, w);
    w.Write([End]);
    o := SessionOrder(a, c);
    SessionJsonMore(s.State(), o, []);
  }

  // ---- the session manager

  lemma SessionJsonEnds(s: SessionState, o: SessionOrder, more: Tokens)
    requires IteratesSession(o, s)
    ensures SessionJson(s, o, more) == SessionJson(s, o, []) + more
  {
    hide SessionJson, AcksField, ClientAcksField;
    SessionJsonMore(s, o, more);
    SessionJsonMore(s, o, []);
  }

  lemma {:induction false} SessionEntriesMore(order: seq<string>, orders: map<string, SessionOrder>,
      m: map<string, SessionState>, more: Tokens)
    requires IteratesSessions(order, orders, m)
    ensures SessionEntries(order, orders, m, more) == SessionEntries(order, orders, m, []) + more
    decreases |order|
  {
    hide SessionJson;
    if order != [] {
      var k := order[0];
      var p, rest := SessionJson(m[k], orders[k], []), SessionEntries(order[1..], orders, m, []);
      SessionEntriesMore(order[1..], orders, m, more);
      SessionJsonEnds(m[k], orders[k], rest + more);
      SessionJsonEnds(m[k], orders[k], rest);
      Regroup([Str(k)], p, rest, more);
    }
  }

  lemma {:induction false} SessionEntriesSnoc(order: seq<string>, orders: map<string, SessionOrder>,
      m: map<string, SessionState>, k: string, o: SessionOrder)
    requires IteratesSessions(order, orders, m) && k in m && k !in order && IteratesSession(o, m[k])
    ensures IteratesSessions(order + [k], orders[k := o], m)
    ensures SessionEntries(order + [k], orders[k := o], m, [])
         == SessionEntries(order, orders, m, []) + [Str(k)] + SessionJson(m[k], o, [])
    decreases |order|
  {
    hide SessionJson, IteratesSession;
    if order == [] {
      assert order + [k] == [k] && [k][1..] == [];
    } else {
      var j := order[0];
      assert (order + [k])[1..] == order[1..] + [k];
      SessionEntriesSnoc(order[1..], orders, m, k, o);
      var p, rest := SessionJson(m[j], orders[j], []), SessionEntries(order[1..], orders, m, []);
      SessionJsonEnds(m[j], orders[j], SessionEntries(order[1..] + [k], orders[k := o], m, []));
      SessionJsonEnds(m[j], orders[j], rest);
      Regroup([Str(j)], p, rest, [Str(k)] + SessionJson(m[k], o, []));
    }
  }

  method WriteEntry(s: SessionManager, k: string, w: Encoder) returns (ghost o: SessionOrder)
    requires k in s.m
    modifies w
    ensures IteratesSession(o, States(s.m)[k])
    ensures w.out == old(w.out) + ([Str(k)] + SessionJson(States(s.m)[k], o, []))
  {
    hide IteratesSession, SessionJson;
    w.Write([Str(k)]);
    o := WriteSession(s.m[k], w);
  }

  /** The sessions, in the order of the iteration. */
  method WriteEntries(s: SessionManager, w: Encoder) returns (ghost order: seq<string>, ghost orders: map<string, SessionOrder>)
    modifies w
    ensures Iterates(order, s.m.Keys) && IteratesSessions(order, orders, States(s.m))
    ensures w.out == old(w.out) + SessionEntries(order, orders, States(s.m), [])
  {
    hide Iterates, IteratesSession, IteratesSessions, SessionJson, SessionEntries, States;
    order, orders := [], map[];
    var todo := s.m.Keys;
    StatesKeys(s.m);
    ghost var keys, m, before := todo, States(s.m), w.out;
    IteratesNone(keys);
    SessionEntriesNone(orders, m);
    while todo != {}
      invariant todo <= keys && Iterates(order, keys - todo) && IteratesSessions(order, orders, m)
      invariant w.out == before + SessionEntries(order, orders, m, [])
    {
      var k :| k in todo;
      ghost var o := WriteEntry(s, k, w);
      EntryStep(order, orders, m, todo, k, o);
      order, orders := order + [k], orders[k := o];
      todo := todo - {k};
    }
    assert keys - todo == keys;
  }

  method WriteSessions(s: SessionManager, w: Encoder) returns (ghost order: seq<string>, ghost orders: map<string, SessionOrder>)
    modifies w
    ensures Iterates(order, s.m.Keys) && IteratesSessions(order, orders, States(s.m))
    ensures w.out == old(w.out) + SessionsField(order, orders, States(s.m), [])
  {
    hide Iterates, IteratesSession, IteratesSessions, SessionJson, SessionEntries, SessionsField, States;
    order, orders := [], map[];
    if |s.m.Keys| > 0 {
      w.Write([Str("sessions"), Begin]);
      order, orders := WriteEntries(s, w);
      w.Write([End]);
    } else {
      IteratesNone(s.m.Keys);
      assert s.m.Keys == {};
      SessionEntriesNone(orders, States(s.m));
    }
    assert s.m.Keys - {} == s.m.Keys;
    IterationIsWithin(order, s.m.Keys, {});
    SessionsFieldFlat(order, orders, States(s.m), []);
  }

  lemma StatesKeys(m: map<string, Session>)
    ensures States(m).Keys == m.Keys
  {
  }

  lemma EntryStep(order: seq<string>, orders: map<string, SessionOrder>, m: map<string, SessionState>, todo: set<string>,
                  k: string, o: SessionOrder)
    requires Iterates(order, m.Keys - todo) && IteratesSessions(order, orders, m) && todo <= m.Keys && k in todo
    requires IteratesSession(o, m[k])
    ensures Iterates(order + [k], m.Keys - (todo - {k})) && IteratesSessions(order + [k], orders[k := o], m)
    ensures SessionEntries(order + [k], orders[k := o], m, [])
         == SessionEntries(order, orders, m, []) + ([Str(k)] + SessionJson(m[k], o, []))
  {
    hide SessionEntries, SessionJson, IteratesSession;
    SessionEntriesSnoc(order, orders, m, k, o);
    IteratesSnoc(order, m.Keys, todo, k);
  }

  lemma SessionEntriesNone(orders: map<string, SessionOrder>, m: map<string, SessionState>)
    ensures IteratesSessions([], orders, m) && SessionEntries([], orders, m, []) == []
  {
  }

  lemma SessionsFieldFlat(order: seq<string>, orders: map<string, SessionOrder>, m: map<string, SessionState>, more: Tokens)
    requires IteratesSessions(order, orders, m)
    ensures SessionsField(order, orders, m, more)
         == if order == [] then more else [Str("sessions"), Begin] + SessionEntries(order, orders, m, []) + [End] + more
  {
    hide SessionEntries, IteratesSessions;
    SessionEntriesMore(order, orders, m, [End] + more);
  }

  method WriteManager(s: SessionManager, w: Encoder) returns (ghost order: seq<string>, ghost orders: map<string, SessionOrder>)
    modifies w
    ensures Iterates(order, s.m.Keys) && IteratesSessions(order, orders, States(s.m))
    ensures w.out == old(w.out) + ManagerJson(ManagerState(s), order, orders, [])
  {
    hide Iterates, IteratesSessions, SessionsField, ManagerJson, States;
    w.Write([Begin, Str("seed"), Num(s.seed)]);
    order, orders := WriteSessions(s, w);
    w.Write([End]);
    ManagerJsonFlat(ManagerState(s), order, orders);
  }

  lemma ManagerJsonFlat(s: Manager, order: seq<string>, orders: map<string, SessionOrder>)
    requires IteratesSessions(order, orders, s.m)
    ensures ManagerJson(s, order, orders, [])
         == [Begin, Str("seed"), Num(s.seed)] + SessionsField(order, orders, s.m, []) + [End]
  {
    hide SessionsField, IteratesSessions, SessionEntries;
    SessionsFieldFlat(order, orders, s.m, []);
    SessionsFieldFlat(order, orders, s.m, [End] + []);
  }

  lemma ManagerJsonEnds(s: Manager, order: seq<string>, orders: map<string, SessionOrder>, more: Tokens)
    requires IteratesSessions(order, orders, s.m)
    ensures ManagerJson(s, order, orders, more) == ManagerJson(s, order, orders, []) + more
  {
    hide SessionsField, IteratesSessions, SessionEntries;
    SessionsFieldFlat(order, orders, s.m, [End] + more);
    SessionsFieldFlat(order, orders, s.m, [End] + []);
  }

  // ---- the server

  lemma {:induction false} PubEntriesMore(order: seq<u16>, m: map<u16, NatsPub>, more: Tokens)
    requires forall k :: k in order ==> k in m && m[k].pp.Some?
    ensures PubEntries(order, m, more) == PubEntries(order, m, []) + more
    decreases |order|
  {
    hide NatsPubJson;
    if order != [] {
      PubEntriesMore(order[1..], m, more);
      NatsPubJsonMore(m[order[0]], PubEntries(order[1..], m, []) + more);
      NatsPubJsonMore(m[order[0]], PubEntries(order[1..], m, []));
    }
  }

  lemma {:induction false} PubEntriesSnoc(order: seq<u16>, m: map<u16, NatsPub>, k: u16)
    requires forall j :: j in order + [k] ==> j in m && m[j].pp.Some?
    ensures k in m && m[k].pp.Some? && PubEntries(order + [k], m, []) == PubEntries(order, m, []) + NatsPubJson(m[k], [])
    decreases |order|
  {
    hide NatsPubJson;
    assert k in order + [k];
    if order == [] {
      assert order + [k] == [k] && [k][1..] == [];
    } else {
      assert (order + [k])[1..] == order[1..] + [k];
      PubEntriesSnoc(order[1..], m, k);
      NatsPubJsonMore(m[order[0]], PubEntries(order[1..] + [k], m, []));
      NatsPubJsonMore(m[order[0]], PubEntries(order[1..], m, []));
    }
  }

  lemma PubAcksPartFlat(order: seq<u16>, m: map<u16, NatsPub>, more: Tokens)
    requires Tracked(m) && forall k :: k in order ==> k in m
    ensures PubAcksPart(order, m, more)
         == if order == [] then more else [Str("pubacks"), BeginList] + PubEntries(order, m, []) + [EndList] + more
  {
    hide PubEntries;
    PubEntriesMore(order, m, [EndList] + more);
  }

  predicate Ascending(order: seq<u16>) { forall i, j :: 0 <= i < j < |order| ==> order[i] < order[j] }

  lemma {:induction false} SomeLeast(ids: set<u16>) returns (k: u16)
    requires ids != {}
    ensures k in ids && forall j :: j in ids ==> k <= j
  {
    var a :| a in ids;
    if ids == {a} {
      k := a;
    } else {
      var l := SomeLeast(ids - {a});
      k := if l < a then l else a;
      assert forall j :: j in ids ==> j == a || j in ids - {a};
    }
  }

  /** awaitsAckSnapshot: the tracked publishes by ascending packet id. */
  method Snapshot(pubs: map<u16, NatsPub>) returns (ids: seq<u16>)
    ensures Iterates(ids, pubs.Keys) && Ascending(ids)
  {
    ids := [];
    var todo := pubs.Keys;
    IteratesNone(pubs.Keys);
    while todo != {}
      invariant todo <= pubs.Keys && Iterates(ids, pubs.Keys - todo) && Ascending(ids)
      invariant forall i, k :: 0 <= i < |ids| && k in todo ==> ids[i] < k
    {
      ghost var least := SomeLeast(todo);
      var k :| k in todo && forall j :: j in todo ==> k <= j;
      IteratesSnoc(ids, pubs.Keys, todo, k);
      ids := ids + [k];
      todo := todo - {k};
    }
    assert pubs.Keys - todo == pubs.Keys;
  }

  method WritePubAcks(pubs: map<u16, NatsPub>, w: Encoder) returns (trk: seq<u16>)
    requires Tracked(pubs)
    modifies w
    ensures Iterates(trk, pubs.Keys) && Ascending(trk)
    ensures w.out == old(w.out) + PubAcksPart(trk, pubs, [])
  {
    hide NatsPubJson, PubEntries, PubAcksPart, Ascending;
    trk := Snapshot(pubs);
    PubAcksPartFlat(trk, pubs, []);
    if |trk| > 0 {
      w.Write([Str("pubacks"), BeginList]);
      ghost var before := w.out;
      PubEntriesNone(trk, pubs);
      var i := 0;
      while i < |trk|
        invariant i <= |trk| && w.out == before + PubEntries(trk[..i], pubs, [])
      {
        assert trk[..i + 1] == trk[..i] + [trk[i]];
        PubEntriesSnoc(trk[..i], pubs, trk[i]);
        WriteNatsPub(pubs[trk[i]], w);
        i := i + 1;
      }
      assert trk[..i] == trk;
      w.Write([EndList]);
    }
  }

  lemma PubEntriesNone(order: seq<u16>, m: map<u16, NatsPub>)
    ensures PubEntries(order[..0], m, []) == []
  {
  }

  lemma IdsJsonEnds(next: u16, order: seq<u16>, more: Tokens)
    ensures IdsJson(next, order, more) == IdsJson(next, order, []) + more
  {
    hide InFlightField, NumsJson;
    InFlightFieldFlat(order, [End] + more);
    InFlightFieldFlat(order, [End] + []);
  }

  lemma RetainedPartEnds(s: Store, more: Tokens)
    requires s.Valid()
    ensures RetainedPart(s, more) == RetainedPart(s, []) + more
  {
    hide RetainedEntries;
    RetainedEntriesMore(s.msgs, s.order, [End] + more);
    RetainedEntriesMore(s.msgs, s.order, [End] + []);
  }

  lemma PubAcksPartEnds(order: seq<u16>, m: map<u16, NatsPub>, more: Tokens)
    requires Tracked(m) && forall k :: k in order ==> k in m
    ensures PubAcksPart(order, m, more) == PubAcksPart(order, m, []) + more
  {
    hide PubAcksPart, PubEntries;
    PubAcksPartFlat(order, m, more);
    PubAcksPartFlat(order, m, []);
  }

  /** The parts in the order in which they are written. */
  lemma ServerJsonFlat(s: Server, ts: string, o: Iteration)
    requires s.Valid() && IteratesServer(o, s)
    ensures ServerJson(s, ts, o, [])
         == [Begin, Str("ts"), Str(ts), Str("id"), Str(s.own.value.clientID)]
            + ([Str("idm")] + IdsJson(s.ids.next, o.inFlight, []))
            + ([Str("sm")] + ManagerJson(s.sm, o.sessions, o.session, []))
            + RetainedPart(s.retained, []) + PubAcksPart(o.pubAcks, s.pubAcks, []) + [End]
  {
    hide IdsJson, ManagerJson, RetainedPart, PubAcksPart, IteratesSessions;
    var t4 := PubAcksPart(o.pubAcks, s.pubAcks, [End] + []);
    var t3 := RetainedPart(s.retained, t4);
    var t2 := [Str("sm")] + ManagerJson(s.sm, o.sessions, o.session, t3);
    PubAcksPartEnds(o.pubAcks, s.pubAcks, [End] + []);
    RetainedPartEnds(s.retained, t4);
    ManagerJsonEnds(s.sm, o.sessions, o.session, t3);
    IdsJsonEnds(s.ids.next, o.inFlight, t2);
  }

  method WriteIdsPart(b: BridgeServer, w: Encoder) returns (ghost inf: seq<u16>)
    modifies w
    ensures var s := b.State();
            Iterates(inf, s.ids.inFlight) && w.out == old(w.out) + ([Str("idm")] + IdsJson(s.ids.next, inf, []))
  {
    hide IdsJson, Iterates, States;
    w.Write([Str("idm")]);
    inf := WriteIDManager(b.idm, w);
  }

  method WriteManagerPart(b: BridgeServer, w: Encoder)
    returns (ghost order: seq<string>, ghost orders: map<string, SessionOrder>)
    modifies w
    ensures var s := b.State();
            && Iterates(order, s.sm.m.Keys) && IteratesSessions(order, orders, s.sm.m)
            && w.out == old(w.out) + ([Str("sm")] + ManagerJson(s.sm, order, orders, []))
  {
    hide ManagerJson, Iterates, IteratesSessions, States;
    StatesKeys(b.sm.m);
    w.Write([Str("sm")]);
    order, orders := WriteManager(b.sm, w);
  }

  method WriteRetainedPart(r: RetainedMessages, w: Encoder)
    requires r.State().Valid()
    modifies w
    ensures w.out == old(w.out) + RetainedPart(r.State(), [])
  {
    hide RetainedJson;
    var empty := r.Empty();
    if !empty {
      w.Write([Str("retained")]);
      WriteRetained(r, w);
    }
  }

  /** server.MarshalToJSON; the time of the save is a parameter. */
  method WriteServer(b: BridgeServer, ts: string, w: Encoder) returns (ghost o: Iteration)
    requires b.State().Valid()
    modifies w
    ensures IteratesServer(o, b.State()) && w.out == old(w.out) + ServerJson(b.State(), ts, o, [])
  {
    hide IdsJson, ManagerJson, ServerJson, States, ManagerState, Iterates, IteratesSessions, Ascending, PubAcksPart, RetainedPart;
    w.Write([Begin, Str("ts"), Str(ts), Str("id"), Str(b.session.clientID)]);
    ghost var inf := WriteIdsPart(b, w);
    ghost var order, orders := WriteManagerPart(b, w);
    WriteRetainedPart(b.retained, w);
    var trk := WritePubAcks(b.pubAcks, w);
    w.Write([End]);
    o := Iteration(inf, order, orders, trk);
    ServerJsonFlat(b.State(), ts, o);
  }

  /** Shutdown and start: what one server persists, another loads. */
  method Restart(b: BridgeServer, started: BridgeServer, ts: string) returns (ok: bool)
    requires b.State().Valid() && !IsKey(ts)
    modifies started, started.idm, started.sm, started.retained
    ensures ok && started.State() == LoadedInto(old(started.State()), old(b.State()))
  {
    hide ServerJson, LoadedInto, Load, IteratesServer, IsKey, BridgeServer.State;
    var w := new Encoder();
    ghost var o := WriteServer(b, ts, w);
    ghost var s, base := b.State(), started.State();
    assert w.out == ServerJson(s, ts, o, []);
    ServerRoundTrip(s, base, ts, o, []);
    var js := new Decoder(w.out);
    ok := started.UnmarshalFromJSON(js);
  }
}
