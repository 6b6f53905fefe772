// Conservation of acks on one connection, and the subscription table against the live subscriptions.
module AckLaws {
  import opened Basics
  import opened Packets
  import opened Nats
  import opened Sessions
  import opened Clients
  import opened ReplyTopics
  import Topics

  // ---- acks

  /** The live ack subscriptions are exactly the values of awaitsAck, one for each awaited id. */
  ghost predicate Exact(l: Link) {
    && l.nats.Valid()
    && (forall s :: s in l.nats.live ==> s.handler == AckHandler ==> s in l.session.awaitsAck.Values)
    && (forall k :: k in l.session.awaitsAck ==>
         l.session.awaitsAck[k] in l.nats.live && l.session.awaitsAck[k].handler == AckHandler)
    && (forall j, k :: j in l.session.awaitsAck && k in l.session.awaitsAck && j != k ==>
         l.session.awaitsAck[j].sid != l.session.awaitsAck[k].sid)
  }

  /** The publish is no repetition, but its id is that of a publish whose ack is still awaited. */
  predicate Reuses(l: Link, pp: Publish, subOk: bool) { Accepts(l, pp, subOk) && pp.id in l.session.awaitsAck }

  /** A publish keeps the live ack subscriptions and the awaited ones in step exactly when it reuses no awaited id. */
  lemma PublishKeepsExact(l: Link, pp: Publish, subOk: bool, pubOk: bool)
    requires Exact(l)
    ensures Exact(PublishLink(l, pp, subOk, pubOk)) <==> !Reuses(l, pp, subOk)
  {
    var l' := PublishLink(l, pp, subOk, pubOk);
    if Accepts(l, pp, subOk) {
      var sub := l'.session.awaitsAck[pp.id];
      assert sub.sid == l.nats.next && sub in l'.nats.live;
      if pp.id in l.session.awaitsAck {
        var lost := l.session.awaitsAck[pp.id];
        assert lost in l'.nats.live && lost.handler == AckHandler;
        assert lost !in l'.session.awaitsAck.Values;
      } else {
        forall s | s in l'.nats.live && s.handler == AckHandler ensures s in l'.session.awaitsAck.Values {
          if s != sub {
            var k :| k in l.session.awaitsAck && l.session.awaitsAck[k] == s;
            assert l'.session.awaitsAck[k] == s;
          }
        }
      }
    }
  }

  lemma AckKeepsExact(l: Link, id: u16)
    requires Exact(l)
    ensures Exact(AckLink(l, id))
  {
    var l' := AckLink(l, id);
    forall s | s in l'.nats.live && s.handler == AckHandler ensures s in l'.session.awaitsAck.Values {
      var k :| k in l.session.awaitsAck && l.session.awaitsAck[k] == s;
      assert k != id;
      assert l'.session.awaitsAck[k] == s;
    }
  }

  datatype Op = DoPublish(pp: Publish, subOk: bool, pubOk: bool) | DoAck(id: u16)

  function Apply(l: Link, op: Op): Link {
    match op
    case DoPublish(pp, subOk, pubOk) => PublishLink(l, pp, subOk, pubOk)
    case DoAck(id) => AckLink(l, id)
  }

  function Run(l: Link, ops: seq<Op>): Link
    decreases |ops|
  {
    if ops == [] then l else Run(Apply(l, ops[0]), ops[1..])
  }

  /** No QoS 1 publish of the run, DUP ones apart, carries an id that is awaited when it arrives. */
  predicate NoReuse(l: Link, ops: seq<Op>)
    decreases |ops|
  {
    ops == [] ||
    ((ops[0].DoPublish? ==> !Reuses(l, ops[0].pp, ops[0].subOk)) && NoReuse(Apply(l, ops[0]), ops[1..]))
  }

  function Accepted(l: Link, ops: seq<Op>, id: u16): nat
    decreases |ops|
  {
    if ops == [] then 0
    else
      (if ops[0].DoPublish? && ops[0].pp.id == id && Accepts(l, ops[0].pp, ops[0].subOk) then 1 else 0)
      + Accepted(Apply(l, ops[0]), ops[1..], id)
  }

  /** Acks that found an awaited publish. */
  function Acked(l: Link, ops: seq<Op>, id: u16): nat
    decreases |ops|
  {
    if ops == [] then 0
    else
      (if ops[0] == DoAck(id) && id in l.session.awaitsAck then 1 else 0) + Acked(Apply(l, ops[0]), ops[1..], id)
  }

  function Awaited(l: Link, id: u16): nat { if id in l.session.awaitsAck then 1 else 0 }

  /** Messages sent with a reply subject that names the packet id. */
  function Requests(sent: seq<Msg>, id: u16): nat {
    if sent == [] then 0
    else
      var r := ParseReplyTopic(sent[|sent| - 1].reply);
      Requests(sent[..|sent| - 1], id) + if r.Some? && r.value.packetID == id then 1 else 0
  }

  lemma RequestsOfOne(l: Link, op: Op, id: u16)
    requires '.' !in l.session.clientID && '.' !in l.session.id
    ensures var after := Requests(Apply(l, op).nats.sent, id) - Requests(l.nats.sent, id);
            after == if op.DoPublish? && op.pp.id == id && Accepts(l, op.pp, op.subOk) && op.pubOk then 1 else 0
    ensures Apply(l, op).session.id == l.session.id && Apply(l, op).session.clientID == l.session.clientID
  {
    hide ParseReplyTopic, Print;
    var sent, sent' := l.nats.sent, Apply(l, op).nats.sent;
    if sent' != sent {
      assert sent'[..|sent|] == sent;
      if Accepts(l, op.pp, op.subOk) {
        ReplyRoundTrip(ReplyTopic(l.session.clientID, l.session.id, op.pp.id, op.pp.flags));
      } else {
        EmptyIsNoReply();
      }
    }
  }

  lemma AwaitedAfterOne(l: Link, op: Op, id: u16)
    requires op.DoPublish? ==> !Reuses(l, op.pp, op.subOk)
    ensures Awaited(l, id) + (if op.DoPublish? && op.pp.id == id && Accepts(l, op.pp, op.subOk) then 1 else 0)
         == Awaited(Apply(l, op), id) + (if op == DoAck(id) && id in l.session.awaitsAck then 1 else 0)
  {
  }

  /**
   * On one connection, as long as no awaited id is reused: the live ack subscriptions stay exactly the awaited
   * ones; for each id the accepted publishes are the acks processed plus one if it is still awaited; and no
   * more requests for it reach NATS than that, so a DUP of an awaited id never gets there.
   */
  lemma {:induction false} AckConservation(l: Link, ops: seq<Op>, id: u16)
    requires Exact(l) && NoReuse(l, ops)
    requires '.' !in l.session.clientID && '.' !in l.session.id
    ensures var e := Run(l, ops);
            && Exact(e)
            && Awaited(l, id) + Accepted(l, ops, id) == Acked(l, ops, id) + Awaited(e, id)
            && Requests(e.nats.sent, id) <= Requests(l.nats.sent, id) + Accepted(l, ops, id)
    decreases |ops|
  {
    if ops != [] {
      var op := ops[0];
      if op.DoPublish? {
        PublishKeepsExact(l, op.pp, op.subOk, op.pubOk);
      } else {
        AckKeepsExact(l, op.id);
      }
      RequestsOfOne(l, op, id);
      AwaitedAfterOne(l, op, id);
      hide Exact, PublishLink, AckLink, Awaited, Accepts, Requests;
      AckConservation(Apply(l, op), ops[1..], id);
    }
  }

  // ---- the subscription table

  predicate IsData(conn: nat, s: Sub) { s.conn == conn && s.handler.DataHandler? }

  /** The live data subscriptions of the connection are exactly the values of the table, one per subject. */
  ghost predicate TableExact(t: Table, conn: nat) {
    && t.nats.Valid()
    && (forall s :: s in t.nats.live && IsData(conn, s) ==> s.subject in t.subs && t.subs[s.subject] == s)
    && (forall n :: n in t.subs ==> t.subs[n].subject == n && t.subs[n] in t.nats.live && IsData(conn, t.subs[n]))
  }

  lemma CancelledHas(subs: map<string, Sub>, names: seq<string>, n: string)
    ensures n in names && n in subs ==> subs[n] in Cancelled(subs, names)
  {
  }

  lemma CancelKeepsExact(t: Table, conn: nat, names: seq<string>)
    requires TableExact(t, conn)
    ensures TableExact(UnsubscribeTable(t, names), conn)
    ensures forall n :: n in UnsubscribeTable(t, names).subs ==> n !in names
  {
    var t' := UnsubscribeTable(t, names);
    forall s | s in t'.nats.live && IsData(conn, s) ensures s.subject in t'.subs && t'.subs[s.subject] == s {
      assert t.subs[s.subject] == s;
      CancelledHas(t.subs, names, s.subject);
    }
  }

  /** After an UNSUBSCRIBE the table is exact and holds none of the names. */
  lemma UnsubscribeIsExact(t: Table, conn: nat, names: seq<string>)
    requires TableExact(t, conn)
    ensures var t' := UnsubscribeTable(t, names);
            TableExact(t', conn) && t'.subs.Keys == t.subs.Keys - set n | n in names
  {
    CancelKeepsExact(t, conn, names);
  }

  function AcceptedNames(topics: seq<Topic>, oks: seq<bool>): set<string>
    requires |topics| == |oks|
  {
    if topics == [] then {}
    else
      var n := |topics| - 1;
      AcceptedNames(topics[..n], oks[..n]) + if oks[n] then {FilterName(topics[n])} else {}
  }

  /** Some filter that NATS accepts has the subject of an accepted filter before it in the packet. */
  predicate Duplicate(topics: seq<Topic>, oks: seq<bool>)
    requires |topics| == |oks|
  {
    topics != [] &&
    var n := |topics| - 1;
    Duplicate(topics[..n], oks[..n]) || (oks[n] && FilterName(topics[n]) in AcceptedNames(topics[..n], oks[..n]))
  }

  function SubjectSet(nss: seq<Sub>): set<string> { set s | s in nss :: s.subject }

  predicate Distinct(nss: seq<Sub>) {
    nss == [] || (var n := |nss| - 1; Distinct(nss[..n]) && nss[n].subject !in SubjectSet(nss[..n]))
  }

  predicate Rising(nss: seq<Sub>, lo: nat, hi: nat) {
    && (forall a :: 0 <= a < |nss| ==> lo <= nss[a].sid < hi)
    && (forall a, b :: 0 <= a < b < |nss| ==> nss[a].sid < nss[b].sid)
  }

  /** The subscriptions that were made, and NATS after them. */
  ghost predicate Made(conn: nat, nats: NatsState, after: NatsState, nss: seq<Sub>) {
    && after.Valid() && after.next >= nats.next && after.live == nats.live + Subs(nss)
    && Rising(nss, nats.next, after.next) && (forall s :: s in nss ==> IsData(conn, s))
  }

  lemma OneMoreMade(conn: nat, nats: NatsState, before: NatsState, nss: seq<Sub>, subject: string, qos: u8)
    requires Made(conn, nats, before, nss)
    ensures var (after, ns) := before.Subscribed(conn, subject, DataHandler(qos)); Made(conn, nats, after, nss + [ns])
  {
    var (after, ns) := before.Subscribed(conn, subject, DataHandler(qos));
    OneMoreSub(nss, ns);
    hide Subs;
  }

  lemma {:induction false} MadeFresh(nats: NatsState, conn: nat, topics: seq<Topic>, oks: seq<bool>)
    requires |topics| == |oks| && nats.Valid()
    ensures var (after, nss) := Subscribing(nats, conn, topics, oks); Made(conn, nats, after, nss)
  {
    if topics != [] {
      var n := |topics| - 1;
      hide Made, FilterName, ClampQoS;
      MadeFresh(nats, conn, topics[..n], oks[..n]);
      var (before, nss) := Subscribing(nats, conn, topics[..n], oks[..n]);
      OneMoreMade(conn, nats, before, nss, FilterName(topics[n]), ClampQoS(topics[n].qos));
    }
  }

  lemma {:induction false} MadeNamed(nats: NatsState, conn: nat, topics: seq<Topic>, oks: seq<bool>)
    requires |topics| == |oks|
    ensures var nss := Subscribing(nats, conn, topics, oks).1;
            SubjectSet(nss) == AcceptedNames(topics, oks) && (Distinct(nss) <==> !Duplicate(topics, oks))
  {
    if topics != [] {
      var n := |topics| - 1;
      MadeNamed(nats, conn, topics[..n], oks[..n]);
      var (before, nss) := Subscribing(nats, conn, topics[..n], oks[..n]);
      if oks[n] {
        var (after, ns) := before.Subscribed(conn, FilterName(topics[n]), DataHandler(ClampQoS(topics[n].qos)));
        assert (nss + [ns])[..|nss|] == nss;
        OneMoreSub(nss, ns);
      }
    }
  }

  lemma OneMoreSub(nss: seq<Sub>, ns: Sub)
    ensures Subs(nss + [ns]) == Subs(nss) + {ns}
    ensures SubjectSet(nss + [ns]) == SubjectSet(nss) + {ns.subject}
  {
    assert ns in nss + [ns];
    forall s | s in nss ensures s.subject in SubjectSet(nss + [ns]) { assert s in nss + [ns]; }
  }

  lemma OneMoreInserted(t: Table, conn: nat, ns: Sub)
    requires TableExact(t, conn) && IsData(conn, ns) && ns.sid < t.nats.next && ns.subject !in t.subs
    ensures TableExact(Table(t.subs[ns.subject := ns], NatsState(t.nats.next, t.nats.live + {ns}, t.nats.sent)), conn)
  {
  }

  lemma {:induction false} InsertedKeys(subs: map<string, Sub>, nss: seq<Sub>)
    ensures Inserted(subs, nss).Keys == subs.Keys + SubjectSet(nss)
  {
    if nss != [] {
      var n := |nss| - 1;
      InsertedKeys(subs, nss[..n]);
      assert nss[..n] + [nss[n]] == nss;
      OneMoreSub(nss[..n], nss[n]);
    }
  }

  /** New data subscriptions of the connection, for subjects that the table does not hold, each once. */
  ghost predicate Insertable(t: Table, conn: nat, nss: seq<Sub>, next: nat) {
    && t.nats.next <= next && Rising(nss, t.nats.next, next) && (forall s :: s in nss ==> IsData(conn, s))
    && Distinct(nss) && forall s :: s in nss ==> s.subject !in t.subs
  }

  lemma InsertablePrefix(t: Table, conn: nat, nss: seq<Sub>, next: nat)
    requires Insertable(t, conn, nss, next) && nss != []
    ensures Insertable(t, conn, nss[..|nss| - 1], next)
  {
    hide IsData;
  }

  lemma InsertableLast(t: Table, conn: nat, nss: seq<Sub>, next: nat)
    requires Insertable(t, conn, nss, next) && nss != []
    ensures var ns := nss[|nss| - 1];
            IsData(conn, ns) && ns.sid < next && ns.subject !in Inserted(t.subs, nss[..|nss| - 1])
  {
    hide IsData, Inserted, SubjectSet;
    assert nss[|nss| - 1] in nss;
    InsertedKeys(t.subs, nss[..|nss| - 1]);
  }

  lemma {:induction false} InsertedExact(t: Table, conn: nat, nss: seq<Sub>, next: nat)
    requires TableExact(t, conn) && Insertable(t, conn, nss, next)
    ensures TableExact(Table(Inserted(t.subs, nss), NatsState(next, t.nats.live + Subs(nss), t.nats.sent)), conn)
  {
    if nss == [] {
      assert t.nats.live + Subs(nss) == t.nats.live;
    } else {
      hide TableExact, IsData, SubjectSet, Subs, Insertable;
      var n := |nss| - 1;
      InsertablePrefix(t, conn, nss, next);
      InsertableLast(t, conn, nss, next);
      assert nss[..n] + [nss[n]] == nss;
      InsertedExact(t, conn, nss[..n], next);
      OneMoreSub(nss[..n], nss[n]);
      var before := NatsState(next, t.nats.live + Subs(nss[..n]), t.nats.sent);
      OneMoreInserted(Table(Inserted(t.subs, nss[..n]), before), conn, nss[n]);
      assert before.live + {nss[n]} == t.nats.live + Subs(nss);
    }
  }

  /** The table holds the last subscription made for a subject. */
  lemma {:induction false} InsertedLast(subs: map<string, Sub>, nss: seq<Sub>, b: nat, lo: nat, hi: nat)
    requires b < |nss| && Rising(nss, lo, hi)
    ensures nss[b].subject in Inserted(subs, nss) && Inserted(subs, nss)[nss[b].subject].sid >= nss[b].sid
  {
    var n := |nss| - 1;
    if b < n { InsertedLast(subs, nss[..n], b, lo, hi); }
  }

  lemma {:induction false} NotDistinct(nss: seq<Sub>) returns (a: nat, b: nat)
    requires !Distinct(nss)
    ensures a < b < |nss| && nss[a].subject == nss[b].subject
  {
    var n := |nss| - 1;
    if Distinct(nss[..n]) {
      var s :| s in nss[..n] && s.subject == nss[n].subject;
      a :| 0 <= a < n && nss[a] == s;
      b := n;
    } else {
      a, b := NotDistinct(nss[..n]);
    }
  }

  /**
   * A SUBSCRIBE replaces the subscriptions of the subjects it names, and leaves the table equal to the live
   * data subscriptions exactly when it does not name one subject twice.
   */
  lemma SubscribeIsExact(t: Table, conn: nat, topics: seq<Topic>, oks: seq<bool>)
    requires |topics| == |oks| && TableExact(t, conn)
    ensures var t' := SubscribeTable(t, conn, topics, oks);
            && (TableExact(t', conn) <==> !Duplicate(topics, oks))
            && (!Duplicate(topics, oks) ==>
                 t'.subs.Keys == (t.subs.Keys - set n | n in FilterNames(topics)) + AcceptedNames(topics, oks))
  {
    var names := FilterNames(topics);
    var t0, t' := UnsubscribeTable(t, names), SubscribeTable(t, conn, topics, oks);
    CancelKeepsExact(t, conn, names);
    MadeFresh(t0.nats, conn, topics, oks);
    MadeNamed(t0.nats, conn, topics, oks);
    var (after, nss) := Subscribing(t0.nats, conn, topics, oks);
    if Duplicate(topics, oks) {
      var a, b := NotDistinct(nss);
      InsertedLast(t0.subs, nss, b, t0.nats.next, after.next);
      assert nss[a] in t'.nats.live && t'.subs[nss[a].subject] != nss[a];
    } else {
      AcceptedAreNamed(topics, oks);
      assert forall s :: s in nss ==> s.subject in SubjectSet(nss);
      InsertedExact(t0, conn, nss, after.next);
      InsertedKeys(t0.subs, nss);
      SentUnchanged(t0.nats, conn, topics, oks);
    }
  }

  lemma {:induction false} AcceptedAreNamed(topics: seq<Topic>, oks: seq<bool>)
    requires |topics| == |oks|
    ensures forall s :: s in AcceptedNames(topics, oks) ==> s in FilterNames(topics)
  {
    if topics != [] {
      var n := |topics| - 1;
      AcceptedAreNamed(topics[..n], oks[..n]);
      assert FilterNames(topics) == FilterNames(topics[..n]) + [FilterName(topics[n])];
    }
  }

  lemma {:induction false} SentUnchanged(nats: NatsState, conn: nat, topics: seq<Topic>, oks: seq<bool>)
    requires |topics| == |oks|
    ensures Subscribing(nats, conn, topics, oks).0.sent == nats.sent
  {
    if topics != [] {
      SentUnchanged(nats, conn, topics[..|topics| - 1], oks[..|topics| - 1]);
    }
  }

  // ---- inputs at which the two promises fail

  function NewLink(): Link { Link(0, NewSession("s1", "c"), NatsState(0, {}, [])) }

  function Seventh(topic: string): Publish { Publish(topic, "", "", 7, 2, false) }

  function AckSub(sid: nat, topic: string): Sub { Sub(sid, 0, ReplySubject(NewLink().session, Seventh(topic)), AckHandler) }

  lemma OnceAndTwice(topic: string)
    ensures var once := PublishLink(NewLink(), Seventh(topic), true, true);
            var twice := PublishLink(once, Seventh(topic), true, true);
            && !Repeats(once, Seventh(topic)) && Reuses(once, Seventh(topic), true)
            && twice.nats.live == {AckSub(0, topic), AckSub(1, topic)} && twice.session.awaitsAck == map[7 := AckSub(1, topic)]
            && twice.nats.next == 2
  {
    hide Print, RequestOf;
  }

  lemma OrphanStays(l: Link, kept: Sub, orphan: Sub)
    requires l.session.awaitsAck == map[7 := kept] && l.nats.live == {orphan, kept} && kept != orphan
    requires orphan.handler == AckHandler
    ensures !Exact(l) && !Exact(AckLink(l, 7)) && AckLink(l, 7).session.awaitsAck == map[] && AckLink(l, 7).nats.live == {orphan}
  {
    var end := AckLink(l, 7);
    assert end.session.awaitsAck == map[] && end.nats.live == {orphan};
    assert orphan in l.nats.live && orphan in end.nats.live;
  }

  /**
   * From a new session: a QoS 1 publish of id 7 that awaits its ack, and another one of id 7 that is no repetition.
   * There are two live ack subscriptions for one awaited id, and one is left when the ack has been processed.
   */
  lemma ReuseOrphansASubscription(topic: string)
    ensures var once := PublishLink(NewLink(), Seventh(topic), true, true);
            var twice := PublishLink(once, Seventh(topic), true, true);
            && Exact(NewLink()) && Exact(once) && Reuses(once, Seventh(topic), true)
            && !Exact(twice) && !Exact(AckLink(twice, 7))
            && AckLink(twice, 7).session.awaitsAck == map[] && AckLink(twice, 7).nats.live == {AckSub(0, topic)}
  {
    PublishKeepsExact(NewLink(), Seventh(topic), true, true);
    OnceAndTwice(topic);
    hide PublishLink, AckLink, ReplySubject;
    OrphanStays(PublishLink(PublishLink(NewLink(), Seventh(topic), true, true), Seventh(topic), true, true),
                AckSub(1, topic), AckSub(0, topic));
  }

  /** On an empty table: one SUBSCRIBE that names a filter twice leaves a live subscription that the table does not hold. */
  lemma DuplicateOrphansASubscription(filter: string, conn: nat)
    ensures var t := Table(map[], NatsState(0, {}, []));
            var topics := [Topic(filter, 1), Topic(filter, 1)];
            var t' := SubscribeTable(t, conn, topics, [true, true]);
            TableExact(t, conn) && Duplicate(topics, [true, true]) && !TableExact(t', conn)
  {
    var t := Table(map[], NatsState(0, {}, []));
    var topics := [Topic(filter, 1), Topic(filter, 1)];
    assert topics[..1] == [Topic(filter, 1)] && topics[..1][..0] == [] && [true, true][..1] == [true];
    assert FilterName(topics[0]) in AcceptedNames(topics[..1], [true]);
    SubscribeIsExact(t, conn, topics, [true, true]);
  }
}
