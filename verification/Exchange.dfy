// What one client's requests put on NATS and what a NATS message becomes for a client, told by header bits, subjects
// and messages.
module Exchange {
  import opened Basics
  import opened Strconv
  import opened Packets
  import opened Nats
  import opened Sessions
  import opened Clients
  import opened ReplyTopics
  import opened WireFormat
  import opened AckLaws
  import Topics

  /** The QoS level in bits 1 and 2 of a PUBLISH's flags. */
  function Level(flags: u8): nat { BitValue(Bit(flags, 1)) + 2 * BitValue(Bit(flags, 2)) }

  function Least(a: nat, b: nat): nat { if a <= b then a else b }

  /** Translated back, the subject is the topic; the data is the payload. */
  predicate Carries(m: Msg, pp: Publish) { Topics.Rewrite(Topics.TopicRune, m.subject) == pp.name && m.data == pp.payload }

  /** The subject spells out the session, the packet id and the flags. */
  predicate Spells(subject: string, s: SessionState, pp: Publish) {
    ParseReplyTopic(subject) == Some(ReplyTopic(s.clientID, s.id, pp.id, pp.flags))
  }

  predicate DotFree(s: SessionState) { '.' !in s.clientID && '.' !in s.id }

  /** One more message was sent. */
  predicate Sent(before: NatsState, after: NatsState, m: Msg) { after.sent == before.sent + [m] }

  // ---- what a PUBLISH puts on NATS

  /** A DUP of an awaited id is dropped, and so is a QoS level above 1, with an error. */
  lemma DroppedPublish(l: Link, pp: Publish, subOk: bool, pubOk: bool)
    ensures Bit(pp.flags, 3) && pp.id in l.session.awaitsAck ==>
              PublishLink(l, pp, subOk, pubOk) == l && PublishOutcome(l, pp, subOk, pubOk) == Success(())
    ensures !(Bit(pp.flags, 3) && pp.id in l.session.awaitsAck) && Level(pp.flags) >= 2 ==>
              PublishLink(l, pp, subOk, pubOk) == l && PublishOutcome(l, pp, subOk, pubOk) == Failure(QoSNotSupported)
  {
    FlagBits(pp.flags);
    hide Bit;
  }

  /** The publish is none of those. */
  predicate Passes(l: Link, pp: Publish) { !(Bit(pp.flags, 3) && pp.id in l.session.awaitsAck) && Level(pp.flags) <= 1 }

  /** At QoS 0 one message without a reply subject carries the publish, and nothing else changes. */
  lemma FireAndForget(l: Link, pp: Publish, subOk: bool, pubOk: bool) returns (m: Msg)
    requires Passes(l, pp) && Level(pp.flags) == 0
    ensures var l' := PublishLink(l, pp, subOk, pubOk);
            && l'.conn == l.conn && l'.session == l.session && l'.nats.live == l.nats.live && l'.nats.next == l.nats.next
            && (if pubOk then Sent(l.nats, l'.nats, m) else l'.nats.sent == l.nats.sent)
    ensures Carries(m, pp) && m.reply == ""
    ensures PublishOutcome(l, pp, subOk, pubOk) == if pubOk then Success(()) else Failure(PublishFailed)
  {
    FlagBits(pp.flags);
    Topics.RewriteTwice(Topics.TopicRune, pp.name);
    hide Bit, Topics.Rewrite;
    m := Msg(Topics.Rewrite(Topics.TopicRune, pp.name), "", pp.payload);
  }

  /**
   * At QoS 1 one request carries the publish, with a reply subject that spells out who sent it; that subject is
   * subscribed to first and its ack is awaited under the packet's id. If that fails, nothing happens.
   */
  lemma RequestIsSent(l: Link, pp: Publish, subOk: bool, pubOk: bool) returns (m: Msg, sub: Sub)
    requires Passes(l, pp) && Level(pp.flags) == 1 && DotFree(l.session)
    ensures var l', r := PublishLink(l, pp, subOk, pubOk), PublishOutcome(l, pp, subOk, pubOk);
            if !subOk then l' == l && r == Failure(SubscribeFailed)
            else
              && l'.conn == l.conn && l'.session == l.session.(awaitsAck := l.session.awaitsAck[pp.id := sub])
              && l'.nats.live == l.nats.live + {sub} && l'.nats.next == l.nats.next + 1
              && (if pubOk then Sent(l.nats, l'.nats, m) else l'.nats.sent == l.nats.sent)
              && r == if pubOk then Success(()) else Failure(PublishFailed)
    ensures sub.sid == l.nats.next && sub.conn == l.conn && sub.handler == AckHandler && Spells(sub.subject, l.session, pp)
    ensures Carries(m, pp) && m.reply == sub.subject
  {
    FlagBits(pp.flags);
    Topics.RewriteTwice(Topics.TopicRune, pp.name);
    ReplyRoundTrip(ReplyTopic(l.session.clientID, l.session.id, pp.id, pp.flags));
    hide Bit, Topics.Rewrite, ParseReplyTopic, Print;
    sub := Sub(l.nats.next, l.conn, ReplySubject(l.session, pp), AckHandler);
    m := RequestOf(l.session, pp);
  }

  // ---- what a NATS message becomes

  /** Topic, payload and reply subject are the message's; the rest is said by case. */
  predicate Conveys(d: Publish, m: Msg) {
    Topics.Rewrite(Topics.TopicRune, d.name) == m.subject && d.payload == m.data && d.replyTo == m.reply && !d.sentByUs
  }

  lemma ResponseConveys(desiredQoS: u8, m: Msg, freshID: u16)
    ensures Conveys(Response(desiredQoS, m, freshID).0, m)
  {
    Topics.RewriteTwice(Topics.TopicRune, m.subject);
    hide ParseReplyTopic, Topics.Rewrite;
  }

  /** To a subscriber at QoS 0, and without a reply subject, a message goes out without id and flags at QoS 0. */
  lemma PlainDelivery(desiredQoS: u8, m: Msg, freshID: u16)
    requires desiredQoS == 0 || m.reply == ""
    ensures var (d, qos) := Response(desiredQoS, m, freshID);
            Conveys(d, m) && d.id == 0 && d.flags == 0 && qos == 0
  {
    ResponseConveys(desiredQoS, m, freshID);
    hide ParseReplyTopic, Topics.Rewrite;
  }

  /** With a reply subject of the bridge it carries the id and the flags that this spells out, at the lower QoS. */
  lemma BridgedDelivery(desiredQoS: u8, m: Msg, freshID: u16, r: ReplyTopic)
    requires desiredQoS > 0 && ParseReplyTopic(m.reply) == Some(r)
    ensures var (d, qos) := Response(desiredQoS, m, freshID);
            Conveys(d, m) && d.id == r.packetID && d.flags == r.flags && qos == Least(Level(r.flags), desiredQoS)
  {
    EmptyIsNoReply();
    FlagBits(r.flags);
    ResponseConveys(desiredQoS, m, freshID);
    hide ParseReplyTopic, Topics.Rewrite, Bit;
  }

  /** With any other reply subject it carries the granted id at QoS 1, and neither DUP nor RETAIN. */
  lemma ForeignDelivery(desiredQoS: u8, m: Msg, freshID: u16)
    requires desiredQoS > 0 && m.reply != "" && ParseReplyTopic(m.reply).None?
    ensures var (d, qos) := Response(desiredQoS, m, freshID);
            && Conveys(d, m) && d.id == freshID && qos == 1
            && Level(d.flags) == 1 && !Bit(d.flags, 3) && !Bit(d.flags, 0)
  {
    FlagBits(2);
    ResponseConveys(desiredQoS, m, freshID);
    hide ParseReplyTopic, Topics.Rewrite;
  }

  /** What the session awaits an ack for: this delivery under its id, and what it awaited before under all others. */
  lemma DeliveryIsAwaited(s: SessionState, d: Publish, id: u16)
    ensures var t := s.ClientAckRequested(d);
            && (id in t.awaitsClientAck <==> id == d.id || id in s.awaitsClientAck)
            && (id in t.awaitsClientAck ==> t.awaitsClientAck[id] == if id == d.id then d else s.awaitsClientAck[id])
            && t.id == s.id && t.clientID == s.clientID && t.awaitsAck == s.awaitsAck && t.prelAwaitsAck == s.prelAwaitsAck
  {
  }

  /** A delivery is sent again as it was, flags included, one for each place in the order. */
  lemma {:induction false} ResentAt(unack: map<u16, Publish>, order: seq<u16>, i: nat)
    requires (forall k :: k in order ==> k in unack) && i < |order|
    ensures |Resent(unack, order)| == |order| && Resent(unack, order)[i] == PublishPacket(unack[order[i]])
  {
    var n := |order| - 1;
    if i < n {
      ResentAt(unack, order[..n], i);
    } else if n > 0 {
      ResentAt(unack, order[..n], 0);
    }
  }

  // ---- from a publisher to a subscriber

  /**
   * A publish that got through is delivered, out of the message that was sent for it, under its own topic with its own
   * payload. At QoS 1, to a subscriber at QoS > 0, it carries its own id and all of its flags; in every other case neither.
   */
  lemma DeliveryMirrorsPublish(l: Link, pp: Publish, desiredQoS: u8, freshID: u16) returns (m: Msg)
    requires Passes(l, pp) && DotFree(l.session)
    ensures Sent(l.nats, PublishLink(l, pp, true, true).nats, m)
    ensures var (d, qos) := Response(desiredQoS, m, freshID);
            && d.name == pp.name && d.payload == pp.payload
            && (d.id, d.flags, qos) == if desiredQoS > 0 && Level(pp.flags) == 1 then (pp.id, pp.flags, 1) else (0, 0, 0)
  {
    hide Passes, Level, Topics.Rewrite, ParseReplyTopic, PublishLink, Response, PublishOutcome, Carries, Spells, Conveys;
    LevelIsLow(l, pp);
    if Level(pp.flags) == 0 {
      m := FireAndForget(l, pp, true, true);
      PlainDelivery(desiredQoS, m, freshID);
    } else {
      var sub;
      m, sub := RequestIsSent(l, pp, true, true);
      SpelledReply(sub.subject, l.session, pp);
      if desiredQoS == 0 {
        PlainDelivery(desiredQoS, m, freshID);
      } else {
        BridgedDelivery(desiredQoS, m, freshID, ReplyTopic(l.session.clientID, l.session.id, pp.id, pp.flags));
      }
    }
    SameTopic(Response(desiredQoS, m, freshID).0, m, pp);
  }

  lemma LevelIsLow(l: Link, pp: Publish)
    requires Passes(l, pp)
    ensures Level(pp.flags) <= 1
  {
  }

  lemma SpelledReply(subject: string, s: SessionState, pp: Publish)
    requires Spells(subject, s, pp)
    ensures ParseReplyTopic(subject) == Some(ReplyTopic(s.clientID, s.id, pp.id, pp.flags))
  {
  }

  lemma SameTopic(d: Publish, m: Msg, pp: Publish)
    requires Conveys(d, m) && Carries(m, pp)
    ensures d.name == pp.name && d.payload == pp.payload
  {
    Topics.RewriteTwice(Topics.TopicRune, d.name);
  }

  // ---- the subscription table, filter by filter

  /** The last of the accepted filters with this subject, if there is one. */
  predicate IsLast(topics: seq<Topic>, oks: seq<bool>, i: nat)
    requires |topics| == |oks|
  {
    && i < |topics| && oks[i]
    && forall j :: i < j < |topics| && oks[j] ==>
         Topics.Rewrite(Topics.FilterRune, topics[j].name) != Topics.Rewrite(Topics.FilterRune, topics[i].name)
  }

  /** QoS 2 is granted as 1. */
  function Granted(t: Topic): nat { Least(t.qos, 1) }

  lemma {:induction false} InsertedElsewhere(subs: map<string, Sub>, nss: seq<Sub>, n: string)
    requires forall s :: s in nss ==> s.subject != n
    ensures n in Inserted(subs, nss) <==> n in subs
    ensures n in subs ==> Inserted(subs, nss)[n] == subs[n]
  {
    if nss != [] {
      assert nss[|nss| - 1] in nss;
      InsertedElsewhere(subs, nss[..|nss| - 1], n);
    }
  }

  /** The table entry of a filter is a live subscription of the connection, for its subject, at the granted QoS. */
  lemma {:induction false} EntryOf(subs: map<string, Sub>, nats: NatsState, conn: nat, topics: seq<Topic>, oks: seq<bool>, i: nat)
    requires |topics| == |oks| && IsLast(topics, oks, i)
    ensures var (after, nss) := Subscribing(nats, conn, topics, oks);
            var name := Topics.Rewrite(Topics.FilterRune, topics[i].name);
            && name in Inserted(subs, nss)
            && var sub := Inserted(subs, nss)[name];
               sub in after.live && sub.conn == conn && sub.subject == name && sub.handler == DataHandler(Granted(topics[i]))
  {
    var n := |topics| - 1;
    var (before, nss) := Subscribing(nats, conn, topics[..n], oks[..n]);
    if i < n {
      EntryOf(subs, nats, conn, topics[..n], oks[..n], i);
    }
    if oks[n] {
      var ns := before.Subscribed(conn, FilterName(topics[n]), DataHandler(ClampQoS(topics[n].qos))).1;
      assert (nss + [ns])[..|nss|] == nss;
    }
  }

  /** No filter of the packet that was accepted has this subject. */
  lemma {:induction false} NotMade(nats: NatsState, conn: nat, topics: seq<Topic>, oks: seq<bool>, name: string)
    requires |topics| == |oks|
    requires forall i :: 0 <= i < |topics| && oks[i] ==> Topics.Rewrite(Topics.FilterRune, topics[i].name) != name
    ensures forall s :: s in Subscribing(nats, conn, topics, oks).1 ==> s.subject != name
  {
    if topics != [] {
      var n := |topics| - 1;
      NotMade(nats, conn, topics[..n], oks[..n], name);
    }
  }

  /** Some filter of the packet has this subject. */
  ghost predicate Named(topics: seq<Topic>, name: string) {
    exists i :: 0 <= i < |topics| && Topics.Rewrite(Topics.FilterRune, topics[i].name) == name
  }

  /** A subscription that was made for filter i. */
  predicate MadeFor(s: Sub, conn: nat, topics: seq<Topic>, oks: seq<bool>, i: nat)
    requires |topics| == |oks|
  {
    && i < |topics| && oks[i] && s.conn == conn
    && s.subject == Topics.Rewrite(Topics.FilterRune, topics[i].name) && s.handler == DataHandler(Granted(topics[i]))
  }

  /** What was made is live, nothing else becomes live and nothing is sent. */
  lemma {:induction false} SubscribingLive(nats: NatsState, conn: nat, topics: seq<Topic>, oks: seq<bool>)
    requires |topics| == |oks|
    ensures var (after, nss) := Subscribing(nats, conn, topics, oks); after.sent == nats.sent && after.live == nats.live + Subs(nss)
  {
    if topics != [] {
      hide FilterName, ClampQoS;
      var n := |topics| - 1;
      SubscribingLive(nats, conn, topics[..n], oks[..n]);
      var (before, nss) := Subscribing(nats, conn, topics[..n], oks[..n]);
      if oks[n] { OneMoreSub(nss, before.Subscribed(conn, FilterName(topics[n]), DataHandler(ClampQoS(topics[n].qos))).1); }
    }
  }

  /** Each accepted filter has one subscription made for it, in order: number k is for filter of[k]. */
  lemma {:induction false} SubscribingMakes(nats: NatsState, conn: nat, topics: seq<Topic>, oks: seq<bool>) returns (of: seq<nat>)
    requires |topics| == |oks|
    ensures var nss := Subscribing(nats, conn, topics, oks).1;
            && |of| == |nss| && (forall k :: 0 <= k < |nss| ==> MadeFor(nss[k], conn, topics, oks, of[k]))
            && (forall a, b :: 0 <= a < b < |of| ==> of[a] < of[b])
            && (forall i :: 0 <= i < |topics| && oks[i] ==> i in of)
  {
    of := [];
    if topics != [] {
      var n := |topics| - 1;
      of := SubscribingMakes(nats, conn, topics[..n], oks[..n]);
      var (before, nss) := Subscribing(nats, conn, topics[..n], oks[..n]);
      forall k | 0 <= k < |nss| ensures MadeFor(nss[k], conn, topics, oks, of[k]) && of[k] < n {
        MadeStill(nss[k], conn, topics, oks, n, of[k]);
      }
      if oks[n] {
        MadeLast(before, conn, topics, oks);
        hide MadeFor, FilterName, ClampQoS;
        of := of + [n];
      }
    }
  }

  lemma MadeLast(before: NatsState, conn: nat, topics: seq<Topic>, oks: seq<bool>)
    requires |topics| == |oks| > 0 && oks[|topics| - 1]
    ensures var t := topics[|topics| - 1];
            MadeFor(before.Subscribed(conn, FilterName(t), DataHandler(ClampQoS(t.qos))).1, conn, topics, oks, |topics| - 1)
  {
  }

  lemma MadeStill(s: Sub, conn: nat, topics: seq<Topic>, oks: seq<bool>, n: nat, i: nat)
    requires |topics| == |oks| && n <= |topics| && MadeFor(s, conn, topics[..n], oks[..n], i)
    ensures MadeFor(s, conn, topics, oks, i) && i < n
  {
  }

  lemma NamesAre(topics: seq<Topic>, name: string)
    ensures name in FilterNames(topics) <==> Named(topics, name)
  {
    hide Topics.Rewrite;
    if Named(topics, name) {
      var i :| 0 <= i < |topics| && Topics.Rewrite(Topics.FilterRune, topics[i].name) == name;
      assert FilterNames(topics)[i] == name;
    }
  }

  /** Of the live subscriptions exactly the connection's own data subscriptions with a subject of the names are cancelled. */
  lemma CancelsNamed(t: Table, conn: nat, names: seq<string>, s: Sub)
    requires TableExact(t, conn) && s in t.nats.live
    ensures s in UnsubscribeTable(t, names).nats.live <==> !(IsData(conn, s) && s.subject in names)
  {
    if IsData(conn, s) && s.subject in names { CancelledHas(t.subs, names, s.subject); }
  }

  /** An UNSUBSCRIBE cancels the connection's data subscriptions with a subject of the names, and no other subscription. */
  lemma UnsubscribeCancels(t: Table, conn: nat, names: seq<string>)
    requires TableExact(t, conn)
    ensures var t' := UnsubscribeTable(t, names);
            && t'.nats.sent == t.nats.sent
            && (forall s :: s in t'.nats.live <==> s in t.nats.live && !(IsData(conn, s) && s.subject in names))
            && (forall n :: n in t'.subs <==> n in t.subs && n !in names) && (forall n :: n in t'.subs ==> t'.subs[n] == t.subs[n])
  {
    forall s | s in t.nats.live
      ensures s in UnsubscribeTable(t, names).nats.live <==> !(IsData(conn, s) && s.subject in names)
    {
      CancelsNamed(t, conn, names, s);
    }
  }

  /** Some filter of the packet that NATS accepted has this subject. */
  ghost predicate Accepted(topics: seq<Topic>, oks: seq<bool>, name: string)
    requires |topics| == |oks|
  {
    exists i :: 0 <= i < |topics| && oks[i] && Topics.Rewrite(Topics.FilterRune, topics[i].name) == name
  }

  /** The subscription was there before and is none that the packet replaces. */
  ghost predicate Untouched(t: Table, conn: nat, topics: seq<Topic>, s: Sub) {
    s in t.nats.live && !(IsData(conn, s) && Named(topics, s.subject))
  }

  /** Live afterwards are the subscriptions that the packet does not name and those made for its filters, and nothing is sent. */
  lemma SubscribeMakesLive(t: Table, conn: nat, topics: seq<Topic>, oks: seq<bool>)
    requires |topics| == |oks| && TableExact(t, conn)
    ensures var t' := SubscribeTable(t, conn, topics, oks);
            && t'.nats.sent == t.nats.sent
            && (forall s :: Untouched(t, conn, topics, s) ==> s in t'.nats.live)
            && (forall s :: s in t'.nats.live ==> Untouched(t, conn, topics, s) || exists i :: MadeFor(s, conn, topics, oks, i))
  {
    var names := FilterNames(topics);
    var t0, t' := UnsubscribeTable(t, names), SubscribeTable(t, conn, topics, oks);
    var of := SubscribingMakes(t0.nats, conn, topics, oks);
    SubscribingLive(t0.nats, conn, topics, oks);
    var nss := Subscribing(t0.nats, conn, topics, oks).1;
    UnsubscribeCancels(t, conn, names);
    hide TableExact, MadeFor, Named, UnsubscribeTable;
    assert t'.nats.live == t0.nats.live + Subs(nss);
    forall s | Untouched(t, conn, topics, s) ensures s in t'.nats.live { NamesAre(topics, s.subject); }
    forall s | s in t'.nats.live ensures Untouched(t, conn, topics, s) || exists i :: MadeFor(s, conn, topics, oks, i) {
      NamesAre(topics, s.subject);
      if s in Subs(nss) {
        var k :| 0 <= k < |nss| && nss[k] == s;
        assert MadeFor(s, conn, topics, oks, of[k]);
      }
    }
  }

  /**
   * The last accepted filter of a subject is in the table, with a live subscription at the lower of its QoS and 1; a
   * subject that was named and refused is not; all other entries stay.
   */
  lemma SubscribeEntry(t: Table, conn: nat, topics: seq<Topic>, oks: seq<bool>, name: string)
    requires |topics| == |oks|
    ensures var t' := SubscribeTable(t, conn, topics, oks);
            && (forall i: nat :: IsLast(topics, oks, i) && Topics.Rewrite(Topics.FilterRune, topics[i].name) == name ==>
                 name in t'.subs && t'.subs[name] in t'.nats.live && MadeFor(t'.subs[name], conn, topics, oks, i))
            && (!Accepted(topics, oks, name) ==>
                 && (name in t'.subs <==> name in t.subs && !Named(topics, name))
                 && (name in t'.subs ==> t'.subs[name] == t.subs[name]))
  {
    var names := FilterNames(topics);
    var t0 := UnsubscribeTable(t, names);
    NamesAre(topics, name);
    hide FilterNames;
    forall i: nat | IsLast(topics, oks, i) && Topics.Rewrite(Topics.FilterRune, topics[i].name) == name
      ensures var t' := SubscribeTable(t, conn, topics, oks);
              name in t'.subs && t'.subs[name] in t'.nats.live && MadeFor(t'.subs[name], conn, topics, oks, i)
    {
      EntryOf(t0.subs, t0.nats, conn, topics, oks, i);
    }
    if !Accepted(topics, oks, name) {
      NotMade(t0.nats, conn, topics, oks, name);
      InsertedElsewhere(t0.subs, Subscribing(t0.nats, conn, topics, oks).1, name);
    }
  }

  /** The SUBACK answers each filter in order: the lower of its QoS and 1, or 0x80 where NATS refused it. */
  lemma SubAckAnswers(topics: seq<Topic>, oks: seq<bool>)
    requires |topics| == |oks|
    ensures |ReturnCodes(topics, oks)| == |topics|
    ensures forall i :: 0 <= i < |topics| ==> ReturnCodes(topics, oks)[i] == if oks[i] then Granted(topics[i]) else 0x80
  {
  }

  /**
   * After a SUBSCRIBE that was granted, a publish of any client reaches the subscriber exactly when the filter matches
   * the topic level by level and translation loses nothing.
   */
  lemma SubscriberIsReached(t: Table, conn: nat, topics: seq<Topic>, oks: seq<bool>, i: nat, l: Link, pp: Publish) returns (m: Msg)
    requires |topics| == |oks| && IsLast(topics, oks, i)
    requires Passes(l, pp) && DotFree(l.session) && Topics.ValidFilter(topics[i].name) && Topics.ValidTopic(pp.name)
    ensures Sent(l.nats, PublishLink(l, pp, true, true).nats, m)
    ensures var t' := SubscribeTable(t, conn, topics, oks);
            exists s :: s in t'.nats.live && MadeFor(s, conn, topics, oks, i) &&
              (Topics.NatsMatches(s.subject, m.subject) <==>
               Topics.LevelsMatch(Split(topics[i].name, '/'), Split(pp.name, '/')) && !Topics.Lost(topics[i].name, pp.name))
  {
    var name := Topics.Rewrite(Topics.FilterRune, topics[i].name);
    SubscribeEntry(t, conn, topics, oks, name);
    Topics.TranslationPreservesMatching(topics[i].name, pp.name);
    m := MessageOf(l, pp);
    hide Topics.Rewrite, Topics.NatsMatches, Topics.LevelsMatch, Topics.Lost, PublishLink, SubscribeTable, Passes, DotFree;
    assert SubscribeTable(t, conn, topics, oks).subs[name].subject == name;
  }

  /** The message that is sent for a publish, with its subject. */
  lemma MessageOf(l: Link, pp: Publish) returns (m: Msg)
    requires Passes(l, pp) && DotFree(l.session)
    ensures Sent(l.nats, PublishLink(l, pp, true, true).nats, m)
    ensures m.subject == Topics.Rewrite(Topics.TopicRune, pp.name)
  {
    hide Topics.Rewrite, PublishLink, ParseReplyTopic;
    LevelIsLow(l, pp);
    if Level(pp.flags) == 0 {
      m := FireAndForget(l, pp, true, true);
    } else {
      var sub;
      m, sub := RequestIsSent(l, pp, true, true);
    }
    Topics.RewriteTwice(Topics.TopicRune, m.subject);
  }
}
