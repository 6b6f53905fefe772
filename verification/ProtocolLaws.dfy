// What holds over every run of the acknowledgement protocol.
module ProtocolLaws {
  import opened Basics
  import opened Strconv
  import opened Packets
  import opened Nats
  import opened Sessions
  import opened Clients
  import opened ReplyTopics
  import opened Protocol
  import Topics

  // ---- what the history must hold before each event

  /** A publish of exactly this reply subject and subject was handled, by the session and with the id that r names. */
  predicate PublishedOn(past: seq<Event>, r: string, subject: string) {
    match ParseReplyTopic(r)
    case Some(mt) => Published(mt.clientID, mt.sessionID, mt.packetID, r, subject) in past
    case None => false
  }

  ghost predicate PublishedFor(past: seq<Event>, r: string) { exists subject :: PublishedOn(past, r, subject) }

  /** A subscriber's PUBACK, or the retained request handler, caused a notification on the subject. */
  predicate Notified(past: seq<Event>, r: string) {
    exists e :: e in past && (e.Acked? || e.Answered?) && e.reply == r
  }

  /** The subject is the reply subject of a publish of packet id by the session. */
  predicate Names(r: string, client: string, sid: string, id: u16) {
    match ParseReplyTopic(r)
    case Some(mt) => mt.clientID == client && mt.sessionID == sid && mt.packetID == id
    case None => false
  }

  ghost predicate Justified(e: Event, past: seq<Event>) {
    match e
    case Published(_, _, _, _, _) => true
    case Recorded(_, _, _, r) => IsReplySubject(r) ==> PublishedFor(past, r)
    case Acked(client, sid, id, r) => Recorded(client, sid, id, r) in past
    case Answered(r, subject) => IsReplySubject(r) ==> PublishedOn(past, r, subject)
    case PubAckQueued(client, sid, id) =>
      exists r :: Names(r, client, sid, id) && PublishedFor(past, r) && Notified(past, r)
  }

  ghost predicate LogOK(log: seq<Event>) {
    forall k :: 0 <= k < |log| ==> Justified(log[k], log[..k])
  }

  /** Only what the request topic matches was answered by the handler of retained requests. */
  predicate AnswersOK(requestTopic: Option<string>, log: seq<Event>) {
    forall k :: 0 <= k < |log| && log[k].Answered? ==> ToHandler(requestTopic, log[k].subject)
  }

  lemma LogGrows(log: seq<Event>, e: Event)
    requires LogOK(log) && Justified(e, log)
    ensures LogOK(log + [e])
  {
    var log' := log + [e];
    forall k | 0 <= k < |log'| ensures Justified(log'[k], log'[..k]) {
      assert log'[..k] == log[..k];
      if k == |log| { assert log[..k] == log; }
    }
  }

  // ---- the invariant

  /** r is the ack subject of a publish of id by the session, and matches nothing but itself. */
  ghost predicate Backed(log: seq<Event>, ss: SessionState, id: u16, r: string) {
    Names(r, ss.clientID, ss.id, id) && PublishedFor(log, r) && '*' !in r && '>' !in r
  }

  ghost predicate SessionBacked(log: seq<Event>, ss: SessionState) {
    && (forall id :: id in ss.awaitsAck ==> Backed(log, ss, id, ss.awaitsAck[id].subject))
    && (forall id :: id in ss.prelAwaitsAck ==> Backed(log, ss, id, ss.prelAwaitsAck[id]))
    && (forall id :: id in ss.awaitsClientAck ==>
         ss.awaitsClientAck[id].id == id && Recorded(ss.clientID, ss.id, id, ss.awaitsClientAck[id].replyTo) in log)
  }

  ghost predicate MsgBacked(log: seq<Event>, m: Msg) {
    (IsReplySubject(m.reply) ==> PublishedOn(log, m.reply, m.subject)) && (IsReplySubject(m.subject) ==> Notified(log, m.subject))
  }

  ghost predicate SubBacked(log: seq<Event>, ss: SessionState, sub: Sub) {
    sub.handler == AckHandler ==> IsReplySubject(sub.subject) && Backed(log, ss, ParseReplyTopic(sub.subject).value.packetID, sub.subject)
  }

  ghost predicate Inv(s: State) {
    && WellTyped(s)
    && (forall r :: r in s.sessions ==> SessionBacked(s.log, s.sessions[r]))
    && (forall sub :: sub in s.nats.live ==> SubBacked(s.log, SessionOf(s, sub.conn), sub))
    && (forall m :: m in s.nats.sent ==> MsgBacked(s.log, m))
    && LogOK(s.log) && AnswersOK(s.requestTopic, s.log)
  }

  lemma PublishedGrows(log: seq<Event>, es: seq<Event>, r: string)
    ensures PublishedFor(log, r) ==> PublishedFor(log + es, r)
  {
    if PublishedFor(log, r) {
      var subject :| PublishedOn(log, r, subject);
      assert PublishedOn(log + es, r, subject);
    }
  }

  lemma BackedGrows(log: seq<Event>, es: seq<Event>, ss: SessionState)
    ensures SessionBacked(log, ss) ==> SessionBacked(log + es, ss)
    ensures forall sub :: SubBacked(log, ss, sub) ==> SubBacked(log + es, ss, sub)
  {
    hide PublishedFor, Names, ParseReplyTopic;
    forall r ensures PublishedFor(log, r) ==> PublishedFor(log + es, r) { PublishedGrows(log, es, r); }
  }

  lemma MsgBackedGrows(log: seq<Event>, es: seq<Event>)
    ensures forall m :: MsgBacked(log, m) ==> MsgBacked(log + es, m)
  {
    forall m | MsgBacked(log, m) ensures MsgBacked(log + es, m) {
      if IsReplySubject(m.subject) {
        var e :| e in log && (e.Acked? || e.Answered?) && e.reply == m.subject;
        assert e in log + es;
      }
    }
  }

  /** Growing the log by justified events keeps the invariant. */
  lemma LogKeepsInv(s: State, e: Event)
    requires Inv(s) && Justified(e, s.log) && (e.Answered? ==> ToHandler(s.requestTopic, e.subject))
    ensures Inv(Log(s, [e]))
  {
    hide SessionBacked, SubBacked, MsgBacked, LogOK, Justified;
    var t := Log(s, [e]);
    LogGrows(s.log, e);
    MsgBackedGrows(s.log, [e]);
    forall r | r in t.sessions ensures SessionBacked(t.log, t.sessions[r]) {
      BackedGrows(s.log, [e], s.sessions[r]);
    }
    forall sub | sub in t.nats.live ensures SubBacked(t.log, SessionOf(t, sub.conn), sub) {
      assert SessionOf(t, sub.conn) == SessionOf(s, sub.conn);
      BackedGrows(s.log, [e], SessionOf(s, sub.conn));
    }
  }

  predicate SameName(a: SessionState, b: SessionState) { a.id == b.id && a.clientID == b.clientID }

  /** Changing one session object within its bounds keeps the invariant. */
  lemma SessionKeepsInv(s: State, r: nat, ss: SessionState)
    requires Inv(s) && r in s.sessions && SameName(ss, s.sessions[r]) && SessionBacked(s.log, ss)
    ensures Inv(s.(sessions := s.sessions[r := ss]))
  {
    hide SessionBacked, MsgBacked, LogOK;
  }

  lemma SentKeepsInv(s: State, m: Msg)
    requires Inv(s) && MsgBacked(s.log, m)
    ensures Inv(s.(nats := s.nats.Published(m)))
  {
    hide SessionBacked, SubBacked, MsgBacked, LogOK;
  }

  lemma LiveKeepsInv(s: State, nats: NatsState)
    requires Inv(s) && nats.sent == s.nats.sent
    requires forall sub :: sub in nats.live && sub !in s.nats.live ==>
               sub.conn in s.conns && SubBacked(s.log, SessionOf(s, sub.conn), sub)
    ensures Inv(s.(nats := nats))
  {
    hide SessionBacked, SubBacked, MsgBacked, LogOK;
    var t := s.(nats := nats);
    forall sub | sub in t.nats.live ensures sub.conn in t.conns && SubBacked(t.log, SessionOf(t, sub.conn), sub) {
      assert SessionOf(t, sub.conn) == SessionOf(s, sub.conn);
    }
  }

  ghost predicate GrowsBy(log: seq<Event>, sent: seq<Msg>, sent': seq<Msg>) {
    sent' == sent || exists m :: MsgBacked(log, m) && sent' == sent + [m]
  }

  /** A handler that logs one event, changes one session, and makes subscriptions and sends a message that the event backs. */
  lemma EffectKeepsInv(s: State, r: nat, ss: SessionState, nats: NatsState, e: Event)
    requires Inv(s) && r in s.sessions && SameName(ss, s.sessions[r]) && SessionBacked(s.log + [e], ss)
    requires Justified(e, s.log) && !e.Answered?
    requires forall sub :: sub in nats.live && sub !in s.nats.live ==>
               sub.conn in s.conns && SubBacked(s.log + [e], SessionOf(s, sub.conn), sub)
    requires GrowsBy(s.log + [e], s.nats.sent, nats.sent)
    ensures Inv(Log(s, [e]).(sessions := s.sessions[r := ss], nats := nats))
  {
    hide SessionBacked, SubBacked, MsgBacked, LogOK, AnswersOK, Justified;
    LogKeepsInv(s, e);
    var s1 := Log(s, [e]);
    assert forall sub :: sub in nats.live && sub !in s.nats.live ==> SessionOf(s1, sub.conn) == SessionOf(s, sub.conn);
    var live := NatsState(nats.next, nats.live, s.nats.sent);
    LiveKeepsInv(s1, live);
    var s2 := s1.(nats := live);
    hide Inv, WellTyped;
    SessionKeepsInv(s2, r, ss);
    var s3 := s2.(sessions := s2.sessions[r := ss]);
    if nats.sent != s.nats.sent {
      var m :| MsgBacked(s.log + [e], m) && nats.sent == s.nats.sent + [m];
      SentKeepsInv(s3, m);
      assert nats == live.Published(m);
    } else {
      assert nats == live;
    }
  }

  // ---- reply subjects

  lemma IDsAreNames(n: nat)
    ensures ValidName(SessionID(n))
  {
    forall c | c in SessionID(n) ensures c != '.' && c != '*' && c != '>' {
      assert c == 's' || c in Itoa(n);
    }
  }

  lemma ReplyIsBacked(log: seq<Event>, ss: SessionState, pp: Publish)
    requires ValidName(ss.clientID) && ValidName(ss.id)
    requires Published(ss.clientID, ss.id, pp.id, ReplySubject(ss, pp), SubjectOf(pp)) in log
    ensures Backed(log, ss, pp.id, ReplySubject(ss, pp))
  {
    var rt := ReplyTopic(ss.clientID, ss.id, pp.id, pp.flags);
    ReplyRoundTrip(rt);
    assert PublishedOn(log, ReplySubject(ss, pp), SubjectOf(pp));
    var p, f := Itoa(pp.id), Itoa(pp.flags);
    forall c | c in Print(rt) ensures c != '*' && c != '>' {
      assert c in "_INBOX." || c in rt.clientID || c in rt.sessionID || c in p || c in f;
    }
  }

  /** A topic outside _INBOX/ is not rewritten to a reply subject. */
  lemma OutsideInbox(topic: string)
    requires !InInbox(topic)
    ensures !IsReplySubject(Topics.Rewrite(Topics.TopicRune, topic))
  {
    Topics.RewriteSplit(Topics.TopicRune, topic);
    var first := Split(topic, '/')[0];
    if Topics.Rewrite(Topics.TopicRune, first) == "_INBOX" {
      Topics.RewriteTwice(Topics.TopicRune, first);
      InboxUnchanged();
    }
  }

  lemma InboxUnchanged()
    ensures Topics.Rewrite(Topics.TopicRune, "_INBOX") == "_INBOX"
  {
    var s := "_INBOX";
    assert s[1..] == "INBOX" && s[1..][1..] == "NBOX" && s[1..][1..][1..] == "BOX";
    assert "BOX"[1..] == "OX" && "OX"[1..] == "X" && "X"[1..] == "";
    assert Topics.Rewrite(Topics.TopicRune, "X") == "X";
    assert Topics.Rewrite(Topics.TopicRune, "OX") == "OX";
    assert Topics.Rewrite(Topics.TopicRune, "BOX") == "BOX";
    assert Topics.Rewrite(Topics.TopicRune, "NBOX") == "NBOX";
    assert Topics.Rewrite(Topics.TopicRune, "INBOX") == "INBOX";
  }

  lemma RecordedWasPublished(log: seq<Event>, client: string, sid: string, id: u16, r: string)
    requires LogOK(log) && Recorded(client, sid, id, r) in log && IsReplySubject(r)
    ensures PublishedFor(log, r)
  {
    var k :| 0 <= k < |log| && log[k] == Recorded(client, sid, id, r);
    assert Justified(log[k], log[..k]);
    var subject :| PublishedOn(log[..k], r, subject);
    assert PublishedOn(log, r, subject);
  }

  // ---- every handler keeps the invariant

  /** A new session object becomes the current one of its client. */
  lemma SpawnKeepsInv(s: State, n: string, id: string, created: nat, used: set<string>)
    requires Inv(s) && ValidName(n) && ValidName(id)
    ensures Inv(s.(sessions := s.sessions[s.nextRef := NewSession(id, n)], nextRef := s.nextRef + 1,
                   current := s.current[n := s.nextRef], created := created, used := used))
  {
    assert SessionBacked(s.log, NewSession(id, n));
    hide MsgBacked, LogOK, SubBacked, SessionBacked, ValidName;
    var t := s.(sessions := s.sessions[s.nextRef := NewSession(id, n)], nextRef := s.nextRef + 1,
                current := s.current[n := s.nextRef], created := created, used := used);
    forall sub | sub in t.nats.live ensures SubBacked(t.log, SessionOf(t, sub.conn), sub) {
      assert SessionOf(t, sub.conn) == SessionOf(s, sub.conn);
    }
  }

  /** A connection that changes its flags, or a new one. */
  lemma ConnKeepsInv(s: State, c: nat, conn: Conn)
    requires Inv(s) && conn.session in s.sessions && (c in s.conns ==> conn.session == s.conns[c].session)
    ensures Inv(s.(conns := s.conns[c := conn]))
  {
    hide SessionBacked, SubBacked, MsgBacked, LogOK, ValidName;
    var t := s.(conns := s.conns[c := conn]);
    forall sub | sub in t.nats.live ensures SubBacked(t.log, SessionOf(t, sub.conn), sub) {
      assert SessionOf(t, sub.conn) == SessionOf(s, sub.conn);
    }
  }

  lemma CreateKeepsInv(s: State, clientID: string)
    requires Inv(s) && ValidName(clientID)
    ensures Inv(Create(s, clientID))
  {
    hide Inv, ValidName, SessionID, WellTyped;
    var id := SessionID((s.created + 1) % SEEDS);
    IDsAreNames((s.created + 1) % SEEDS);
    SpawnKeepsInv(s, clientID, id, s.created + 1, s.used + {clientID});
  }

  lemma CurrentSession(s: State, clientID: string)
    requires Inv(s) && clientID in s.current
    ensures s.current[clientID] in s.sessions
  {
  }

  lemma ConnectKeepsInv(s: State, c: nat, clientID: string, clean: bool)
    requires Inv(s) && c !in s.conns && ValidName(clientID)
    ensures Inv(DoConnect(s, c, clientID, clean))
  {
    hide Inv, ValidName, Create;
    var resumed := !clean && clientID in s.current;
    if !resumed {
      CreateKeepsInv(s, clientID);
      CreateEffect(s, clientID, c);
    }
    var t := if resumed then s else Create(s, clientID);
    CurrentSession(t, clientID);
    ConnKeepsInv(t, c, Conn(t.current[clientID], true, true));
  }

  lemma CreateEffect(s: State, clientID: string, c: nat)
    ensures Create(s, clientID).conns == s.conns && clientID in Create(s, clientID).current
  {
  }

  lemma InvFacts(s: State, r: nat)
    requires Inv(s) && r in s.sessions
    ensures WellTyped(s) && SessionBacked(s.log, s.sessions[r]) && ValidName(s.sessions[r].clientID) && ValidName(s.sessions[r].id)
  {
  }

  /** What each operation on a session does to its records. */
  lemma RecordsBacked(log: seq<Event>, ss: SessionState, id: u16)
    requires SessionBacked(log, ss)
    ensures SessionBacked(log, ss.AckReceived(id)) && SessionBacked(log, ss.ClientAckReceived(id)) && SessionBacked(log, ss.Destroyed())
    ensures SessionBacked(log, ss.(prelAwaitsAck := ss.prelAwaitsAck - {id}))
    ensures forall sub: Sub {:trigger ss.AckRequested(id, sub)} :: Backed(log, ss, id, sub.subject) ==> SessionBacked(log, ss.AckRequested(id, sub))
    ensures forall pp: Publish {:trigger ss.ClientAckRequested(pp)} ::
              Recorded(ss.clientID, ss.id, pp.id, pp.replyTo) in log ==> SessionBacked(log, ss.ClientAckRequested(pp))
  {
    hide Names, PublishedFor;
  }

  lemma RestoreKeepsInv(s: State, c: nat, id: u16, ok: bool)
    requires Inv(s) && Enabled(s, Restore(c, id, ok))
    ensures Inv(DoRestore(s, c, id, ok))
  {
    var r := s.conns[c].session;
    var ss := SessionOf(s, c);
    InvFacts(s, r);
    var left := ss.(prelAwaitsAck := ss.prelAwaitsAck - {id});
    RecordsBacked(s.log, ss, id);
    if ok {
      var (nats, sub) := s.nats.Subscribed(c, ss.prelAwaitsAck[id], AckHandler);
      assert Backed(s.log, ss, id, sub.subject) && Backed(s.log, left, id, sub.subject);
      RecordsBacked(s.log, left, id);
      BackedIsSub(s.log, ss, id, sub);
      assert SessionOf(s, sub.conn) == ss;
      hide Inv, SessionBacked, SubBacked, Backed, WellTyped;
      LiveKeepsInv(s, nats);
      SessionKeepsInv(s.(nats := nats), r, left.AckRequested(id, sub));
    } else {
      hide Inv, SessionBacked, WellTyped;
      SessionKeepsInv(s, r, left);
    }
  }

  lemma RespondKeepsInv(s: State, c: nat, qos: u8, pp: Publish)
    requires Inv(s) && c in s.conns && (IsReplySubject(pp.replyTo) ==> PublishedFor(s.log, pp.replyTo))
    ensures Inv(Respond(s, c, qos, pp))
  {
    if qos > 0 {
      var r := s.conns[c].session;
      var ss := SessionOf(s, c);
      InvFacts(s, r);
      var e := Recorded(ss.clientID, ss.id, pp.id, pp.replyTo);
      hide Inv, SessionBacked, WellTyped, IsReplySubject, PublishedFor;
      BackedGrows(s.log, [e], ss);
      RecordsBacked(s.log + [e], ss, pp.id);
      assert SessionBacked(s.log + [e], ss.ClientAckRequested(pp));
      EffectKeepsInv(s, r, ss.ClientAckRequested(pp), s.nats, e);
    }
  }

  lemma BackedIsSub(log: seq<Event>, ss: SessionState, id: u16, sub: Sub)
    requires Backed(log, ss, id, sub.subject)
    ensures SubBacked(log, ss, sub)
  {
  }

  /** Once the publish is in the history, it backs the subscription, the awaited ack and the request. */
  lemma AcceptedIsBacked(log: seq<Event>, ss: SessionState, pp: Publish, sub: Sub)
    requires SessionBacked(log, ss) && ValidName(ss.clientID) && ValidName(ss.id) && !InInbox(pp.name)
    requires Published(ss.clientID, ss.id, pp.id, ReplySubject(ss, pp), SubjectOf(pp)) in log
    requires sub.subject == ReplySubject(ss, pp)
    ensures SubBacked(log, ss, sub) && SessionBacked(log, ss.AckRequested(pp.id, sub)) && MsgBacked(log, RequestOf(ss, pp))
  {
    ReplyIsBacked(log, ss, pp);
    OutsideInbox(pp.name);
    RequestIsBacked(log, ss, pp);
    hide SessionBacked, ReplySubject, Backed, MsgBacked;
    BackedIsSub(log, ss, pp.id, sub);
    RecordsBacked(log, ss, pp.id);
  }

  lemma RequestIsBacked(log: seq<Event>, ss: SessionState, pp: Publish)
    requires ValidName(ss.clientID) && ValidName(ss.id) && !IsReplySubject(SubjectOf(pp))
    requires Published(ss.clientID, ss.id, pp.id, ReplySubject(ss, pp), SubjectOf(pp)) in log
    ensures MsgBacked(log, RequestOf(ss, pp))
  {
    hide ParseReplyTopic;
    ReplyRoundTrip(ReplyTopic(ss.clientID, ss.id, pp.id, pp.flags));
  }

  lemma AcceptedKeepsInv(s: State, c: nat, pp: Publish, pubOk: bool)
    requires Inv(s) && HasConn(s, c) && !InInbox(pp.name) && Accepts(Link(c, SessionOf(s, c), s.nats), pp, true)
    ensures Inv(DoPublish(s, c, pp, true, pubOk))
  {
    var ref := s.conns[c].session;
    var ss := SessionOf(s, c);
    InvFacts(s, ref);
    var e := Published(ss.clientID, ss.id, pp.id, ReplySubject(ss, pp), SubjectOf(pp));
    var (nats, sub) := s.nats.Subscribed(c, ReplySubject(ss, pp), AckHandler);
    var nats' := if pubOk then nats.Published(RequestOf(ss, pp)) else nats;
    hide Inv, WellTyped, SessionBacked, SubBacked, MsgBacked, ReplySubject, ValidName, InInbox;
    BackedGrows(s.log, [e], ss);
    AcceptedIsBacked(s.log + [e], ss, pp, sub);
    EffectKeepsInv(s, ref, ss.AckRequested(pp.id, sub), nats', e);
  }

  lemma PlainKeepsInv(s: State, topic: string, payload: bytes)
    requires Inv(s) && !InInbox(topic)
    ensures Inv(s.(nats := s.nats.Published(Msg(Topics.Rewrite(Topics.TopicRune, topic), "", payload))))
  {
    var m := Msg(Topics.Rewrite(Topics.TopicRune, topic), "", payload);
    OutsideInbox(topic);
    EmptyIsNoReply();
    assert MsgBacked(s.log, m);
    hide Inv, MsgBacked;
    SentKeepsInv(s, m);
  }

  lemma PublishKeepsInv(s: State, c: nat, pp: Publish, subOk: bool, pubOk: bool)
    requires Inv(s) && Enabled(s, Step.Publish(c, pp, subOk, pubOk))
    ensures Inv(DoPublish(s, c, pp, subOk, pubOk))
  {
    var ss := SessionOf(s, c);
    if Accepts(Link(c, ss, s.nats), pp, subOk) {
      hide Inv, WellTyped;
      AcceptedKeepsInv(s, c, pp, pubOk);
    } else {
      assert s.sessions[s.conns[c].session := ss] == s.sessions && s.log + [] == s.log;
      PlainKeepsInv(s, pp.name, pp.payload);
      hide Inv, WellTyped;
    }
  }

  lemma AckArrivesKeepsInv(s: State, sub: Sub, m: Msg)
    requires Inv(s) && Enabled(s, AckArrives(sub, m))
    ensures Inv(DoAckArrives(s, sub, m))
  {
    var own := SessionOf(s, sub.conn);
    assert SubBacked(s.log, own, sub) && MsgBacked(s.log, m);
    Topics.LiteralPattern(sub.subject, m.subject);
    var id := ParseReplyTopic(m.subject).value.packetID;
    var e := PubAckQueued(own.clientID, own.id, id);
    assert Justified(e, s.log) by {
      assert Names(m.subject, own.clientID, own.id, id) && PublishedFor(s.log, m.subject) && Notified(s.log, m.subject);
    }
    if DoAckArrives(s, sub, m) != s {
      var mt := ParseReplyTopic(m.subject).value;
      var ref := s.current[mt.clientID];
      var l := AckLink(Link(sub.conn, s.sessions[ref], s.nats), id);
      InvFacts(s, ref);
      RecordsBacked(s.log, s.sessions[ref], id);
      hide Inv, SessionBacked, SubBacked, MsgBacked, WellTyped, Justified;
      LiveKeepsInv(s, l.nats);
      SessionKeepsInv(s.(nats := l.nats), ref, l.session);
      var t := s.(nats := l.nats).(sessions := s.sessions[ref := l.session]);
      LogKeepsInv(t, e);
      assert t.log + [] == t.log;
    }
  }

  lemma AckedIsBacked(log: seq<Event>, ss: SessionState, id: u16)
    requires SessionBacked(log, ss) && id in ss.awaitsClientAck
    ensures var r := ss.awaitsClientAck[id].replyTo;
            var e := Acked(ss.clientID, ss.id, id, r);
            Justified(e, log) && MsgBacked(log + [e], Msg(r, "", [0 as char]))
  {
    hide ParseReplyTopic;
    EmptyIsNoReply();
    var r := ss.awaitsClientAck[id].replyTo;
    var e := Acked(ss.clientID, ss.id, id, r);
    assert e in log + [e] && e.reply == r;
  }

  lemma ClientAckKeepsInv(s: State, c: nat, id: u16, ok: bool)
    requires Inv(s) && HasConn(s, c)
    ensures Inv(DoClientAck(s, c, id, ok))
  {
    var ref := s.conns[c].session;
    var ss := SessionOf(s, c);
    InvFacts(s, ref);
    hide Inv, WellTyped, SessionBacked, MsgBacked, Justified;
    if id in ss.awaitsClientAck {
      var r := ss.awaitsClientAck[id].replyTo;
      var e, m := Acked(ss.clientID, ss.id, id, r), Msg(r, "", [0 as char]);
      AckedIsBacked(s.log, ss, id);
      BackedGrows(s.log, [e], ss);
      RecordsBacked(s.log + [e], ss, id);
      EffectKeepsInv(s, ref, ss.ClientAckReceived(id), if r != "" && ok then s.nats.Published(m) else s.nats, e);
    }
  }

  lemma CloseKeepsInv(s: State, c: nat, clean: bool)
    requires Inv(s) && HasConn(s, c)
    ensures Inv(DoClose(s, c, clean))
  {
    var client := SessionOf(s, c).clientID;
    var nats := s.nats.Without(set sub | sub in s.nats.live && sub.conn == c);
    LiveKeepsInv(s, nats);
    ConnKeepsInv(s.(nats := nats), c, s.conns[c].(open := false, connected := false));
    if clean && client in s.current {
      var ref := s.current[client];
      InvFacts(s, ref);
      RecordsBacked(s.log, s.sessions[ref], 0);
      var closed := s.(nats := nats, conns := s.conns[c := s.conns[c].(open := false, connected := false)]);
      var destroyed := s.sessions[ref].Destroyed();
      var nats' := nats.Without(s.sessions[ref].awaitsAck.Values);
      hide SessionBacked, SubBacked, MsgBacked, LogOK;
      SessionKeepsInv(closed, ref, destroyed);
      var removed := closed.(sessions := s.sessions[ref := destroyed]);
      LiveKeepsInv(removed, nats');
      ForgetKeepsInv(removed.(nats := nats'), client);
    }
  }

  lemma ForgetKeepsInv(s: State, client: string)
    requires Inv(s)
    ensures Inv(s.(current := s.current - {client}))
  {
    hide SessionBacked, SubBacked, MsgBacked, LogOK;
    var t := s.(current := s.current - {client});
    forall sub | sub in t.nats.live ensures SubBacked(t.log, SessionOf(t, sub.conn), sub) {
      assert SessionOf(t, sub.conn) == SessionOf(s, sub.conn);
    }
  }

  lemma WillKeepsInv(s: State, pp: Publish, ok: bool)
    requires Inv(s) && s.server.Some? && !InInbox(pp.name)
    ensures Inv(DoPublishWill(s, pp, ok))
  {
    var ss := s.sessions[s.server.value];
    InvFacts(s, s.server.value);
    if QoSLevel(pp.flags) == 0 {
      PlainKeepsInv(s, pp.name, pp.payload);
    } else {
      var e := Published(ss.clientID, ss.id, pp.id, ReplySubject(ss, pp), SubjectOf(pp));
      LogKeepsInv(s, e);
      ReplyIsBacked(s.log + [e], ss, pp);
      OutsideInbox(pp.name);
      assert MsgBacked(s.log + [e], RequestOf(ss, pp));
      hide Inv, MsgBacked, WellTyped;
      if ok { SentKeepsInv(Log(s, [e]), RequestOf(ss, pp)); }
    }
  }

  lemma AnswerKeepsInv(s: State, m: Msg, data: bytes)
    requires Inv(s) && m in s.nats.sent && ToHandler(s.requestTopic, m.subject)
    ensures Inv(Log(s.(nats := s.nats.Published(Msg(m.reply, "", data))), [Answered(m.reply, m.subject)]))
  {
    var e, answer := Answered(m.reply, m.subject), Msg(m.reply, "", data);
    assert MsgBacked(s.log, m);
    LogKeepsInv(s, e);
    EmptyIsNoReply();
    assert e in s.log + [e];
    assert MsgBacked(s.log + [e], answer);
    hide Inv, MsgBacked;
    SentKeepsInv(Log(s, [e]), answer);
  }

  lemma ReloadedBacked(log: seq<Event>, ss: SessionState)
    requires SessionBacked(log, ss)
    ensures SessionBacked(log, ss.Reloaded())
  {
    hide Names, PublishedFor;
  }

  lemma ReloadTyped(s: State)
    requires WellTyped(s)
    ensures WellTyped(DoRestart(s, None)) && DoRestart(s, None).nats.live == {}
  {
    hide ValidName;
    var t := DoRestart(s, None);
    forall n | n in t.current ensures t.current[n] in t.sessions && t.sessions[t.current[n]].clientID == n {
      assert t.current[n] in s.current.Values;
    }
    forall r | r in t.sessions ensures r in s.sessions && t.sessions[r] == s.sessions[r].Reloaded() {
      var n :| n in s.current && s.current[n] == r;
    }
  }

  lemma ReloadKeepsInv(s: State)
    requires Inv(s)
    ensures Inv(DoRestart(s, None))
  {
    var t := DoRestart(s, None);
    ReloadTyped(s);
    assert forall r :: r in s.sessions ==> SessionBacked(s.log, s.sessions[r]);
    assert forall m :: m in s.nats.sent ==> MsgBacked(s.log, m);
    assert LogOK(s.log);
    forall r | r in t.sessions ensures SessionBacked(t.log, t.sessions[r]) {
      assert t.sessions[r] == s.sessions[r].Reloaded() && r in s.sessions by {
        var n :| n in s.current && s.current[n] == r;
      }
      ReloadedBacked(s.log, s.sessions[r]);
    }
    hide MsgBacked, LogOK, SubBacked, SessionBacked, WellTyped;
  }

  lemma RestartSpawns(s: State, n: string)
    requires WellTyped(s)
    ensures var t := DoRestart(s, None);
            DoRestart(s, Some(n)) == t.(sessions := t.sessions[t.nextRef := NewSession(SessionID(1), n)], nextRef := t.nextRef + 1,
                                        current := t.current[n := t.nextRef], created := t.created, used := t.used + {n})
  {
    hide WellTyped, SessionID;
  }

  lemma RestartKeepsInv(s: State, newServer: Option<string>)
    requires Inv(s) && Enabled(s, Restart(newServer))
    ensures Inv(DoRestart(s, newServer))
  {
    ReloadKeepsInv(s);
    if newServer.Some? {
      RestartSpawns(s, newServer.value);
      hide Inv, WellTyped, DoRestart, SessionID;
      IDsAreNames(1);
      var t := DoRestart(s, None);
      SpawnKeepsInv(t, newServer.value, SessionID(1), t.created, t.used + {newServer.value});
    }
  }

  lemma SubscribeKeepsInv(s: State, c: nat, subject: string, qos: u8)
    requires Inv(s) && HasConn(s, c)
    ensures Inv(s.(nats := s.nats.Subscribed(c, subject, DataHandler(qos)).0))
  {
    var (nats, sub) := s.nats.Subscribed(c, subject, DataHandler(qos));
    LiveKeepsInv(s, nats);
  }

  lemma ResendKeepsInv(s: State, c: nat, id: u16)
    requires Inv(s) && Enabled(s, Resend(c, id))
    ensures Inv(Apply(s, Resend(c, id)))
  {
    var ss := SessionOf(s, c);
    InvFacts(s, s.conns[c].session);
    var pp := ss.awaitsClientAck[id];
    if IsReplySubject(pp.replyTo) { RecordedWasPublished(s.log, ss.clientID, ss.id, id, pp.replyTo); }
    hide Inv;
    RespondKeepsInv(s, c, QoSLevel(pp.flags), pp);
  }

  lemma DeliverKeepsInv(s: State, sub: Sub, m: Msg, freshID: u16)
    requires Inv(s) && Enabled(s, Deliver(sub, m, freshID))
    ensures Inv(Apply(s, Deliver(sub, m, freshID)))
  {
    assert MsgBacked(s.log, m);
    var (pp, qos) := Response(sub.handler.qos, m, freshID);
    hide Inv;
    RespondKeepsInv(s, sub.conn, qos, pp);
  }

  /** Every step of the protocol keeps the invariant. */
  lemma StepKeepsInv(s: State, step: Step)
    requires Inv(s) && Enabled(s, step)
    ensures Inv(Apply(s, step))
  {
    EmptyIsNoReply();
    hide Inv, WellTyped, Respond, DoConnect, DoRestore, DoPublish, DoAckArrives, DoClientAck, DoClose, DoPublishWill, DoRestart, Response;
    match step
    case Connect(c, clientID, clean) => ConnectKeepsInv(s, c, clientID, clean);
    case Restore(c, id, ok) => RestoreKeepsInv(s, c, id, ok);
    case Resend(c, id) => ResendKeepsInv(s, c, id);
    case Publish(c, pp, subOk, pubOk) => PublishKeepsInv(s, c, pp, subOk, pubOk);
    case AckArrives(sub, m) => AckArrivesKeepsInv(s, sub, m);
    case Deliver(sub, m, freshID) => DeliverKeepsInv(s, sub, m, freshID);
    case SendRetained(c, qos, pp) => RespondKeepsInv(s, c, qos, pp);
    case ClientAck(c, id, ok) => ClientAckKeepsInv(s, c, id, ok);
    case Subscribe(c, filter, qos) => SubscribeKeepsInv(s, c, Topics.Rewrite(Topics.FilterRune, filter), ClampQoS(qos));
    case Unsubscribe(sub) => LiveKeepsInv(s, s.nats.Without({sub}));
    case Disconnect(c) => DisconnectKeepsInv(s, c);
    case Close(c, clean) => CloseKeepsInv(s, c, clean);
    case PublishWill(pp, ok) => WillKeepsInv(s, pp, ok);
    case AnswerRetained(m, data) => AnswerKeepsInv(s, m, data);
    case Foreign(m) => SentKeepsInv(s, m);
    case Restart(newServer) => RestartKeepsInv(s, newServer);
  }

  lemma DisconnectKeepsInv(s: State, c: nat)
    requires Inv(s) && HasConn(s, c)
    ensures Inv(s.(conns := s.conns[c := s.conns[c].(connected := false)]))
  {
    ConnKeepsInv(s, c, s.conns[c].(connected := false));
  }

  lemma InitInv(n: string, requestTopic: Option<string>)
    requires ValidName(n)
    ensures Inv(Init(n, requestTopic))
  {
    IDsAreNames(1);
  }

  lemma {:induction false} RunKeepsInv(ss: seq<State>, steps: seq<Step>, k: nat)
    requires IsRun(ss, steps) && k < |ss|
    ensures Inv(ss[k])
  {
    hide Inv, Apply, Enabled, Init;
    if k == 0 {
      var n :| ValidName(n) && ss[0] == Init(n, ss[0].requestTopic);
      InitInv(n, ss[0].requestTopic);
    } else {
      RunKeepsInv(ss, steps, k - 1);
      StepKeepsInv(ss[k - 1], steps[k - 1]);
    }
  }

  // ---- the promise of the bridge

  predicate IsPublish(e: Event, client: string, sid: string, id: u16, r: string) {
    e.Published? && e.client == client && e.sid == sid && e.id == id && e.reply == r
  }

  /** The three earlier events, in this order, that a PUBACK at position l stands for. */
  predicate Chain(log: seq<Event>, l: nat, r: string, i: nat, j: nat, k: nat) {
    && i < j < k < l < |log| && log[l].PubAckQueued?
    && IsPublish(log[i], log[l].client, log[l].sid, log[l].id, r)
    && log[j].Recorded? && log[j].reply == r
    && log[k] == Acked(log[j].client, log[j].sid, log[j].id, r)
  }

  ghost predicate Chained(log: seq<Event>, l: nat) { exists r, i, j, k :: Chain(log, l, r, i, j, k) }

  /** The publish went to the bridge's own handler of retained requests, which answered it. */
  predicate AnswerChain(requestTopic: Option<string>, log: seq<Event>, l: nat, r: string, i: nat, k: nat) {
    && i < k < l < |log| && log[l].PubAckQueued?
    && IsPublish(log[i], log[l].client, log[l].sid, log[l].id, r)
    && log[k] == Answered(r, log[i].subject) && ToHandler(requestTopic, log[i].subject)
  }

  /** The event of a publish whose reply subject names it. */
  lemma PublishFound(log: seq<Event>, m: nat, p: Event, r: string, subject: string) returns (i: nat)
    requires m <= |log| && p.PubAckQueued? && Names(r, p.client, p.sid, p.id) && PublishedOn(log[..m], r, subject)
    ensures i < m && log[i] == Published(p.client, p.sid, p.id, r, subject)
  {
    hide ParseReplyTopic;
    i :| 0 <= i < m && log[i] == Published(p.client, p.sid, p.id, r, subject);
  }

  /** The delivery and the publish that an Acked event stands for. */
  lemma ChainFromAck(log: seq<Event>, l: nat, r: string, k: nat)
    requires LogOK(log) && k < l < |log| && log[l].PubAckQueued? && Names(r, log[l].client, log[l].sid, log[l].id)
    requires log[k].Acked? && log[k].reply == r
    ensures Chained(log, l)
  {
    var n := log[k];
    assert Justified(n, log[..k]);
    var j :| 0 <= j < k && log[j] == Recorded(n.client, n.sid, n.id, r);
    assert Justified(log[j], log[..j]);
    var subject :| PublishedOn(log[..j], r, subject);
    hide LogOK, Justified, Names, PublishedOn;
    var i := PublishFound(log, j, log[l], r, subject);
    assert Chain(log, l, r, i, j, k);
  }

  lemma ChainFromLog(requestTopic: Option<string>, log: seq<Event>, l: nat)
    requires LogOK(log) && AnswersOK(requestTopic, log) && l < |log| && log[l].PubAckQueued?
    ensures Chained(log, l) || exists r, i, k :: AnswerChain(requestTopic, log, l, r, i, k)
  {
    var e := log[l];
    assert Justified(e, log[..l]);
    var r :| Names(r, e.client, e.sid, e.id) && PublishedFor(log[..l], r) && Notified(log[..l], r);
    var n :| n in log[..l] && (n.Acked? || n.Answered?) && n.reply == r;
    var k :| 0 <= k < l && log[k] == n;
    if n.Acked? {
      hide LogOK, AnswersOK, Justified, Names, PublishedOn, Chain, AnswerChain;
      ChainFromAck(log, l, r, k);
    } else {
      assert Justified(n, log[..k]);
      hide LogOK, Justified, Names, PublishedOn;
      var i := PublishFound(log, k, e, r, n.subject);
      assert AnswerChain(requestTopic, log, l, r, i, k);
    }
  }

  /**
   * End-to-end QoS 1 safety over every run, with restarts and resumed sessions: a PUBACK p is queued for a
   * session only if that session published p earlier with some reply subject r, a QoS > 0 delivery carrying r
   * was then recorded for some session, and that session's PUBACK of the delivery arrived after that. The one
   * other way is that the publish went to a subject that the configured request topic matches, and the bridge's own
   * handler of retained requests answered it.
   */
  lemma EndToEnd(ss: seq<State>, steps: seq<Step>, n: nat, l: nat)
    requires IsRun(ss, steps) && n < |ss| && l < |ss[n].log| && ss[n].log[l].PubAckQueued?
    ensures Chained(ss[n].log, l) || exists r, i, k :: AnswerChain(ss[0].requestTopic, ss[n].log, l, r, i, k)
  {
    RunKeepsInv(ss, steps, n);
    TopicStays(ss, steps, n);
    ChainFromLog(ss[0].requestTopic, ss[n].log, l);
  }

  lemma {:induction false} TopicStays(ss: seq<State>, steps: seq<Step>, n: nat)
    requires IsRun(ss, steps) && n < |ss|
    ensures ss[n].requestTopic == ss[0].requestTopic
  {
    if n > 0 {
      TopicStays(ss, steps, n - 1);
      StepKeepsTopic(ss[n - 1], steps[n - 1]);
    }
  }

  lemma StepKeepsTopic(s: State, step: Step)
    requires WellTyped(s) && Enabled(s, step)
    ensures Apply(s, step).requestTopic == s.requestTopic
  {
    hide WellTyped, Response, PublishLink, AckLink, ValidName, ParseReplyTopic;
  }

  /** Whatever a session awaits a client's ack for is filed under its own packet id, and was recorded with it. */
  lemma DeliveriesAreFiledByID(ss: seq<State>, steps: seq<Step>, n: nat, r: nat, id: u16)
    requires IsRun(ss, steps) && n < |ss| && r in ss[n].sessions && id in ss[n].sessions[r].awaitsClientAck
    ensures var own := ss[n].sessions[r];
            own.awaitsClientAck[id].id == id && Recorded(own.clientID, own.id, id, own.awaitsClientAck[id].replyTo) in ss[n].log
  {
    RunKeepsInv(ss, steps, n);
    InvFacts(ss[n], r);
  }
}
