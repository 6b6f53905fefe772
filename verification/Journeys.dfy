// The other half of end-to-end QoS 1: a publish that matches a subscription can be acknowledged, from any state.
module Journeys {
  import opened Basics
  import opened Strconv
  import opened Packets
  import opened Nats
  import opened Sessions
  import opened Clients
  import opened ReplyTopics
  import opened Protocol
  import opened ProtocolLaws
  import opened FreshnessLaws
  import opened WireFormat
  import opened Exchange
  import opened StepLaws
  import opened Limits
  import Topics

  /** The connection is connected and holds the current session of its client. */
  ghost predicate Active(s: State, c: nat)
    requires WellTyped(s)
  {
    HoldsCurrent(s, c) && s.conns[c].connected
  }

  /** A subscription at QoS > 0 that is live on an open connection and matches the publish. */
  ghost predicate Hears(s: State, sub: Sub, d: Publish) {
    && sub in s.nats.live && sub.handler.DataHandler? && sub.handler.qos > 0 && HasConn(s, sub.conn)
    && Topics.NatsMatches(sub.subject, SubjectOf(d))
  }

  /** Both sessions keep their names, connections and what is current stay as they are, the history grows by e. */
  ghost predicate Goes(s: State, t: State, e: Event) {
    && t.conns == s.conns && t.current == s.current && t.sessions.Keys == s.sessions.Keys && t.log == s.log + [e]
    && forall r :: r in s.sessions ==> SameName(t.sessions[r], s.sessions[r])
  }

  lemma StepTyped(s: State, step: Step, t: State)
    requires Inv(s) && Takes(s, step, t)
    ensures Inv(t) && WellTyped(t)
  {
    hide Inv, WellTyped, Apply, Enabled;
    StepKeepsInv(s, step);
    InvTyped(t);
  }

  lemma SessionIsThere(s: State, c: nat)
    requires WellTyped(s) && c in s.conns
    ensures s.conns[c].session in s.sessions && ValidName(SessionOf(s, c).clientID) && ValidName(SessionOf(s, c).id)
  {
  }

  /** The publish is sent as a request. */
  lemma GoesOut(s: State, c: nat, d: Publish) returns (t: State, m: Msg, ack: Sub)
    requires Inv(s) && WellTyped(s) && HasConn(s, c) && !InInbox(d.name)
    requires !Declined(SessionOf(s, c).awaitsAck.Keys, d, true) && Level(d.flags) == 1
    ensures Takes(s, Step.Publish(c, d, true, true), t) && Inv(t) && WellTyped(t)
    ensures var a := SessionOf(s, c);
            && Goes(s, t, Published(a.clientID, a.id, d.id, m.reply, m.subject)) && Spells(m.reply, a, d)
            && t.nats.sent == s.nats.sent + [m] && t.nats.live == s.nats.live + {ack}
            && d.id in SessionOf(t, c).awaitsAck && SessionOf(t, c).awaitsAck[d.id] == ack
    ensures m.subject == SubjectOf(d) && m.data == d.payload
    ensures ack.conn == c && ack.handler == AckHandler && ack.subject == m.reply
  {
    hide Inv, Apply, Declined, Level, InInbox, Spells, Topics.Rewrite;
    SessionIsThere(s, c);
    m, ack := PublishRequests(s, c, d, true, true);
    t := Apply(s, Step.Publish(c, d, true, true));
    hide WellTyped;
    StepTyped(s, Step.Publish(c, d, true, true), t);
    Topics.RewriteTwice(Topics.TopicRune, m.subject);
  }

  /** The request is delivered and recorded under the publisher's own id. */
  lemma IsDelivered(s: State, sub: Sub, m: Msg, a: SessionState, d: Publish) returns (t: State)
    requires Inv(s) && WellTyped(s) && Hears(s, sub, d) && m in s.nats.sent && m.subject == SubjectOf(d)
    requires Spells(m.reply, a, d) && Level(d.flags) == 1
    ensures Takes(s, Deliver(sub, m, 0), t) && Inv(t) && WellTyped(t)
    ensures var b := SessionOf(s, sub.conn);
            && Goes(s, t, Recorded(b.clientID, b.id, d.id, m.reply)) && t.nats == s.nats
            && (forall r :: r in s.sessions ==> t.sessions[r].awaitsAck == s.sessions[r].awaitsAck)
            && d.id in SessionOf(t, sub.conn).awaitsClientAck && SessionOf(t, sub.conn).awaitsClientAck[d.id].replyTo == m.reply
  {
    hide Inv, Apply, Level, Topics.NatsMatches, ParseReplyTopic, SubjectOf, Topics.Rewrite;
    SessionIsThere(s, sub.conn);
    var rt := ReplyTopic(a.clientID, a.id, d.id, d.flags);
    var e := BridgedIsAwaited(s, sub, m, 0, rt);
    t := Apply(s, Deliver(sub, m, 0));
    hide WellTyped;
    StepTyped(s, Deliver(sub, m, 0), t);
  }

  /** A step that changes one session, under its name, and what it awaits of clients alone. */
  lemma GoesOn(s: State, t: State, r: nat, b: SessionState, e: Event)
    requires r in s.sessions && SameName(b, s.sessions[r]) && b.awaitsAck == s.sessions[r].awaitsAck
    requires t.sessions == s.sessions[r := b] && t.conns == s.conns && t.current == s.current && t.log == s.log + [e]
    ensures Goes(s, t, e) && forall r :: r in s.sessions ==> t.sessions[r].awaitsAck == s.sessions[r].awaitsAck
  {
  }

  /** The subscriber acknowledges, and its ack goes to the reply subject. */
  lemma IsAcked(s: State, c: nat, id: u16) returns (t: State)
    requires Inv(s) && WellTyped(s) && HasConn(s, c) && id in SessionOf(s, c).awaitsClientAck
    requires SessionOf(s, c).awaitsClientAck[id].replyTo != ""
    ensures Takes(s, ClientAck(c, id, true), t) && Inv(t) && WellTyped(t)
    ensures var b, reply := SessionOf(s, c), SessionOf(s, c).awaitsClientAck[id].replyTo;
            && Goes(s, t, Acked(b.clientID, b.id, id, reply))
            && (forall r :: r in s.sessions ==> t.sessions[r].awaitsAck == s.sessions[r].awaitsAck)
            && t.nats.live == s.nats.live && t.nats.sent == s.nats.sent + [Msg(reply, "", [0 as char])]
  {
    hide Inv, Apply, Goes;
    SessionIsThere(s, c);
    PubAckForwards(s, c, id, true);
    t := Apply(s, ClientAck(c, id, true));
    hide WellTyped;
    var b := SessionOf(s, c);
    GoesOn(s, t, s.conns[c].session, b.(awaitsClientAck := b.awaitsClientAck - {id}), Acked(b.clientID, b.id, id, b.awaitsClientAck[id].replyTo));
    StepTyped(s, ClientAck(c, id, true), t);
  }

  /** A reply subject of a live ack subscription matches itself. */
  lemma MatchesItself(s: State, ack: Sub, a: SessionState, d: Publish)
    requires Inv(s) && ack in s.nats.live && ack.handler == AckHandler && Spells(ack.subject, a, d) && ValidName(a.clientID) && ValidName(a.id)
    ensures Topics.NatsMatches(ack.subject, ack.subject)
  {
    assert SubBacked(s.log, SessionOf(s, ack.conn), ack);
    var ps := Split(ack.subject, '.');
    assert |ps| == 5 && ps[0] == "_INBOX" && ps[1] == a.clientID && ps[2] == a.id && Atoi(ps[3]).Some? && Atoi(ps[4]).Some?;
    NoNumber();
    assert "" !in ps;
    Topics.LiteralPattern(ack.subject, ack.subject);
  }

  lemma NoNumber()
    ensures Atoi("").None?
  {
  }

  /** The ack arrives, is taken off, and becomes the publisher's PUBACK. */
  lemma ComesBack(s: State, c: nat, ack: Sub, m: Msg, d: Publish) returns (t: State)
    requires Inv(s) && WellTyped(s) && Active(s, c) && ack in s.nats.live && ack.handler == AckHandler && ack.conn == c
    requires m in s.nats.sent && m.subject == ack.subject && Spells(m.subject, SessionOf(s, c), d)
    requires Topics.NatsMatches(m.subject, m.subject)
    requires d.id in SessionOf(s, c).awaitsAck && SessionOf(s, c).awaitsAck[d.id] == ack
    ensures Takes(s, AckArrives(ack, m), t) && Inv(t) && WellTyped(t)
    ensures var a := SessionOf(s, c);
            && t.log == s.log + [PubAckQueued(a.clientID, a.id, d.id)] && t.conns == s.conns
            && t.nats.live == s.nats.live - {ack} && t.nats.sent == s.nats.sent
            && d.id !in SessionOf(t, c).awaitsAck
  {
    hide Inv, Topics.NatsMatches, ParseReplyTopic, DoAckArrives;
    SessionIsThere(s, c);
    OwnSessionTakesAck(s, ack, m);
    t := Apply(s, AckArrives(ack, m));
    hide WellTyped;
    StepTyped(s, AckArrives(ack, m), t);
  }

  lemma GoneOn(s: State, t: State, c: nat, e: Event)
    requires WellTyped(s) && WellTyped(t) && Goes(s, t, e) && HasConn(s, c)
    ensures t.conns == s.conns && t.log == s.log + [e] && HasConn(t, c)
    ensures SameName(SessionOf(t, c), SessionOf(s, c)) && s.conns[c].session in s.sessions
    ensures Active(s, c) ==> Active(t, c)
  {
  }

  /**
   * From every state that a run can reach: a QoS 1 publish of a connected client, which is no repetition, goes to any
   * live subscription at QoS > 0 that it matches, and when its subscriber acknowledges it, the publisher gets its PUBACK.
   * Four steps do it, all of them enabled; one request carries the publish and one message answers it; and afterwards
   * the publisher no longer awaits it and its ack subscription is gone.
   */
  lemma PublishIsAcknowledged(s: State, c: nat, d: Publish, sub: Sub) returns (s1: State, s2: State, s3: State, t: State, m: Msg, ack: Sub)
    requires Inv(s) && WellTyped(s) && Active(s, c) && Hears(s, sub, d) && !InInbox(d.name)
    requires !Declined(SessionOf(s, c).awaitsAck.Keys, d, true) && Level(d.flags) == 1
    ensures Takes(s, Step.Publish(c, d, true, true), s1) && Takes(s1, Deliver(sub, m, 0), s2)
    ensures Takes(s2, ClientAck(sub.conn, d.id, true), s3) && Takes(s3, AckArrives(ack, Msg(m.reply, "", [0 as char])), t)
    ensures var a, b := SessionOf(s, c), SessionOf(s, sub.conn);
            && m.subject == SubjectOf(d) && m.data == d.payload && Spells(m.reply, a, d)
            && t.nats.sent == s.nats.sent + [m] + [Msg(m.reply, "", [0 as char])]
            && t.log == s.log + [Published(a.clientID, a.id, d.id, m.reply, m.subject)] + [Recorded(b.clientID, b.id, d.id, m.reply)]
                        + [Acked(b.clientID, b.id, d.id, m.reply)] + [PubAckQueued(a.clientID, a.id, d.id)]
            && t.nats.live == s.nats.live - {ack}
    ensures WellTyped(t) && t.conns == s.conns && d.id !in SessionOf(t, c).awaitsAck
  {
    hide Inv, WellTyped, Takes, Active, Goes, Hears, Declined, Level, InInbox, Spells, SubjectOf, Topics.NatsMatches, ParseReplyTopic;
    IsOpen(s, c, sub, d);
    var a, b := SessionOf(s, c), SessionOf(s, sub.conn);
    SessionIsThere(s, c);
    s1, m, ack := GoesOut(s, c, d);
    SpellsSomething(m.reply, a, d);
    GoneOn(s, s1, c, Published(a.clientID, a.id, d.id, m.reply, m.subject));
    GoneOn(s, s1, sub.conn, Published(a.clientID, a.id, d.id, m.reply, m.subject));
    StillHears(s, s1, sub, d, ack);
    s2 := IsDelivered(s1, sub, m, a, d);
    GoneOn(s1, s2, c, Recorded(b.clientID, b.id, d.id, m.reply));
    GoneOn(s1, s2, sub.conn, Recorded(b.clientID, b.id, d.id, m.reply));
    s3 := IsAcked(s2, sub.conn, d.id);
    GoneOn(s2, s3, c, Acked(b.clientID, b.id, d.id, m.reply));
    SpelledBySame(m.reply, a, SessionOf(s3, c), d);
    MatchesItself(s3, ack, SessionOf(s3, c), d);
    t := ComesBack(s3, c, ack, Msg(m.reply, "", [0 as char]), d);
  }

  lemma IsOpen(s: State, c: nat, sub: Sub, d: Publish)
    requires WellTyped(s) && Active(s, c) && Hears(s, sub, d)
    ensures HasConn(s, c) && HasConn(s, sub.conn) && sub in s.nats.live
  {
  }

  lemma SpelledBySame(r: string, a: SessionState, b: SessionState, d: Publish)
    requires Spells(r, a, d) && SameName(b, a)
    ensures Spells(r, b, d)
  {
  }

  lemma SpellsSomething(r: string, a: SessionState, d: Publish)
    requires Spells(r, a, d)
    ensures r != ""
  {
    EmptyIsNoReply();
  }

  lemma StillHears(s: State, t: State, sub: Sub, d: Publish, ack: Sub)
    requires Hears(s, sub, d) && t.conns == s.conns && t.nats.live == s.nats.live + {ack}
    ensures Hears(t, sub, d)
  {
  }
}
