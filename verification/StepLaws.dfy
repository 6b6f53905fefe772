// What each step of the protocol does to sessions, subscriptions, messages and history, told without the handlers.
module StepLaws {
  import opened Basics
  import opened Packets
  import opened Nats
  import opened Sessions
  import opened Clients
  import opened ReplyTopics
  import opened Protocol
  import opened ProtocolLaws
  import opened WireFormat
  import opened Exchange
  import Topics

  predicate AwaitsNothing(s: SessionState) { s.awaitsAck == map[] && s.awaitsClientAck == map[] && s.prelAwaitsAck == map[] }

  // ---- connections

  /**
   * An unclean CONNECT gets the current session of its client id as it is, if there is one. Any other gets a session
   * object that was not there before, awaits nothing, and is then the current one. No other session changes.
   */
  lemma ConnectGives(s: State, c: nat, n: string, clean: bool)
    requires WellTyped(s) && Enabled(s, Step.Connect(c, n, clean))
    ensures var t := Apply(s, Step.Connect(c, n, clean));
            && t == s.(conns := t.conns, sessions := t.sessions, current := t.current, nextRef := t.nextRef, created := t.created, used := t.used)
            && t.conns == s.conns[c := Conn(t.conns[c].session, true, true)]
            && var r := t.conns[c].session;
               if !clean && n in s.current then
                 r == s.current[n] && t.sessions == s.sessions && t.current == s.current && t.created == s.created
               else
                 && r !in s.sessions && r in t.sessions && t.sessions == s.sessions[r := t.sessions[r]]
                 && t.sessions[r].clientID == n && AwaitsNothing(t.sessions[r])
                 && t.current == s.current[n := r] && t.created == s.created + 1
  {
    hide ValidName, SessionID;
  }

  /** DISCONNECT and errors: the connection takes no more packets, and that is all. */
  lemma DisconnectStops(s: State, c: nat)
    requires WellTyped(s) && Enabled(s, Step.Disconnect(c))
    ensures var t := Apply(s, Step.Disconnect(c)); t == s.(conns := s.conns[c := Conn(s.conns[c].session, true, false)])
  {
  }

  /**
   * When a connection ends its subscriptions are gone. An unclean one leaves every session as it is. A clean one takes the
   * current session of its client id away, whose awaited acks are cancelled wherever they were subscribed to.
   */
  lemma CloseEnds(s: State, c: nat, clean: bool)
    requires WellTyped(s) && Enabled(s, Close(c, clean))
    ensures var t, n := Apply(s, Close(c, clean)), SessionOf(s, c).clientID;
            && t == s.(conns := t.conns, nats := t.nats, sessions := t.sessions, current := t.current)
            && t.conns == s.conns[c := Conn(s.conns[c].session, false, false)]
            && t.nats.sent == s.nats.sent && t.nats.next == s.nats.next
            && if clean && n in s.current then
                 var r := s.current[n];
                 && t.current == s.current - {n}
                 && t.sessions == s.sessions[r := s.sessions[r].(awaitsAck := map[])]
                 && forall sub :: sub in t.nats.live <==>
                      sub in s.nats.live && sub.conn != c && sub !in s.sessions[r].awaitsAck.Values
               else
                 && t.current == s.current && t.sessions == s.sessions
                 && forall sub :: sub in t.nats.live <==> sub in s.nats.live && sub.conn != c
  {
    hide ValidName;
  }

  /**
   * A restart leaves the current sessions alone, under their client ids: each keeps its name and its unacknowledged
   * deliveries, and remembers the subjects of the acks it awaits. A new server id adds a session that awaits nothing.
   */
  lemma RestartKeeps(s: State, newServer: Option<string>, n: string)
    requires WellTyped(s) && Enabled(s, Restart(newServer)) && n in s.current && newServer != Some(n)
    ensures var t := Apply(s, Restart(newServer));
            && n in t.current && t.current[n] == s.current[n] && t.current[n] in t.sessions
            && t.conns == map[] && t.nats.live == {} && t.nats.sent == s.nats.sent && t.log == s.log
            && var a, b := s.sessions[s.current[n]], t.sessions[t.current[n]];
               && b.id == a.id && b.clientID == a.clientID && b.awaitsClientAck == a.awaitsClientAck && b.awaitsAck == map[]
               && (forall k :: k in b.prelAwaitsAck <==> k in a.awaitsAck)
               && (forall k :: k in b.prelAwaitsAck ==> b.prelAwaitsAck[k] == a.awaitsAck[k].subject)
  {
    hide ValidName, SessionID;
    assert s.current[n] in s.current.Values && s.current[n] < s.nextRef;
  }

  lemma RestartAdds(s: State, n: string)
    requires WellTyped(s) && Enabled(s, Restart(Some(n)))
    ensures var t := Apply(s, Restart(Some(n)));
            && n in t.current && t.current[n] in t.sessions && t.current[n] !in s.sessions
            && t.sessions[t.current[n]].clientID == n && AwaitsNothing(t.sessions[t.current[n]])
  {
    hide ValidName, SessionID;
  }

  // ---- acks that were loaded

  /** Resuming an ack: its subject is no longer remembered, but is subscribed to and awaited, if NATS accepts it. */
  lemma RestoreResumes(s: State, c: nat, id: u16, ok: bool) returns (sub: Sub)
    requires WellTyped(s) && Enabled(s, Restore(c, id, ok))
    ensures sub.sid == s.nats.next && sub.conn == c && sub.subject == SessionOf(s, c).prelAwaitsAck[id] && sub.handler == AckHandler
    ensures var t, r, a := Apply(s, Restore(c, id, ok)), s.conns[c].session, SessionOf(s, c);
            && t == s.(nats := t.nats, sessions := s.sessions[r := t.sessions[r]])
            && t.sessions[r] == a.(prelAwaitsAck := a.prelAwaitsAck - {id}, awaitsAck := if ok then a.awaitsAck[id := sub] else a.awaitsAck)
            && t.nats.live == (if ok then s.nats.live + {sub} else s.nats.live) && t.nats.sent == s.nats.sent
  {
    hide ValidName;
    sub := Sub(s.nats.next, c, SessionOf(s, c).prelAwaitsAck[id], AckHandler);
  }

  // ---- deliveries

  /** The session awaits exactly this packet under its id, and the history says so; at QoS 0 nothing happens. */
  ghost predicate Awaits(s: State, t: State, c: nat, qos: nat, d: Publish)
    requires WellTyped(s) && c in s.conns
  {
    var r, a := s.conns[c].session, SessionOf(s, c);
    if qos == 0 then t == s
    else
      && r in t.sessions && t == s.(sessions := s.sessions[r := t.sessions[r]], log := t.log)
      && t.sessions[r] == a.(awaitsClientAck := a.awaitsClientAck[d.id := d])
      && t.log == s.log + [Recorded(a.clientID, a.id, d.id, d.replyTo)]
  }

  lemma RetainedAwaits(s: State, c: nat, qos: u8, d: Publish)
    requires WellTyped(s) && Enabled(s, SendRetained(c, qos, d))
    ensures Awaits(s, Apply(s, SendRetained(c, qos, d)), c, qos, d)
  {
    hide ValidName;
  }

  /** A delivery that goes out again at QoS > 0 is awaited as before. */
  lemma ResendAwaits(s: State, c: nat, id: u16)
    requires WellTyped(s) && Enabled(s, Resend(c, id))
    ensures var d := SessionOf(s, c).awaitsClientAck[id]; Awaits(s, Apply(s, Resend(c, id)), c, Level(d.flags), d)
  {
    hide ValidName, Bit;
    FlagBits(SessionOf(s, c).awaitsClientAck[id].flags);
  }

  /** A message with no reply subject, or for a subscription at QoS 0, leaves the session alone. */
  lemma PlainIsNotAwaited(s: State, sub: Sub, m: Msg, freshID: u16)
    requires WellTyped(s) && Enabled(s, Deliver(sub, m, freshID)) && (sub.handler.qos == 0 || m.reply == "")
    ensures Apply(s, Deliver(sub, m, freshID)) == s
  {
    hide WellTyped, Topics.NatsMatches, Response;
    PlainDelivery(sub.handler.qos, m, freshID);
  }

  /** A message with a reply subject of the bridge is awaited under the id that is spelled out there. */
  lemma BridgedIsAwaited(s: State, sub: Sub, m: Msg, freshID: u16, rt: ReplyTopic) returns (d: Publish)
    requires WellTyped(s) && Enabled(s, Deliver(sub, m, freshID)) && sub.conn in s.conns
    requires sub.handler.qos > 0 && ParseReplyTopic(m.reply) == Some(rt)
    ensures Awaits(s, Apply(s, Deliver(sub, m, freshID)), sub.conn, Least(Level(rt.flags), sub.handler.qos), d)
    ensures Conveys(d, m) && d.id == rt.packetID && d.flags == rt.flags
  {
    hide Topics.NatsMatches, Response, ParseReplyTopic, Level, Conveys, ValidName;
    BridgedDelivery(sub.handler.qos, m, freshID, rt);
    d := Response(sub.handler.qos, m, freshID).0;
  }

  /** Any other message with a reply subject is awaited at QoS 1 under the granted id. */
  lemma ForeignIsAwaited(s: State, sub: Sub, m: Msg, freshID: u16) returns (d: Publish)
    requires WellTyped(s) && Enabled(s, Deliver(sub, m, freshID)) && sub.conn in s.conns
    requires sub.handler.qos > 0 && m.reply != "" && ParseReplyTopic(m.reply).None?
    ensures Awaits(s, Apply(s, Deliver(sub, m, freshID)), sub.conn, 1, d)
    ensures Conveys(d, m) && d.id == freshID && Level(d.flags) == 1 && !Bit(d.flags, 3) && !Bit(d.flags, 0)
  {
    hide Topics.NatsMatches, Response, ParseReplyTopic, Level, Bit, Conveys, ValidName;
    ForeignDelivery(sub.handler.qos, m, freshID);
    d := Response(sub.handler.qos, m, freshID).0;
  }

  /** A PUBACK of a pending delivery takes it off and notifies its reply subject, if it has one; any other does nothing. */
  lemma PubAckForwards(s: State, c: nat, id: u16, ok: bool)
    requires WellTyped(s) && Enabled(s, ClientAck(c, id, ok))
    ensures var t, r, a := Apply(s, ClientAck(c, id, ok)), s.conns[c].session, SessionOf(s, c);
            if id !in a.awaitsClientAck then t == s
            else
              var reply := a.awaitsClientAck[id].replyTo;
              && t == s.(nats := t.nats, sessions := s.sessions[r := a.(awaitsClientAck := a.awaitsClientAck - {id})], log := t.log)
              && t.nats.live == s.nats.live && t.nats.next == s.nats.next
              && t.nats.sent == s.nats.sent + (if reply != "" && ok then [Msg(reply, "", [0 as char])] else [])
              && t.log == s.log + [Acked(a.clientID, a.id, id, reply)]
  {
    hide ValidName;
  }

  /**
   * A request from outside the bridge, with any reply subject of its own, is answered: it goes out at QoS 1 and is
   * awaited, and the client's PUBACK sends one message to that reply subject and leaves nothing pending.
   */
  lemma ForeignRequestIsAnswered(s: State, sub: Sub, m: Msg, freshID: u16)
    requires WellTyped(s) && Enabled(s, Deliver(sub, m, freshID)) && HasConn(s, sub.conn)
    requires sub.handler.qos > 0 && m.reply != "" && ParseReplyTopic(m.reply).None?
    requires WellTyped(Apply(s, Deliver(sub, m, freshID)))
    ensures var t := Apply(s, Deliver(sub, m, freshID));
            && Enabled(t, ClientAck(sub.conn, freshID, true))
            && var u := Apply(t, ClientAck(sub.conn, freshID, true));
               && u.nats.sent == s.nats.sent + [Msg(m.reply, "", [0 as char])]
               && u.conns == s.conns && u.conns[sub.conn].session in u.sessions
               && freshID !in u.sessions[u.conns[sub.conn].session].awaitsClientAck
  {
    hide Apply, Topics.NatsMatches, ParseReplyTopic, Level, Bit;
    var d := ForeignIsAwaited(s, sub, m, freshID);
    PubAckForwards(Apply(s, Deliver(sub, m, freshID)), sub.conn, freshID, true);
  }

  // ---- requests to NATS

  /** The publish is a repetition that is dropped, or of a level that is refused, or its ack could not be subscribed to. */
  predicate Declined(awaited: set<u16>, d: Publish, subOk: bool) {
    (Bit(d.flags, 3) && d.id in awaited) || Level(d.flags) >= 2 || (Level(d.flags) == 1 && !subOk)
  }

  /** A declined publish does nothing; one at QoS 0 sends one message that carries it, without a reply subject. */
  lemma PublishPlain(s: State, c: nat, d: Publish, subOk: bool, pubOk: bool) returns (m: Msg)
    requires WellTyped(s) && Enabled(s, Step.Publish(c, d, subOk, pubOk))
    ensures var t := Apply(s, Step.Publish(c, d, subOk, pubOk));
            && (Declined(SessionOf(s, c).awaitsAck.Keys, d, subOk) ==> t == s)
            && (!Declined(SessionOf(s, c).awaitsAck.Keys, d, subOk) && Level(d.flags) == 0 ==>
                 t == s.(nats := t.nats) && t.nats.live == s.nats.live && t.nats.next == s.nats.next
                 && t.nats.sent == s.nats.sent + if pubOk then [m] else [])
    ensures Carries(m, d) && m.reply == ""
  {
    hide ValidName, InInbox, Bit, Topics.Rewrite;
    FlagBits(d.flags);
    Topics.RewriteTwice(Topics.TopicRune, d.name);
    m := Msg(Topics.Rewrite(Topics.TopicRune, d.name), "", d.payload);
    assert s.sessions[s.conns[c].session := SessionOf(s, c)] == s.sessions;
    assert s.log + [] == s.log && s.nats.sent + [] == s.nats.sent;
  }

  /**
   * Any other publish at QoS 1 is entered in the history, awaited under its id by a subscription of its own, and sent as
   * a request; the reply subject in all three spells out session, id and flags.
   */
  lemma PublishRequests(s: State, c: nat, d: Publish, subOk: bool, pubOk: bool) returns (m: Msg, sub: Sub)
    requires WellTyped(s) && Enabled(s, Step.Publish(c, d, subOk, pubOk))
    requires !Declined(SessionOf(s, c).awaitsAck.Keys, d, subOk) && Level(d.flags) == 1
    ensures var t, r, a := Apply(s, Step.Publish(c, d, subOk, pubOk)), s.conns[c].session, SessionOf(s, c);
            && t == s.(nats := t.nats, sessions := s.sessions[r := a.(awaitsAck := a.awaitsAck[d.id := sub])], log := t.log)
            && t.nats.live == s.nats.live + {sub} && t.nats.sent == s.nats.sent + (if pubOk then [m] else [])
            && t.log == s.log + [Published(a.clientID, a.id, d.id, sub.subject, m.subject)]
    ensures sub.sid == s.nats.next && sub.conn == c && sub.handler == AckHandler && Spells(sub.subject, SessionOf(s, c), d)
    ensures Carries(m, d) && m.reply == sub.subject
  {
    var a := SessionOf(s, c);
    hide InInbox, Bit, Topics.Rewrite, ParseReplyTopic, Print;
    FlagBits(d.flags);
    Topics.RewriteTwice(Topics.TopicRune, d.name);
    assert ValidName(a.clientID) && ValidName(a.id);
    ReplyRoundTrip(ReplyTopic(a.clientID, a.id, d.id, d.flags));
    sub := Sub(s.nats.next, c, ReplySubject(a, d), AckHandler);
    m := RequestOf(a, d);
  }

  /** A will at QoS 0 is sent as a plain message, any other as a request of the server's own session. */
  lemma WillIsSent(s: State, d: Publish, ok: bool) returns (m: Msg)
    requires WellTyped(s) && Enabled(s, PublishWill(d, ok))
    ensures var t, a := Apply(s, PublishWill(d, ok)), s.sessions[s.server.value];
            && t == s.(nats := t.nats, log := t.log) && t.nats.live == s.nats.live && t.nats.next == s.nats.next
            && t.nats.sent == s.nats.sent + (if ok then [m] else [])
            && Carries(m, d)
            && if Level(d.flags) == 0 then m.reply == "" && t.log == s.log
               else Spells(m.reply, a, d) && t.log == s.log + [Published(a.clientID, a.id, d.id, m.reply, m.subject)]
  {
    var a := s.sessions[s.server.value];
    hide InInbox, Bit, Topics.Rewrite, ParseReplyTopic, Print;
    FlagBits(d.flags);
    Topics.RewriteTwice(Topics.TopicRune, d.name);
    assert ValidName(a.clientID) && ValidName(a.id);
    ReplyRoundTrip(ReplyTopic(a.clientID, a.id, d.id, d.flags));
    m := if Level(d.flags) == 0 then Msg(Topics.Rewrite(Topics.TopicRune, d.name), "", d.payload) else RequestOf(a, d);
    assert s.nats.sent + [] == s.nats.sent;
  }

  /** The handler of retained requests answers on the reply subject of what it is sent, and anyone else may send anything. */
  lemma AnswerIsSent(s: State, m: Msg, data: bytes)
    requires WellTyped(s) && Enabled(s, AnswerRetained(m, data))
    ensures var t := Apply(s, AnswerRetained(m, data));
            && t == s.(nats := t.nats, log := s.log + [Answered(m.reply, m.subject)])
            && t.nats.live == s.nats.live && t.nats.next == s.nats.next && t.nats.sent == s.nats.sent + [Msg(m.reply, "", data)]
  {
  }

  lemma ForeignIsSent(s: State, m: Msg)
    requires WellTyped(s) && Enabled(s, Foreign(m))
    ensures var t := Apply(s, Foreign(m)); t == s.(nats := s.nats.(sent := s.nats.sent + [m]))
  {
  }

  /** A granted filter becomes one live subscription at the lower of its QoS and 1, and an unsubscribed one is gone. */
  lemma SubscribeAdds(s: State, c: nat, filter: string, qos: u8) returns (sub: Sub)
    requires WellTyped(s) && Enabled(s, Step.Subscribe(c, filter, qos))
    ensures var t := Apply(s, Step.Subscribe(c, filter, qos));
            t == s.(nats := t.nats) && t.nats.live == s.nats.live + {sub} && t.nats.sent == s.nats.sent
    ensures sub.conn == c && Topics.Rewrite(Topics.FilterRune, sub.subject) == filter && sub.handler == DataHandler(Least(qos, 1))
    ensures sub.sid == s.nats.next
  {
    Topics.RewriteTwice(Topics.FilterRune, filter);
    hide Topics.Rewrite;
    sub := Sub(s.nats.next, c, Topics.Rewrite(Topics.FilterRune, filter), DataHandler(Least(qos, 1)));
  }

  lemma UnsubscribeRemoves(s: State, sub: Sub)
    requires WellTyped(s) && Enabled(s, Step.Unsubscribe(sub))
    ensures var t := Apply(s, Step.Unsubscribe(sub));
            t == s.(nats := t.nats) && t.nats.live == s.nats.live - {sub} && t.nats.sent == s.nats.sent
  {
  }
}
