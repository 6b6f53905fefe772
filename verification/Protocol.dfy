/**
 * The QoS 1 acknowledgement protocol over the whole bridge: sessions, connections, live NATS subscriptions and
 * every message ever published, changed by one handler of bridge/client.go, bridge/nats.go, bridge/session.go or
 * bridge/server.go at a time. NATS may deliver any message it was ever given, any number of times and in any
 * order, to any live subscription that matches it.
 */
module Protocol {
  import opened Basics
  import opened Strconv
  import opened Packets
  import opened Nats
  import opened Sessions
  import opened Clients
  import opened ReplyTopics
  import Topics

  /** What happened, in order. A session is named by its client id and its session id. */
  datatype Event =
    | Published(client: string, sid: string, id: u16, reply: string, subject: string) // a QoS 1 publish was handled
    | Recorded(client: string, sid: string, id: u16, reply: string)    // a QoS > 0 delivery to the session was recorded
    | Acked(client: string, sid: string, id: u16, reply: string)       // its PUBACK arrived; the reply subject is notified
    | Answered(reply: string, subject: string)                         // the handler of retained requests answered
    | PubAckQueued(client: string, sid: string, id: u16)               // a PUBACK for the session was queued

  datatype Conn = Conn(session: nat, open: bool, connected: bool)

  /** Session objects are told apart by reference: a replaced one may still be held by its connection. */
  datatype State = State(
    nats: NatsState,
    sessions: map<nat, SessionState>,
    nextRef: nat,
    current: map<string, nat>,
    created: nat,
    conns: map<nat, Conn>,
    server: Option<nat>,
    requestTopic: Option<string>,                                      // where retained messages are requested
    used: set<string>,
    log: seq<Event>)

  /** A client id that is one NATS token and no wildcard. */
  predicate ValidName(n: string) {
    n != "" && forall c :: c in n ==> c !in {'.', '*', '>', ' ', '\t', '\r', '\n'}
  }

  predicate IsReplySubject(r: string) { ParseReplyTopic(r).Some? }

  /** A message on this subject reaches the handler of retained requests. */
  predicate ToHandler(requestTopic: Option<string>, subject: string) {
    requestTopic.Some? && Topics.NatsMatches(requestTopic.value, subject)
  }

  function SubjectOf(pp: Publish): string { Topics.Rewrite(Topics.TopicRune, pp.name) }

  ghost predicate WellTyped(s: State) {
    && (forall r :: r in s.sessions ==> r < s.nextRef && ValidName(s.sessions[r].clientID) && ValidName(s.sessions[r].id))
    && (forall n :: n in s.current ==> s.current[n] in s.sessions && s.sessions[s.current[n]].clientID == n)
    && (forall c :: c in s.conns ==> s.conns[c].session in s.sessions)
    && (s.server.Some? ==> s.server.value in s.sessions)
    && (forall sub :: sub in s.nats.live ==> sub.conn in s.conns)
  }

  ghost predicate HasConn(s: State, c: nat) { c in s.conns && s.conns[c].open }

  ghost function SessionOf(s: State, c: nat): SessionState
    requires WellTyped(s) && c in s.conns
  {
    s.sessions[s.conns[c].session]
  }

  /** The session object of a connection after a handler changed it. */
  ghost function WithSession(s: State, c: nat, ss: SessionState): State
    requires WellTyped(s) && c in s.conns
  {
    s.(sessions := s.sessions[s.conns[c].session := ss])
  }

  function Log(s: State, es: seq<Event>): State { s.(log := s.log + es) }

  datatype Step =
    | Connect(conn: nat, clientID: string, clean: bool)
    | Restore(conn: nat, id: u16, ok: bool)
    | Resend(conn: nat, id: u16)
    | Publish(conn: nat, pp: Publish, subOk: bool, pubOk: bool)
    | AckArrives(sub: Sub, m: Msg)
    | Deliver(sub: Sub, m: Msg, freshID: u16)
    | SendRetained(conn: nat, qos: u8, pp: Publish)
    | ClientAck(conn: nat, id: u16, ok: bool)
    | Subscribe(conn: nat, filter: string, qos: u8)
    | Unsubscribe(sub: Sub)
    | Disconnect(conn: nat)
    | Close(conn: nat, clean: bool)
    | PublishWill(pp: Publish, ok: bool)
    | AnswerRetained(m: Msg, data: bytes)
    | Foreign(m: Msg)
    | Restart(newServer: Option<string>)

  /** No MQTT client publishes below _INBOX/. */
  predicate InInbox(topic: string) { Split(topic, '/')[0] == "_INBOX" }

  ghost predicate Enabled(s: State, step: Step)
    requires WellTyped(s)
  {
    match step
    case Connect(c, clientID, _) => c !in s.conns && ValidName(clientID)
    case Restore(c, id, _) => HasConn(s, c) && id in SessionOf(s, c).prelAwaitsAck
    case Resend(c, id) => HasConn(s, c) && id in SessionOf(s, c).awaitsClientAck
    case Publish(c, pp, _, _) => HasConn(s, c) && !InInbox(pp.name)
    case AckArrives(sub, m) =>
      sub in s.nats.live && sub.handler == AckHandler && m in s.nats.sent && Topics.NatsMatches(sub.subject, m.subject)
    case Deliver(sub, m, _) =>
      sub in s.nats.live && sub.handler.DataHandler? && m in s.nats.sent && Topics.NatsMatches(sub.subject, m.subject)
    case SendRetained(c, _, pp) => HasConn(s, c) && pp.replyTo == ""   // by Retained.RetainedHaveNoReply
    case ClientAck(c, _, _) => HasConn(s, c)
    case Subscribe(c, _, _) => HasConn(s, c)
    case Unsubscribe(sub) => sub in s.nats.live && sub.handler.DataHandler?
    case Disconnect(c) => HasConn(s, c)
    case Close(c, _) => HasConn(s, c)
    case PublishWill(pp, _) => s.server.Some? && !InInbox(pp.name)
    case AnswerRetained(m, _) => m in s.nats.sent && m.reply != "" && ToHandler(s.requestTopic, m.subject)
    case Foreign(m) => !IsReplySubject(m.subject) && !IsReplySubject(m.reply)
    case Restart(newServer) => newServer.Some? ==> ValidName(newServer.value) && newServer.value !in s.used
  }

  // ---- the handlers

  /** sm.Create */
  ghost function Create(s: State, clientID: string): State {
    s.(sessions := s.sessions[s.nextRef := NewSession(SessionID((s.created + 1) % SEEDS), clientID)],
       nextRef := s.nextRef + 1,
       current := s.current[clientID := s.nextRef],
       created := s.created + 1,
       used := s.used + {clientID})
  }

  /** handleConnect: an unclean client resumes the current session of its id, if there is one. */
  ghost function DoConnect(s: State, c: nat, clientID: string, clean: bool): State {
    var t := if !clean && clientID in s.current then s else Create(s, clientID);
    t.(conns := t.conns[c := Conn(t.current[clientID], true, true)])
  }

  /** One round of RestoreAckSubscriptions. */
  ghost function DoRestore(s: State, c: nat, id: u16, ok: bool): State
    requires WellTyped(s) && Enabled(s, Restore(c, id, ok))
  {
    var ss := SessionOf(s, c);
    var left := ss.(prelAwaitsAck := ss.prelAwaitsAck - {id});
    if !ok then WithSession(s, c, left)
    else
      var (nats, sub) := s.nats.Subscribed(c, ss.prelAwaitsAck[id], AckHandler);
      WithSession(s, c, left.AckRequested(id, sub)).(nats := nats)
  }

  /** PublishResponse */
  ghost function Respond(s: State, c: nat, qos: u8, pp: Publish): State
    requires WellTyped(s) && c in s.conns
  {
    var ss := SessionOf(s, c);
    if qos == 0 then s
    else Log(WithSession(s, c, ss.ClientAckRequested(pp)), [Recorded(ss.clientID, ss.id, pp.id, pp.replyTo)])
  }

  ghost function DoPublish(s: State, c: nat, pp: Publish, subOk: bool, pubOk: bool): State
    requires WellTyped(s) && c in s.conns
  {
    var ss := SessionOf(s, c);
    var l := Link(c, ss, s.nats);
    var l' := PublishLink(l, pp, subOk, pubOk);
    Log(WithSession(s, c, l'.session).(nats := l'.nats),
        if Accepts(l, pp, subOk) then [Published(ss.clientID, ss.id, pp.id, ReplySubject(ss, pp), SubjectOf(pp))] else [])
  }

  /** The callback of natsSubscribeAck: the session is looked up by what the subject names. */
  ghost function DoAckArrives(s: State, sub: Sub, m: Msg): State
    requires WellTyped(s) && sub in s.nats.live
  {
    match ParseReplyTopic(m.subject)
    case None => s
    case Some(mt) =>
      if mt.clientID in s.current && s.sessions[s.current[mt.clientID]].id == mt.sessionID then
        var ref := s.current[mt.clientID];
        var l := AckLink(Link(sub.conn, s.sessions[ref], s.nats), mt.packetID);
        var own := SessionOf(s, sub.conn);
        Log(s.(sessions := s.sessions[ref := l.session], nats := l.nats),
            if s.conns[sub.conn].connected then [PubAckQueued(own.clientID, own.id, mt.packetID)] else [])
      else s
  }

  /** session.ClientAckReceived */
  ghost function DoClientAck(s: State, c: nat, id: u16, ok: bool): State
    requires WellTyped(s) && c in s.conns
  {
    var ss := SessionOf(s, c);
    if id !in ss.awaitsClientAck then s
    else
      var r := ss.awaitsClientAck[id].replyTo;
      Log(WithSession(s, c, ss.ClientAckReceived(id))
            .(nats := if r != "" && ok then s.nats.Published(Msg(r, "", [0 as char])) else s.nats),
          [Acked(ss.clientID, ss.id, id, r)])
  }

  /** The end of Serve: the connection to NATS is closed, and a clean client's current session is removed. */
  ghost function DoClose(s: State, c: nat, clean: bool): State
    requires WellTyped(s) && c in s.conns
  {
    var client := SessionOf(s, c).clientID;
    var closed := s.(
      conns := s.conns[c := s.conns[c].(open := false, connected := false)],
      nats := s.nats.Without(set sub | sub in s.nats.live && sub.conn == c));
    if clean && client in s.current then
      var ref := s.current[client];
      closed.(
        current := s.current - {client},
        sessions := s.sessions[ref := s.sessions[ref].Destroyed()],
        nats := closed.nats.Without(s.sessions[ref].awaitsAck.Values))
    else closed
  }

  /** PublishWill and republish: the server's own session is the publisher. */
  ghost function DoPublishWill(s: State, pp: Publish, ok: bool): State
    requires WellTyped(s) && s.server.Some?
  {
    var ss := s.sessions[s.server.value];
    if QoSLevel(pp.flags) == 0 then
      if ok then s.(nats := s.nats.Published(Msg(Topics.Rewrite(Topics.TopicRune, pp.name), "", pp.payload))) else s
    else
      Log(if ok then s.(nats := s.nats.Published(RequestOf(ss, pp))) else s,
          [Published(ss.clientID, ss.id, pp.id, ReplySubject(ss, pp), SubjectOf(pp))])
  }

  /** Shutdown, save, load: sessions survive with their subjects, connections and subscriptions do not. */
  ghost function DoRestart(s: State, newServer: Option<string>): State
    requires WellTyped(s)
  {
    var t := s.(
      nats := s.nats.Without(s.nats.live),
      sessions := map r | r in s.current.Values :: s.sessions[r].Reloaded(),
      conns := map[],
      server := if s.server.Some? && s.sessions[s.server.value].clientID in s.current
                then Some(s.current[s.sessions[s.server.value].clientID]) else None);
    match newServer
    case None => t
    case Some(n) =>
      // a new process has made a session of its own before it loads the saved ones
      t.(sessions := t.sessions[t.nextRef := NewSession(SessionID(1), n)],
         nextRef := t.nextRef + 1,
         current := t.current[n := t.nextRef],
         used := t.used + {n})
  }

  ghost function Apply(s: State, step: Step): State
    requires WellTyped(s) && Enabled(s, step)
  {
    match step
    case Connect(c, clientID, clean) => DoConnect(s, c, clientID, clean)
    case Restore(c, id, ok) => DoRestore(s, c, id, ok)
    case Resend(c, id) =>
      var pp := SessionOf(s, c).awaitsClientAck[id];
      Respond(s, c, QoSLevel(pp.flags), pp)
    case Publish(c, pp, subOk, pubOk) => DoPublish(s, c, pp, subOk, pubOk)
    case AckArrives(sub, m) => DoAckArrives(s, sub, m)
    case Deliver(sub, m, freshID) =>
      var (pp, qos) := Response(sub.handler.qos, m, freshID);
      Respond(s, sub.conn, qos, pp)
    case SendRetained(c, qos, pp) => Respond(s, c, qos, pp)
    case ClientAck(c, id, ok) => DoClientAck(s, c, id, ok)
    case Subscribe(c, filter, qos) => s.(nats := s.nats.Subscribed(c, Topics.Rewrite(Topics.FilterRune, filter), DataHandler(ClampQoS(qos))).0)
    case Unsubscribe(sub) => s.(nats := s.nats.Without({sub}))
    case Disconnect(c) => s.(conns := s.conns[c := s.conns[c].(connected := false)])
    case Close(c, clean) => DoClose(s, c, clean)
    case PublishWill(pp, ok) => DoPublishWill(s, pp, ok)
    case AnswerRetained(m, data) => Log(s.(nats := s.nats.Published(Msg(m.reply, "", data))), [Answered(m.reply, m.subject)])
    case Foreign(m) => s.(nats := s.nats.Published(m))
    case Restart(newServer) => DoRestart(s, newServer)
  }

  /** server.New: the manager's first session is the server's own. */
  ghost function Init(serverID: string, requestTopic: Option<string>): State {
    State(NatsState(0, {}, []), map[0 := NewSession(SessionID(1), serverID)], 1, map[serverID := 0], 1, map[], Some(0),
          requestTopic, {serverID}, [])
  }

  ghost predicate IsRun(ss: seq<State>, steps: seq<Step>) {
    && |ss| == |steps| + 1
    && (exists n :: ValidName(n) && ss[0] == Init(n, ss[0].requestTopic))
    && forall i :: 0 <= i < |steps| ==> WellTyped(ss[i]) && Enabled(ss[i], steps[i]) && ss[i + 1] == Apply(ss[i], steps[i])
  }
}
