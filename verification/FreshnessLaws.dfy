// What holds over every run with fewer than 2^32 sessions: session ids do not repeat, so stale replies do nothing
// and every forwarded ack is for the latest delivery.
module FreshnessLaws {
  import opened Basics
  import opened Strconv
  import opened Packets
  import opened Nats
  import opened Sessions
  import opened Clients
  import opened ReplyTopics
  import opened Protocol
  import opened ProtocolLaws
  import Topics

  /** By the history alone: the reply subject of the session's latest recorded delivery of id that was not acked since. */
  function Latest(log: seq<Event>, client: string, sid: string, id: u16): Option<string> {
    if log == [] then None
    else
      var e := log[|log| - 1];
      if e.Recorded? && e.client == client && e.sid == sid && e.id == id then Some(e.reply)
      else if e.Acked? && e.client == client && e.sid == sid && e.id == id then None
      else Latest(log[..|log| - 1], client, sid, id)
  }

  /** Every forwarded ack names the reply subject of the latest delivery since the previous ack of its id. */
  ghost predicate ForwardsLatest(log: seq<Event>) {
    forall k :: 0 <= k < |log| && log[k].Acked? ==>
      Latest(log[..k], log[k].client, log[k].sid, log[k].id) == Some(log[k].reply)
  }

  predicate OfDelivery(e: Event) { e.Recorded? || e.Acked? }

  ghost predicate Numbered(id: string, bound: nat) { exists n: nat :: n <= bound && id == SessionID(n) }

  function Pending(ss: SessionState, id: u16): Option<string> {
    if id in ss.awaitsClientAck then Some(ss.awaitsClientAck[id].replyTo) else None
  }

  ghost predicate Follows(log: seq<Event>, ss: SessionState) {
    forall id: u16 :: Pending(ss, id) == Latest(log, ss.clientID, ss.id, id)
  }

  ghost predicate Fresh(s: State) {
    && s.created >= 1
    && (forall r :: r in s.sessions ==> Numbered(s.sessions[r].id, s.created) && s.sessions[r].clientID in s.used)
    && (forall a, b :: a in s.sessions && b in s.sessions && a != b ==> !SameName(s.sessions[a], s.sessions[b]))
    && (forall e :: e in s.log && OfDelivery(e) ==> Numbered(e.sid, s.created) && e.client in s.used)
    && (forall r :: r in s.sessions ==> Follows(s.log, s.sessions[r]))
    && ForwardsLatest(s.log)
  }

  lemma LatestGrows(log: seq<Event>, e: Event, client: string, sid: string, id: u16)
    ensures Latest(log + [e], client, sid, id) ==
            if e.Recorded? && e.client == client && e.sid == sid && e.id == id then Some(e.reply)
            else if e.Acked? && e.client == client && e.sid == sid && e.id == id then None
            else Latest(log, client, sid, id)
  {
    assert (log + [e])[..|log|] == log;
  }

  lemma {:induction false} LatestNone(log: seq<Event>, client: string, sid: string, id: u16)
    requires forall e :: e in log && OfDelivery(e) ==> e.client != client || e.sid != sid
    ensures Latest(log, client, sid, id) == None
  {
    if log != [] {
      assert log[|log| - 1] in log;
      LatestNone(log[..|log| - 1], client, sid, id);
    }
  }

  lemma ForwardsGrow(log: seq<Event>, e: Event)
    requires ForwardsLatest(log) && (e.Acked? ==> Latest(log, e.client, e.sid, e.id) == Some(e.reply))
    ensures ForwardsLatest(log + [e])
  {
    hide Latest;
    forall k | 0 <= k < |log + [e]| && (log + [e])[k].Acked?
      ensures var a := (log + [e])[k]; Latest((log + [e])[..k], a.client, a.sid, a.id) == Some(a.reply)
    {
      assert (log + [e])[..k] == log[..k];
      if k == |log| { assert log[..k] == log; }
    }
  }

  /** Sessions keep their names and pending deliveries, and the log grows by no delivery event. */
  ghost predicate Quiet(s: State, t: State) {
    && t.created == s.created && t.used == s.used && t.sessions.Keys == s.sessions.Keys
    && (forall r :: r in s.sessions ==>
         SameName(t.sessions[r], s.sessions[r]) && t.sessions[r].awaitsClientAck == s.sessions[r].awaitsClientAck)
    && (t.log == s.log || exists e :: !OfDelivery(e) && t.log == s.log + [e])
  }

  lemma QuietKeepsFresh(s: State, t: State)
    requires Fresh(s) && Quiet(s, t)
    ensures Fresh(t)
  {
    hide Latest, Numbered, ForwardsLatest;
    if t.log != s.log {
      var e :| !OfDelivery(e) && t.log == s.log + [e];
      ForwardsGrow(s.log, e);
      forall r | r in t.sessions ensures Follows(t.log, t.sessions[r]) {
        FollowsQuietly(s.log, e, s.sessions[r], t.sessions[r]);
      }
    } else {
      forall r | r in t.sessions ensures Follows(t.log, t.sessions[r]) {
        assert Follows(s.log, s.sessions[r]);
        forall id: u16 ensures Pending(t.sessions[r], id) == Latest(t.log, t.sessions[r].clientID, t.sessions[r].id, id) {
          assert Pending(t.sessions[r], id) == Pending(s.sessions[r], id);
        }
      }
    }
  }

  lemma FollowsQuietly(log: seq<Event>, e: Event, ss: SessionState, tt: SessionState)
    requires Follows(log, ss) && SameName(ss, tt) && ss.awaitsClientAck == tt.awaitsClientAck
    requires OfDelivery(e) ==> e.client != ss.clientID || e.sid != ss.id
    ensures Follows(log + [e], tt)
  {
    hide Latest;
    forall id: u16 ensures Pending(tt, id) == Latest(log + [e], tt.clientID, tt.id, id) {
      LatestGrows(log, e, ss.clientID, ss.id, id);
      assert Pending(tt, id) == Pending(ss, id);
    }
  }

  /** A delivery event of one session, and the change of that session that goes with it. */
  lemma EventKeepsFresh(s: State, t: State, r: nat, tt: SessionState, e: Event)
    requires Fresh(s) && r in s.sessions && OfDelivery(e)
    requires SameName(tt, s.sessions[r]) && e.client == tt.clientID && e.sid == tt.id
    requires t.created == s.created && t.used == s.used && t.sessions == s.sessions[r := tt] && t.log == s.log + [e]
    requires e.Acked? ==> Latest(s.log, e.client, e.sid, e.id) == Some(e.reply)
    requires forall id: u16 ::
      Pending(tt, id) == if id != e.id then Pending(s.sessions[r], id) else if e.Recorded? then Some(e.reply) else None
    ensures Fresh(t)
  {
    hide Latest, Numbered, ForwardsLatest, Pending;
    ForwardsGrow(s.log, e);
    forall q | q in t.sessions ensures Follows(t.log, t.sessions[q]) {
      if q == r {
        forall id: u16 ensures Pending(tt, id) == Latest(t.log, tt.clientID, tt.id, id) {
          LatestGrows(s.log, e, tt.clientID, tt.id, id);
          assert Follows(s.log, s.sessions[r]);
        }
      } else {
        assert !SameName(s.sessions[q], s.sessions[r]);
        FollowsQuietly(s.log, e, s.sessions[q], t.sessions[q]);
      }
    }
  }

  lemma RespondKeepsFresh(s: State, c: nat, qos: u8, pp: Publish)
    requires WellTyped(s) && Fresh(s) && c in s.conns
    ensures Fresh(Respond(s, c, qos, pp))
  {
    if qos > 0 {
      var ss := SessionOf(s, c);
      var e := Recorded(ss.clientID, ss.id, pp.id, pp.replyTo);
      assert s.conns[c].session in s.sessions;
      hide Fresh, WellTyped;
      EventKeepsFresh(s, Respond(s, c, qos, pp), s.conns[c].session, ss.ClientAckRequested(pp), e);
    }
  }

  lemma ClientAckKeepsFresh(s: State, c: nat, id: u16, ok: bool)
    requires WellTyped(s) && Fresh(s) && c in s.conns
    ensures Fresh(DoClientAck(s, c, id, ok))
  {
    var ss := SessionOf(s, c);
    if id in ss.awaitsClientAck {
      var r := s.conns[c].session;
      var e := Acked(ss.clientID, ss.id, id, ss.awaitsClientAck[id].replyTo);
      assert r in s.sessions && Follows(s.log, s.sessions[r]);
      assert Pending(ss, id) == Latest(s.log, ss.clientID, ss.id, id);
      hide Fresh, WellTyped, Latest;
      EventKeepsFresh(s, DoClientAck(s, c, id, ok), r, ss.ClientAckReceived(id), e);
    }
  }

  lemma NumberedGrows(id: string, bound: nat)
    requires Numbered(id, bound)
    ensures Numbered(id, bound + 1) && id != SessionID(bound + 1)
  {
    hide SessionID;
    var n: nat :| n <= bound && id == SessionID(n);
    if id == SessionID(bound + 1) { SessionIDsDistinct(n, bound + 1); }
  }

  /** A session object with a name no session and no event has had. */
  lemma SpawnKeepsFresh(s: State, t: State, n: string, id: string)
    requires Fresh(s) && s.nextRef !in s.sessions && s.created <= t.created <= s.created + 1
    requires t.sessions == s.sessions[s.nextRef := NewSession(id, n)] && t.log == s.log && t.used == s.used + {n}
    requires Numbered(id, t.created)
    requires n !in s.used || (t.created == s.created + 1 && id == SessionID(t.created))
    ensures Fresh(t)
  {
    hide Latest, Numbered, ForwardsLatest, SessionID;
    forall r | r in s.sessions
      ensures Numbered(s.sessions[r].id, t.created) && !SameName(s.sessions[r], NewSession(id, n))
    {
      NumberedGrows(s.sessions[r].id, s.created);
    }
    forall e | e in s.log && OfDelivery(e) ensures Numbered(e.sid, t.created) && (e.client != n || e.sid != id) {
      NumberedGrows(e.sid, s.created);
    }
    forall i: u16 ensures Latest(s.log, n, id, i) == None { LatestNone(s.log, n, id, i); }
    assert Follows(t.log, NewSession(id, n));
  }

  lemma CreateKeepsFresh(s: State, clientID: string)
    requires WellTyped(s) && Fresh(s) && s.created + 1 < SEEDS
    ensures Fresh(Create(s, clientID))
  {
    assert s.nextRef !in s.sessions;
    hide Fresh, WellTyped, SessionID;
    var t := Create(s, clientID);
    assert Numbered(SessionID(t.created), t.created);
    SpawnKeepsFresh(s, t, clientID, SessionID(t.created));
  }

  lemma ReloadKeepsFresh(s: State)
    requires WellTyped(s) && Fresh(s)
    ensures Fresh(DoRestart(s, None)) && DoRestart(s, None).nextRef !in DoRestart(s, None).sessions
  {
    hide Latest, Numbered, ForwardsLatest;
    var t := DoRestart(s, None);
    forall r | r in t.sessions ensures r in s.sessions && t.sessions[r] == s.sessions[r].Reloaded() {
      var n :| n in s.current && s.current[n] == r;
    }
    forall r | r in t.sessions ensures Follows(t.log, t.sessions[r]) {
      assert Follows(s.log, s.sessions[r]);
      forall id: u16 ensures Pending(t.sessions[r], id) == Latest(t.log, t.sessions[r].clientID, t.sessions[r].id, id) {
        assert Pending(t.sessions[r], id) == Pending(s.sessions[r], id);
      }
    }
  }

  lemma RestartKeepsFresh(s: State, newServer: Option<string>)
    requires WellTyped(s) && Fresh(s) && Enabled(s, Restart(newServer))
    ensures Fresh(DoRestart(s, newServer))
  {
    ReloadKeepsFresh(s);
    if newServer.Some? {
      var t := DoRestart(s, None);
      assert t.created >= 1;
      hide Fresh, WellTyped, SessionID;
      assert Numbered(SessionID(1), t.created);
      SpawnKeepsFresh(t, DoRestart(s, newServer), newServer.value, SessionID(1));
    }
  }

  /** One session object at most changes, and neither in name nor in pending deliveries. */
  lemma QuietChange(s: State, t: State, r: nat, es: seq<Event>)
    requires r in s.sessions && r in t.sessions && t.sessions == s.sessions[r := t.sessions[r]]
    requires SameName(t.sessions[r], s.sessions[r]) && t.sessions[r].awaitsClientAck == s.sessions[r].awaitsClientAck
    requires t.created == s.created && t.used == s.used && t.log == s.log + es
    requires es == [] || (|es| == 1 && !OfDelivery(es[0]))
    ensures Quiet(s, t)
  {
    if es == [] { assert s.log + es == s.log; } else { assert es == [es[0]]; }
  }

  lemma QuietRest(s: State, t: State)
    requires t.sessions == s.sessions && t.created == s.created && t.used == s.used
    requires t.log == s.log || exists e :: !OfDelivery(e) && t.log == s.log + [e]
    ensures Quiet(s, t)
  {
  }

  lemma AckArrivesQuietly(s: State, sub: Sub, m: Msg)
    requires WellTyped(s) && sub in s.nats.live
    ensures Quiet(s, DoAckArrives(s, sub, m))
  {
    var t := DoAckArrives(s, sub, m);
    if t != s {
      var ref := s.current[ParseReplyTopic(m.subject).value.clientID];
      var own := SessionOf(s, sub.conn);
      var e := PubAckQueued(own.clientID, own.id, ParseReplyTopic(m.subject).value.packetID);
      hide ParseReplyTopic, WellTyped, Quiet;
      QuietChange(s, t, ref, if s.conns[sub.conn].connected then [e] else []);
    }
  }

  lemma CloseQuietly(s: State, c: nat, clean: bool)
    requires WellTyped(s) && c in s.conns
    ensures Quiet(s, DoClose(s, c, clean))
  {
    var client := SessionOf(s, c).clientID;
    var t := DoClose(s, c, clean);
    if clean && client in s.current {
      var ref := s.current[client];
      assert s.log + [] == s.log;
      hide WellTyped, Quiet;
      QuietChange(s, t, ref, []);
    } else {
      hide WellTyped, Quiet;
      QuietRest(s, t);
    }
  }

  lemma OthersAreQuiet(s: State, step: Step)
    requires WellTyped(s) && Enabled(s, step)
    requires !step.Connect? && !step.Resend? && !step.Deliver? && !step.SendRetained? && !step.ClientAck? && !step.Restart?
    ensures Quiet(s, Apply(s, step))
  {
    hide Quiet, ValidName, ParseReplyTopic, InInbox, DoClose, DoAckArrives;
    var t := Apply(s, step);
    match step
    case Restore(c, id, ok) => assert s.log + [] == s.log; QuietChange(s, t, s.conns[c].session, []);
    case Publish(c, pp, subOk, pubOk) => PublishQuietly(s, c, pp, subOk, pubOk);
    case AckArrives(sub, m) => AckArrivesQuietly(s, sub, m);
    case Close(c, clean) => CloseQuietly(s, c, clean);
    case PublishWill(pp, ok) => WillQuietly(s, pp, ok);
    case AnswerRetained(m, _) => assert !OfDelivery(Answered(m.reply, m.subject)); QuietRest(s, t);
    case _ => QuietRest(s, t);
  }

  lemma PublishQuietly(s: State, c: nat, pp: Publish, subOk: bool, pubOk: bool)
    requires WellTyped(s) && HasConn(s, c)
    ensures Quiet(s, DoPublish(s, c, pp, subOk, pubOk))
  {
    hide Quiet, ValidName, ParseReplyTopic;
    var ss := SessionOf(s, c);
    QuietChange(s, DoPublish(s, c, pp, subOk, pubOk), s.conns[c].session,
      if Accepts(Link(c, ss, s.nats), pp, subOk) then [Published(ss.clientID, ss.id, pp.id, ReplySubject(ss, pp), SubjectOf(pp))] else []);
  }

  lemma WillQuietly(s: State, pp: Publish, ok: bool)
    requires WellTyped(s) && s.server.Some?
    ensures Quiet(s, DoPublishWill(s, pp, ok))
  {
    var ss := s.sessions[s.server.value];
    assert !OfDelivery(Published(ss.clientID, ss.id, pp.id, ReplySubject(ss, pp), SubjectOf(pp)));
    QuietRest(s, DoPublishWill(s, pp, ok));
  }

  lemma LiveConn(s: State, sub: Sub)
    requires WellTyped(s) && sub in s.nats.live
    ensures sub.conn in s.conns
  {
  }

  lemma StepKeepsFresh(s: State, step: Step)
    requires WellTyped(s) && Fresh(s) && Enabled(s, step) && Apply(s, step).created < SEEDS
    ensures Fresh(Apply(s, step))
  {
    hide Fresh, WellTyped, Respond, DoRestore, DoPublish, DoAckArrives, DoClientAck, DoClose, DoPublishWill, DoRestart, Response, Quiet;
    match step
    case Connect(c, clientID, clean) =>
      if clean || clientID !in s.current { CreateKeepsFresh(s, clientID); }
      ConnsAreFree(if clean || clientID !in s.current then Create(s, clientID) else s, DoConnect(s, c, clientID, clean));
    case Resend(c, id) => var pp := SessionOf(s, c).awaitsClientAck[id]; RespondKeepsFresh(s, c, QoSLevel(pp.flags), pp);
    case Deliver(sub, m, freshID) =>
      var (pp, qos) := Response(sub.handler.qos, m, freshID);
      LiveConn(s, sub);
      RespondKeepsFresh(s, sub.conn, qos, pp);
    case SendRetained(c, qos, pp) => RespondKeepsFresh(s, c, qos, pp);
    case ClientAck(c, id, ok) => ClientAckKeepsFresh(s, c, id, ok);
    case Restart(newServer) => RestartKeepsFresh(s, newServer);
    case _ => OthersAreQuiet(s, step); QuietKeepsFresh(s, Apply(s, step));
  }

  lemma ConnsAreFree(s: State, t: State)
    requires Fresh(s) && t == s.(conns := t.conns)
    ensures Fresh(t)
  {
  }

  lemma {:induction false} RunKeepsFresh(ss: seq<State>, steps: seq<Step>, k: nat)
    requires IsRun(ss, steps) && k < |ss| && ss[k].created < SEEDS
    ensures Inv(ss[k]) && Fresh(ss[k])
  {
    hide Inv, Fresh, Apply, Enabled, Init;
    RunKeepsInv(ss, steps, k);
    if k == 0 {
      var n :| ValidName(n) && ss[0] == Init(n, ss[0].requestTopic);
      InitFresh(n, ss[0].requestTopic);
    } else {
      RunKeepsInv(ss, steps, k - 1);
      CreatedGrows(ss[k - 1], steps[k - 1]);
      RunKeepsFresh(ss, steps, k - 1);
      StepKeepsFresh(ss[k - 1], steps[k - 1]);
    }
  }

  lemma CreatedGrows(s: State, step: Step)
    requires WellTyped(s) && Enabled(s, step)
    ensures s.created <= Apply(s, step).created
  {
    if !step.Connect? && !step.Resend? && !step.Deliver? && !step.SendRetained? && !step.ClientAck? && !step.Restart? {
      hide Apply, WellTyped, Enabled;
      OthersAreQuiet(s, step);
    } else {
      hide WellTyped, Response;
    }
  }

  lemma InitFresh(n: string, requestTopic: Option<string>)
    requires ValidName(n)
    ensures Fresh(Init(n, requestTopic))
  {
    hide SessionID;
    assert Numbered(SessionID(1), 1);
  }

  /**
   * In every run with fewer than 2^32 sessions, the ack that a client's PUBACK sends to NATS goes to the reply
   * subject of the session's latest QoS > 0 delivery with that id since the previous such PUBACK.
   */
  lemma AcksGoToLatestDelivery(ss: seq<State>, steps: seq<Step>, n: nat, k: nat)
    requires IsRun(ss, steps) && n < |ss| && ss[n].created < SEEDS && k < |ss[n].log| && ss[n].log[k].Acked?
    ensures var e := ss[n].log[k]; Latest(ss[n].log[..k], e.client, e.sid, e.id) == Some(e.reply)
  {
    RunKeepsFresh(ss, steps, n);
  }

  /** A PUBACK changes nothing and forwards nothing exactly when no delivery of its id is pending; so a repeated one does not. */
  lemma RepeatedPubAckIsIdle(ss: seq<State>, steps: seq<Step>, n: nat, c: nat, id: u16, ok: bool)
    requires IsRun(ss, steps) && n < |ss| && ss[n].created < SEEDS
    requires WellTyped(ss[n]) && Enabled(ss[n], ClientAck(c, id, ok))
    ensures var s := ss[n];
            var own := SessionOf(s, c);
            Apply(s, ClientAck(c, id, ok)) == s <==> Latest(s.log, own.clientID, own.id, id) == None
  {
    hide IsRun, Inv, Fresh, WellTyped, Latest, Follows, DoClientAck;
    RunKeepsFresh(ss, steps, n);
    ConnFollows(ss[n], c);
    PendingDecides(ss[n], c, id, ok);
  }

  lemma ConnFollows(s: State, c: nat)
    requires WellTyped(s) && Fresh(s) && c in s.conns
    ensures Follows(s.log, SessionOf(s, c))
  {
  }

  lemma PendingDecides(s: State, c: nat, id: u16, ok: bool)
    requires WellTyped(s) && HasConn(s, c) && Follows(s.log, SessionOf(s, c))
    ensures var own := SessionOf(s, c);
            DoClientAck(s, c, id, ok) == s <==> Latest(s.log, own.clientID, own.id, id) == None
  {
    hide WellTyped, Latest;
    assert Pending(SessionOf(s, c), id) == Latest(s.log, SessionOf(s, c).clientID, SessionOf(s, c).id, id);
    if id in SessionOf(s, c).awaitsClientAck {
      assert |DoClientAck(s, c, id, ok).log| == |s.log| + 1;
    }
  }

  /**
   * Stale replies are harmless: an ack for a connection whose session was replaced or removed queues no PUBACK
   * and leaves every session as it is.
   */
  lemma StaleReplyIsIdle(ss: seq<State>, steps: seq<Step>, n: nat, sub: Sub, m: Msg)
    requires IsRun(ss, steps) && n < |ss| && ss[n].created < SEEDS
    requires WellTyped(ss[n]) && Enabled(ss[n], AckArrives(sub, m))
    requires var s := ss[n]; var client := SessionOf(s, sub.conn).clientID;
             client !in s.current || s.current[client] != s.conns[sub.conn].session
    ensures Apply(ss[n], AckArrives(sub, m)) == ss[n]
  {
    RunKeepsFresh(ss, steps, n);
    var s := ss[n];
    var own := SessionOf(s, sub.conn);
    assert SubBacked(s.log, own, sub);
    Topics.LiteralPattern(sub.subject, m.subject);
    if own.clientID in s.current {
      assert !SameName(s.sessions[s.current[own.clientID]], s.sessions[s.conns[sub.conn].session]);
    }
  }

  /** The subject of an ack names the session of the connection that subscribed to it. */
  lemma AckNamesOwnSession(s: State, sub: Sub, m: Msg)
    requires Inv(s) && Enabled(s, AckArrives(sub, m))
    ensures var own := SessionOf(s, sub.conn);
            match ParseReplyTopic(m.subject)
            case Some(mt) => mt.clientID == own.clientID && mt.sessionID == own.id
            case None => false
  {
    assert SubBacked(s.log, SessionOf(s, sub.conn), sub);
    Topics.LiteralPattern(sub.subject, m.subject);
  }

  /**
   * An ack for a connection that holds the current session is taken off that session alone, its subscription is cancelled,
   * and a PUBACK with its id is queued if the connection is still connected.
   */
  lemma ReplyReachesOwnSession(ss: seq<State>, steps: seq<Step>, n: nat, sub: Sub, m: Msg)
    requires IsRun(ss, steps) && n < |ss|
    requires WellTyped(ss[n]) && Enabled(ss[n], AckArrives(sub, m))
    requires var s := ss[n]; var client := SessionOf(s, sub.conn).clientID;
             client in s.current && s.current[client] == s.conns[sub.conn].session
    ensures var s, t := ss[n], Apply(ss[n], AckArrives(sub, m));
            var ref := s.conns[sub.conn].session;
            && ParseReplyTopic(m.subject).Some?
            && var id := ParseReplyTopic(m.subject).value.packetID;
               && t == s.(sessions := t.sessions, nats := t.nats, log := t.log)
               && t.sessions == s.sessions[ref := s.sessions[ref].(awaitsAck := s.sessions[ref].awaitsAck - {id})]
               && t.nats.sent == s.nats.sent
               && t.nats.live == s.nats.live - (if id in s.sessions[ref].awaitsAck then {s.sessions[ref].awaitsAck[id]} else {})
               && t.log == s.log + if s.conns[sub.conn].connected
                                   then [PubAckQueued(s.sessions[ref].clientID, s.sessions[ref].id, id)] else []
  {
    RunKeepsInv(ss, steps, n);
    hide ParseReplyTopic, Inv, WellTyped;
    AckNamesOwnSession(ss[n], sub, m);
    OwnSessionTakesAck(ss[n], sub, m);
  }

  lemma OwnSessionTakesAck(s: State, sub: Sub, m: Msg)
    requires WellTyped(s) && sub in s.nats.live && ParseReplyTopic(m.subject).Some?
    requires var mt, own := ParseReplyTopic(m.subject).value, SessionOf(s, sub.conn);
             && mt.clientID == own.clientID && mt.sessionID == own.id
             && mt.clientID in s.current && s.current[mt.clientID] == s.conns[sub.conn].session
    ensures var t, ref, id := DoAckArrives(s, sub, m), s.conns[sub.conn].session, ParseReplyTopic(m.subject).value.packetID;
            && t == s.(sessions := t.sessions, nats := t.nats, log := t.log)
            && t.sessions == s.sessions[ref := s.sessions[ref].(awaitsAck := s.sessions[ref].awaitsAck - {id})]
            && t.nats.sent == s.nats.sent
            && t.nats.live == s.nats.live - (if id in s.sessions[ref].awaitsAck then {s.sessions[ref].awaitsAck[id]} else {})
            && t.log == s.log + if s.conns[sub.conn].connected
                                then [PubAckQueued(s.sessions[ref].clientID, s.sessions[ref].id, id)] else []
  {
    hide ParseReplyTopic, WellTyped;
  }
}
