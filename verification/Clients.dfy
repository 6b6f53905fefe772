// bridge/nats.go and the handlers of bridge/client.go: one client connection between MQTT and NATS.
module Clients {
  import opened Basics
  import opened Packets
  import opened Nats
  import opened Sessions
  import opened ReplyTopics
  import Topics
  import IdManager

  datatype ClientState = Infant | Connected | Disconnected

  datatype PublishError = SubscribeFailed | PublishFailed | QoSNotSupported

  /** The reply subject of a QoS 1 publish of a session. */
  function ReplySubject(s: SessionState, pp: Publish): string {
    Print(ReplyTopic(s.clientID, s.id, pp.id, pp.flags))
  }

  function RequestOf(s: SessionState, pp: Publish): Msg {
    Msg(Topics.Rewrite(Topics.TopicRune, pp.name), ReplySubject(s, pp), pp.payload)
  }

  /** A connection's session together with NATS. */
  datatype Link = Link(conn: nat, session: SessionState, nats: NatsState)

  /** A repeated PUBLISH whose ack is still awaited is dropped. */
  predicate Repeats(l: Link, pp: Publish) { IsDup(pp.flags) && pp.id in l.session.awaitsAck }

  /** The publish gets as far as an ack subscription of its own. */
  predicate Accepts(l: Link, pp: Publish, subOk: bool) { !Repeats(l, pp) && QoSLevel(pp.flags) == 1 && subOk }

  function PublishLink(l: Link, pp: Publish, subOk: bool, pubOk: bool): Link {
    if Repeats(l, pp) then l
    else if QoSLevel(pp.flags) == 0 then
      if pubOk then l.(nats := l.nats.Published(Msg(Topics.Rewrite(Topics.TopicRune, pp.name), "", pp.payload))) else l
    else if QoSLevel(pp.flags) == 1 && subOk then
      var (nats, sub) := l.nats.Subscribed(l.conn, ReplySubject(l.session, pp), AckHandler);
      Link(l.conn, l.session.AckRequested(pp.id, sub), if pubOk then nats.Published(RequestOf(l.session, pp)) else nats)
    else l
  }

  function PublishOutcome(l: Link, pp: Publish, subOk: bool, pubOk: bool): Result<(), PublishError> {
    if Repeats(l, pp) then Success(())
    else if QoSLevel(pp.flags) >= 2 then Failure(QoSNotSupported)
    else if QoSLevel(pp.flags) == 1 && !subOk then Failure(SubscribeFailed)
    else if pubOk then Success(()) else Failure(PublishFailed)
  }

  /** An ack for the session's packet id arrives from NATS. */
  function AckLink(l: Link, packetID: u16): Link {
    Link(l.conn, l.session.AckReceived(packetID), l.nats.Without(l.session.AckSubs(packetID)))
  }

  /** The packet and the effective QoS with which a NATS message is delivered to a subscriber. */
  function Response(desiredQoS: u8, m: Msg, freshID: u16): (Publish, u8) {
    var (id, flags) :=
      if desiredQoS > 0 && m.reply != "" then
        match ParseReplyTopic(m.reply)
        case Some(mt) => (mt.packetID, mt.flags)
        case None => (freshID, 2)
      else (0, 0);
    var pp := Publish(Topics.Rewrite(Topics.TopicRune, m.subject), m.reply, m.data, id, flags, false);
    (pp, if QoSLevel(flags) < desiredQoS then QoSLevel(flags) else desiredQoS)
  }

  // ---- the subscription table

  datatype Table = Table(subs: map<string, Sub>, nats: NatsState)

  function Cancelled(subs: map<string, Sub>, names: seq<string>): set<Sub> {
    set n | n in names && n in subs :: subs[n]
  }

  function Remaining(subs: map<string, Sub>, names: seq<string>): map<string, Sub> {
    subs - set n | n in names
  }

  lemma OneMoreName(subs: map<string, Sub>, names: seq<string>, nm: string)
    ensures var left := Remaining(subs, names);
            && Remaining(subs, names + [nm]) == left - {nm}
            && Cancelled(subs, names + [nm]) == Cancelled(subs, names) + if nm in left then {left[nm]} else {}
  {
    var left, all := Remaining(subs, names), names + [nm];
    forall s | s in Cancelled(subs, names) + if nm in left then {left[nm]} else {}
      ensures s in Cancelled(subs, all)
    {
      if s in Cancelled(subs, names) {
        var n :| n in names && n in subs && subs[n] == s;
        assert n in all;
      } else {
        assert nm in all;
      }
    }
  }

  function ClampQoS(qos: u8): u8 { if qos > 1 then 1 else qos }

  function FilterName(t: Topic): string { Topics.Rewrite(Topics.FilterRune, t.name) }

  function FilterNames(topics: seq<Topic>): (names: seq<string>)
    ensures |names| == |topics|
  {
    seq(|topics|, i requires 0 <= i < |topics| => FilterName(topics[i]))
  }

  /** The subscriptions made for the filters NATS accepts, in order. */
  function Subscribing(nats: NatsState, conn: nat, topics: seq<Topic>, oks: seq<bool>): (NatsState, seq<Sub>)
    requires |topics| == |oks|
  {
    if topics == [] then (nats, [])
    else
      var n := |topics| - 1;
      var (before, nss) := Subscribing(nats, conn, topics[..n], oks[..n]);
      if oks[n] then
        var (after, ns) := before.Subscribed(conn, FilterName(topics[n]), DataHandler(ClampQoS(topics[n].qos)));
        (after, nss + [ns])
      else (before, nss)
  }

  function Inserted(subs: map<string, Sub>, nss: seq<Sub>): map<string, Sub> {
    if nss == [] then subs
    else
      var n := |nss| - 1;
      Inserted(subs, nss[..n])[nss[n].subject := nss[n]]
  }

  function ReturnCodes(topics: seq<Topic>, oks: seq<bool>): (codes: seq<u8>)
    requires |topics| == |oks|
    ensures |codes| == |topics|
    ensures forall i :: 0 <= i < |topics| ==> codes[i] == if oks[i] then ClampQoS(topics[i].qos) else 0x80
  {
    seq(|topics|, i requires 0 <= i < |topics| => if oks[i] then ClampQoS(topics[i].qos) else 0x80)
  }

  function SubscribeTable(t: Table, conn: nat, topics: seq<Topic>, oks: seq<bool>): Table
    requires |topics| == |oks|
  {
    var names := FilterNames(topics);
    var (nats, nss) := Subscribing(t.nats.Without(Cancelled(t.subs, names)), conn, topics, oks);
    Table(Inserted(Remaining(t.subs, names), nss), nats)
  }

  function UnsubscribeTable(t: Table, names: seq<string>): Table {
    Table(Remaining(t.subs, names), t.nats.Without(Cancelled(t.subs, names)))
  }

  /** From l0 to l, the acks of the given ids went from remembered subjects to live subscriptions of their own. */
  ghost predicate Resubscribed(l0: Link, l: Link, done: set<u16>) {
    && done <= l0.session.prelAwaitsAck.Keys
    && l.nats.Valid() && l.nats.next >= l0.nats.next && l.nats.sent == l0.nats.sent
    && l.session.id == l0.session.id && l.session.clientID == l0.session.clientID
    && l.session.awaitsClientAck == l0.session.awaitsClientAck
    && l.session.awaitsAck.Keys == l0.session.awaitsAck.Keys + done
    && (forall k :: k in done ==>
         var sub := l.session.awaitsAck[k];
         && sub.subject == l0.session.prelAwaitsAck[k] && sub.conn == l0.conn && sub.handler == AckHandler
         && sub.sid >= l0.nats.next && sub in l.nats.live)
    && (forall k :: k in l0.session.awaitsAck && k !in done ==> l.session.awaitsAck[k] == l0.session.awaitsAck[k])
    && l0.nats.live <= l.nats.live
    && (forall sub :: sub in l.nats.live - l0.nats.live ==> exists k :: k in done && l.session.awaitsAck[k] == sub)
  }

  lemma ResubscribedOneMore(l0: Link, l: Link, done: set<u16>, k: u16)
    requires Resubscribed(l0, l, done) && k in l0.session.prelAwaitsAck && k !in done
    ensures var (nats, sub) := l.nats.Subscribed(l0.conn, l0.session.prelAwaitsAck[k], AckHandler);
            Resubscribed(l0, Link(l0.conn, l.session.AckRequested(k, sub), nats), done + {k})
  {
    var (nats, sub) := l.nats.Subscribed(l0.conn, l0.session.prelAwaitsAck[k], AckHandler);
    var awaits := l.session.AckRequested(k, sub).awaitsAck;
    forall s | s in nats.live - l0.nats.live ensures exists j :: j in done + {k} && awaits[j] == s {
      if s == sub {
        assert awaits[k] == s;
      } else {
        assert s in l.nats.live - l0.nats.live;
        var j :| j in done && l.session.awaitsAck[j] == s;
        assert awaits[j] == s;
      }
    }
  }

  // ---- the connection object

  /**
   * handleConnect's choice of a session, and the CONNACK with its session-present flag: an unclean client gets the
   * session that is there for its id.
   */
  method HandleConnect(sm: SessionManager, clientID: string, clean: bool) returns (s: Session, ack: Packet)
    requires sm.Valid()
    modifies sm
    ensures sm.Valid()
    ensures !clean && clientID in old(sm.m) ==>
              s == old(sm.m)[clientID] && sm.m == old(sm.m) && sm.seed == old(sm.seed) && s.State() == old(sm.m[clientID].State())
    ensures clean || clientID !in old(sm.m) ==>
              && fresh(s) && sm.m == old(sm.m)[clientID := s] && sm.seed == (old(sm.seed) + 1) % 0x1_0000_0000
              && s.clientID == clientID && s.id == SessionID(sm.seed)
              && s.prelAwaitsAck == map[] && s.awaitsAck == map[] && s.awaitsClientAck == map[]
    ensures ack == ConnAck(if !clean && clientID in old(sm.m) then 1 else 0, 0)
  {
    var sessionPresent := false;
    if clean {
      s := sm.Create(clientID);
    } else {
      var found := sm.Get(clientID);
      if found != null {
        s := found;
        sessionPresent := true;
      } else {
        s := sm.Create(clientID);
      }
    }
    ack := ConnAck(if sessionPresent then 1 else 0, 0);
  }

  class Client {
    const conn: nat
    const sm: SessionManager
    const natsConn: NatsConn
    const session: Session
    var natsSubs: map<string, Sub>
    var writeQueue: seq<Packet>
    var st: ClientState

    /** A client whose CONNECT was accepted: handleConnect has given it a session and a NATS connection. */
    constructor (conn: nat, sm: SessionManager, natsConn: NatsConn, session: Session)
      ensures this.conn == conn && this.sm == sm && this.natsConn == natsConn && this.session == session
      ensures natsSubs == map[] && writeQueue == [] && st == Connected
    {
      this.conn, this.sm, this.natsConn, this.session := conn, sm, natsConn, session;
      natsSubs, writeQueue, st := map[], [], Connected;
    }

    function LinkState(): Link
      reads session, natsConn
    {
      Link(conn, session.State(), natsConn.State())
    }

    function TableState(): Table
      reads this, natsConn
    {
      Table(natsSubs, natsConn.State())
    }

    /** The queue after one more packet: nothing is queued unless the client is connected. */
    function Queued(p: Packet): seq<Packet>
      reads this
    {
      if st == Connected then writeQueue + [p] else writeQueue
    }

    method QueueForWrite(p: Packet)
      modifies this`writeQueue
      ensures writeQueue == old(Queued(p))
    {
      if st == Connected { writeQueue := writeQueue + [p]; }
    }

    method NatsPublish(pp: Publish, subOk: bool, pubOk: bool) returns (r: Result<(), PublishError>)
      modifies session, natsConn
      ensures LinkState() == PublishLink(old(LinkState()), pp, subOk, pubOk)
      ensures r == PublishOutcome(old(LinkState()), pp, subOk, pubOk)
    {
      if IsDup(pp.flags) {
        var awaits := session.AwaitsAck(pp.id);
        if awaits { return Success(()); }
      }
      var natsSubject := Topics.ToNATS(pp.name);
      match QoSLevel(pp.flags) {
        case 0 =>
          natsConn.Publish(Msg(natsSubject, "", pp.payload), pubOk);
          r := if pubOk then Success(()) else Failure(PublishFailed);
        case 1 =>
          var replyTo := Print(ReplyTopic(session.clientID, session.id, pp.id, pp.flags));
          var sub := natsConn.Subscribe(conn, replyTo, AckHandler, subOk);
          if sub.Failure? { return Failure(SubscribeFailed); }
          session.AckRequested(pp.id, sub.value);
          natsConn.Publish(Msg(natsSubject, replyTo, pp.payload), pubOk);
          r := if pubOk then Success(()) else Failure(PublishFailed);
        case _ =>
          r := Failure(QoSNotSupported);
      }
    }

    /** The session that a reply on this subject is for, if it is still the current one of its client. */
    ghost function Addressee(subject: string): Option<Session>
      reads sm, sm.m.Values
    {
      match ParseReplyTopic(subject)
      case Some(mt) =>
        if mt.clientID in sm.m && sm.m[mt.clientID].id == mt.sessionID then Some(sm.m[mt.clientID]) else None
      case None => None
    }

    /** The callback of natsSubscribeAck. */
    method AckArrived(m: Msg)
      modifies this`writeQueue, natsConn, sm.m.Values
      ensures match old(Addressee(m.subject))
              case None =>
                && writeQueue == old(writeQueue) && natsConn.State() == old(natsConn.State())
                && forall s :: s in sm.m.Values ==> s.State() == old(s.State())
              case Some(s) =>
                var id := ParseReplyTopic(m.subject).value.packetID;
                && s.State() == old(s.State()).AckReceived(id)
                && natsConn.State() == old(natsConn.State()).Without(old(s.State()).AckSubs(id))
                && writeQueue == old(Queued(PubAck(id)))
                && forall other :: other in sm.m.Values && other != s ==> other.State() == old(other.State())
    {
      var mt := ParseReplyTopic(m.subject);
      if mt.Some? {
        var s := sm.Get(mt.value.clientID);
        if s != null && s.id == mt.value.sessionID {
          assert s in sm.m.Values;
          var nss := s.AckReceived(mt.value.packetID);
          CancelNatsSubscriptions(nss);
          QueueForWrite(PubAck(mt.value.packetID));
        }
      }
    }

    method CancelNatsSubscriptions(nss: seq<Sub>)
      modifies natsConn
      ensures natsConn.State() == old(natsConn.State()).Without(Subs(nss))
    {
      for i := 0 to |nss|
        invariant natsConn.State() == old(natsConn.State()).Without(Subs(nss[..i]))
      {
        natsConn.Unsubscribe(nss[i]);
        assert Subs(nss[..i + 1]) == Subs(nss[..i]) + {nss[i]};
      }
      assert nss[..|nss|] == nss;
    }

    /** The table without the names, and the subscriptions that were taken out. */
    method DropNames(names: seq<string>) returns (nss: seq<Sub>)
      modifies this`natsSubs
      ensures natsSubs == Remaining(old(natsSubs), names)
      ensures Subs(nss) == Cancelled(old(natsSubs), names)
    {
      nss := [];
      for i := 0 to |names|
        invariant natsSubs == Remaining(old(natsSubs), names[..i])
        invariant Subs(nss) == Cancelled(old(natsSubs), names[..i])
      {
        var nm := names[i];
        assert names[..i + 1] == names[..i] + [nm];
        OneMoreName(old(natsSubs), names[..i], nm);
        if nm in natsSubs {
          nss := nss + [natsSubs[nm]];
          natsSubs := natsSubs - {nm};
        }
      }
      assert names[..|names|] == names;
    }

    method NatsSubscribe(id: u16, topics: seq<Topic>, oks: seq<bool>)
      requires |oks| == |topics|
      modifies this`natsSubs, this`writeQueue, natsConn
      ensures TableState() == SubscribeTable(old(TableState()), conn, topics, oks)
      ensures writeQueue == old(Queued(SubAck(id, ReturnCodes(topics, oks))))
    {
      var nms: seq<string>, qss: seq<u8> := [], [];
      for i := 0 to |topics|
        invariant nms == FilterNames(topics[..i]) && |qss| == i
        invariant forall k :: 0 <= k < i ==> qss[k] == topics[k].qos
        modifies {}
      {
        var nm := Topics.ToNATSSubscription(topics[i].name);
        nms := nms + [nm];
        qss := qss + [topics[i].qos];
      }
      assert topics[..|topics|] == topics;
      assert nms == FilterNames(topics);
      var dropped := DropNames(nms);
      CancelNatsSubscriptions(dropped);
      var nss;
      nss, qss := MakeSubscriptions(topics, nms, qss, oks);
      InsertSubscriptions(nss);
      QueueForWrite(SubAck(id, qss));
    }

    method MakeSubscriptions(ghost topics: seq<Topic>, nms: seq<string>, qos: seq<u8>, oks: seq<bool>)
      returns (nss: seq<Sub>, qss: seq<u8>)
      requires |oks| == |topics| == |qos| && nms == FilterNames(topics)
      requires forall k :: 0 <= k < |topics| ==> qos[k] == topics[k].qos
      modifies natsConn
      ensures (natsConn.State(), nss) == Subscribing(old(natsConn.State()), conn, topics, oks)
      ensures qss == ReturnCodes(topics, oks)
    {
      nss, qss := [], qos;
      for i := 0 to |nms|
        invariant |qss| == |topics|
        invariant forall k :: 0 <= k < i ==> qss[k] == ReturnCodes(topics, oks)[k]
        invariant forall k :: i <= k < |topics| ==> qss[k] == topics[k].qos
        invariant (natsConn.State(), nss) == Subscribing(old(natsConn.State()), conn, topics[..i], oks[..i])
      {
        assert topics[..i + 1][..i] == topics[..i] && oks[..i + 1][..i] == oks[..i];
        if qss[i] > 1 { qss := qss[i := 1]; }
        var ns := natsConn.Subscribe(conn, nms[i], DataHandler(qss[i]), oks[i]);
        if ns.Success? {
          nss := nss + [ns.value];
        } else {
          qss := qss[i := 0x80];
        }
      }
      assert topics[..|topics|] == topics && oks[..|oks|] == oks;
    }

    method InsertSubscriptions(nss: seq<Sub>)
      modifies this`natsSubs
      ensures natsSubs == Inserted(old(natsSubs), nss)
    {
      for i := 0 to |nss|
        invariant natsSubs == Inserted(old(natsSubs), nss[..i])
      {
        assert nss[..i + 1][..i] == nss[..i];
        natsSubs := natsSubs[nss[i].subject := nss[i]];
      }
      assert nss[..|nss|] == nss;
    }

    method NatsUnsubscribe(id: u16, topics: seq<string>)
      modifies this`natsSubs, this`writeQueue, natsConn
      ensures TableState() == UnsubscribeTable(old(TableState()), Topics.RewriteAll(Topics.FilterRune, topics))
      ensures writeQueue == old(Queued(UnsubAck(id)))
    {
      var names: seq<string> := [];
      for i := 0 to |topics|
        invariant names == Topics.RewriteAll(Topics.FilterRune, topics[..i])
        modifies {}
      {
        var nm := Topics.ToNATSSubscription(topics[i]);
        names := names + [nm];
      }
      assert topics[..|topics|] == topics;
      assert names == Topics.RewriteAll(Topics.FilterRune, topics);
      var nss := DropNames(names);
      assert natsSubs == UnsubscribeTable(old(TableState()), names).subs;
      CancelNatsSubscriptions(nss);
      QueueForWrite(UnsubAck(id));
    }

    /** The callback of a data subscription. Packet ids for foreign reply subjects come from the allocator. */
    method NatsResponse(desiredQoS: u8, m: Msg, ids: IdManager.IDManager) returns (ghost freshID: u16)
      requires desiredQoS > 0 && m.reply != "" && ParseReplyTopic(m.reply).None? ==> IdManager.HasFree(ids.inFlight)
      modifies this`writeQueue, session, ids
      ensures var (pp, qos) := Response(desiredQoS, m, freshID);
              && session.State() == (if qos > 0 then old(session.State()).ClientAckRequested(pp) else old(session.State()))
              && writeQueue == old(Queued(PublishPacket(pp)))
      ensures desiredQoS > 0 && m.reply != "" && ParseReplyTopic(m.reply).None? ==>
                freshID == IdManager.Grant(old(ids.State())) && ids.inFlight == old(ids.inFlight) + {freshID}
    {
      var id: u16, flags: u8 := 0, 0;
      freshID := 0;
      if desiredQoS > 0 && m.reply != "" {
        var mt := ParseReplyTopic(m.reply);
        if mt.Some? {
          id, flags := mt.value.packetID, mt.value.flags;
        } else {
          id := ids.NextFreePacketID();
          freshID := id;
          flags := 2;
        }
      }
      var name := Topics.ToNATS(m.subject);
      var pp := Publish(name, m.reply, m.data, id, flags, false);
      var qos := desiredQoS;
      if QoSLevel(pp.flags) < qos { qos := QoSLevel(pp.flags); }
      PublishResponse(qos, pp);
    }

    /** readLoop on a PUBACK: the delivery is no longer awaited, its reply subject is notified, and the id is free again. */
    method PubAckReceived(id: u16, ids: IdManager.IDManager, ok: bool)
      modifies session, natsConn, ids
      ensures session.State() == old(session.State()).(awaitsClientAck := old(session.awaitsClientAck) - {id})
      ensures ids.inFlight == old(ids.inFlight) - {id} && ids.nextFreePkgID == old(ids.nextFreePkgID)
      ensures natsConn.live == old(natsConn.live)
      ensures natsConn.sent == old(natsConn.sent) +
              if id in old(session.awaitsClientAck) && old(session.awaitsClientAck)[id].replyTo != "" && ok
              then [Msg(old(session.awaitsClientAck)[id].replyTo, "", [0 as char])] else []
    {
      ghost var before := natsConn.State();
      var found := session.ClientAckReceived(id, natsConn, ok);
      ids.ReleasePacketID(id);
      assert natsConn.State().sent == natsConn.sent && natsConn.State().live == natsConn.live;
    }

    method PublishResponse(qos: u8, pp: Publish)
      modifies this`writeQueue, session
      ensures session.State() == if qos > 0 then old(session.State()).ClientAckRequested(pp) else old(session.State())
      ensures writeQueue == old(Queued(PublishPacket(pp)))
    {
      if qos > 0 { session.ClientAckRequested(pp); }
      QueueForWrite(PublishPacket(pp));
    }
 
    /** Subscriptions that were loaded by subject become live ones again; NATS accepts those of the given ids. */
    method RestoreAckSubscriptions(accepted: set<u16>)
      requires natsConn.State().Valid()
      modifies session, natsConn
      ensures session.prelAwaitsAck == map[]
      ensures Resubscribed(old(LinkState()), LinkState(), old(session.prelAwaitsAck.Keys) * accepted)
    {
      var prel := session.prelAwaitsAck;
      var todo := prel.Keys;
      ghost var start := LinkState();
      ghost var done: set<u16> := {};
      while todo != {}
        invariant todo <= prel.Keys && done == (prel.Keys - todo) * accepted
        invariant Resubscribed(start, LinkState(), done)
      {
        var k :| k in todo;
        todo := todo - {k};
        ghost var before := LinkState();
        var sub := natsConn.Subscribe(conn, prel[k], AckHandler, k in accepted);
        if sub.Success? {
          session.AckRequested(k, sub.value);
          ResubscribedOneMore(start, before, done, k);
          done := done + {k};
        }
      }
      assert done == prel.Keys * accepted;
      session.prelAwaitsAck := map[];
    }

    /** Every delivery the client has not acked is queued once more, in no particular order. */
    method ResendClientUnack() returns (ghost order: seq<u16>)
      requires forall k :: k in session.awaitsClientAck ==> session.awaitsClientAck[k].id == k
      modifies this`writeQueue, session
      ensures session.State() == old(session.State())
      ensures forall i, j :: 0 <= i < j < |order| ==> order[i] != order[j]
      ensures forall k :: k in order <==> k in session.awaitsClientAck
      ensures writeQueue == old(writeQueue) + if st == Connected then Resent(session.awaitsClientAck, order) else []
    {
      var unack := session.awaitsClientAck;
      var todo := unack.Keys;
      order := [];
      while todo != {}
        invariant session.State() == old(session.State())
        invariant todo <= unack.Keys
        invariant forall i, j :: 0 <= i < j < |order| ==> order[i] != order[j]
        invariant forall k :: k in order <==> k in unack.Keys - todo
        invariant writeQueue == old(writeQueue) + if st == Connected then Resent(unack, order) else []
      {
        var k :| k in todo;
        assert k !in order;
        todo := todo - {k};
        PublishResponse(QoSLevel(unack[k].flags), unack[k]);
        assert session.awaitsClientAck == unack;
        assert (order + [k])[..|order|] == order;
        order := order + [k];
      }
    }
  }

  function Resent(unack: map<u16, Publish>, order: seq<u16>): seq<Packet>
    requires forall k :: k in order ==> k in unack
  {
    if order == [] then []
    else
      var n := |order| - 1;
      Resent(unack, order[..n]) + [PublishPacket(unack[order[n]])]
  }
}
