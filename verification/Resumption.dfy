// Which session a client gets when it connects, over whole runs: what survives an unclean end and what a clean one drops.
module Resumption {
  import opened Basics
  import opened Packets
  import opened Nats
  import opened Sessions
  import opened Clients
  import opened Protocol
  import opened ProtocolLaws
  import opened FreshnessLaws
  import opened ReplyTopics
  import opened StepLaws

  // ---- the session of a new connection

  lemma RunIsTyped(ss: seq<State>, steps: seq<Step>, k: nat)
    requires IsRun(ss, steps) && k < |ss|
    ensures WellTyped(ss[k])
  {
    hide IsRun, WellTyped;
    RunKeepsInv(ss, steps, k);
    InvTyped(ss[k]);
  }

  lemma InvTyped(s: State)
    requires Inv(s)
    ensures WellTyped(s)
  {
  }

  /** Step k is this CONNECT. */
  ghost predicate Connects(ss: seq<State>, steps: seq<Step>, k: nat, c: nat, n: string, clean: bool) {
    IsRun(ss, steps) && |ss| == |steps| + 1 && k < |steps| && steps[k] == Step.Connect(c, n, clean)
  }

  lemma ConnectsTyped(ss: seq<State>, steps: seq<Step>, k: nat, c: nat, n: string, clean: bool)
    requires Connects(ss, steps, k, c, n, clean)
    ensures WellTyped(ss[k]) && Enabled(ss[k], Step.Connect(c, n, clean)) && ss[k + 1] == Apply(ss[k], Step.Connect(c, n, clean))
    ensures WellTyped(ss[k + 1]) && c in ss[k + 1].conns
  {
    hide WellTyped, Enabled, Apply;
    RunIsTyped(ss, steps, k + 1);
    ConnectGives(ss[k], c, n, clean);
  }

  /**
   * An unclean CONNECT of a client with a current session gets that session, and what it then awaits from its client is
   * what the history says: the latest delivery of each id that was not acked since.
   */
  lemma UncleanResumes(ss: seq<State>, steps: seq<Step>, k: nat, c: nat, n: string)
    requires Connects(ss, steps, k, c, n, false) && ss[k + 1].created < SEEDS && n in ss[k].current
    ensures WellTyped(ss[k]) && WellTyped(ss[k + 1]) && c in ss[k + 1].conns && ss[k].current[n] in ss[k].sessions
    ensures var own := SessionOf(ss[k + 1], c);
            && own == ss[k].sessions[ss[k].current[n]] && own.clientID == n
            && forall id: u16 :: Pending(own, id) == Latest(ss[k + 1].log, n, own.id, id)
  {
    hide IsRun, Fresh, WellTyped, Enabled, Apply, Latest, Pending;
    ConnectsTyped(ss, steps, k, c, n, false);
    ConnectGives(ss[k], c, n, false);
    CurrentIsNamed(ss[k], n);
    RunKeepsFresh(ss, steps, k + 1);
    ConnFollows(ss[k + 1], c);
  }

  lemma CurrentIsNamed(s: State, n: string)
    requires WellTyped(s) && n in s.current
    ensures s.current[n] in s.sessions && s.sessions[s.current[n]].clientID == n
  {
  }

  /** By the history nothing is pending for the session of this name. */
  ghost predicate Unheard(log: seq<Event>, n: string, sid: string) { forall id: u16 :: Latest(log, n, sid, id) == None }

  lemma NothingPending(log: seq<Event>, own: SessionState)
    requires Follows(log, own) && AwaitsNothing(own)
    ensures Unheard(log, own.clientID, own.id)
  {
    hide Latest;
    forall id: u16 ensures Latest(log, own.clientID, own.id, id) == None {
      assert Pending(own, id) == Latest(log, own.clientID, own.id, id);
    }
  }

  /** Any other CONNECT gets a session that awaits nothing and under whose name nothing was delivered or acked before. */
  lemma OthersStartAnew(ss: seq<State>, steps: seq<Step>, k: nat, c: nat, n: string, clean: bool)
    requires Connects(ss, steps, k, c, n, clean) && ss[k + 1].created < SEEDS && (clean || n !in ss[k].current)
    ensures WellTyped(ss[k + 1]) && c in ss[k + 1].conns
    ensures var own := SessionOf(ss[k + 1], c);
            && own.clientID == n && AwaitsNothing(own) && ss[k + 1].conns[c].session !in ss[k].sessions
            && Unheard(ss[k + 1].log, n, own.id)
  {
    hide IsRun, Fresh, WellTyped, Enabled, Apply, Latest;
    ConnectsTyped(ss, steps, k, c, n, clean);
    ConnectGives(ss[k], c, n, clean);
    RunKeepsFresh(ss, steps, k + 1);
    ConnFollows(ss[k + 1], c);
    NothingPending(ss[k + 1].log, SessionOf(ss[k + 1], c));
  }

  // ---- how long a session stays the current one

  /** The step drops the current session of n: a clean CONNECT of n, or the end of a clean connection of n. */
  ghost predicate Renews(s: State, step: Step, n: string)
    requires WellTyped(s)
  {
    match step
    case Connect(_, m, clean) => clean && m == n
    case Close(c, clean) => clean && c in s.conns && SessionOf(s, c).clientID == n
    case _ => false
  }

  /** Every client id with a current session was used. */
  ghost predicate CurrentUsed(s: State) { forall n :: n in s.current ==> n in s.used }

  ghost predicate SameCurrent(s: State, t: State) {
    t.current == s.current && t.used == s.used && t.sessions.Keys == s.sessions.Keys
    && forall r :: r in s.sessions ==> SameName(t.sessions[r], s.sessions[r])
  }

  lemma LinkKeepsName(l: Link, d: Publish, subOk: bool, pubOk: bool, id: u16)
    ensures SameName(PublishLink(l, d, subOk, pubOk).session, l.session) && SameName(AckLink(l, id).session, l.session)
  {
  }

  lemma PublishKeepsCurrent(s: State, c: nat, d: Publish, subOk: bool, pubOk: bool)
    requires WellTyped(s) && HasConn(s, c)
    ensures SameCurrent(s, DoPublish(s, c, d, subOk, pubOk))
  {
    hide ValidName, PublishLink, AckLink, Accepts, ReplySubject, SubjectOf;
    LinkKeepsName(Link(c, SessionOf(s, c), s.nats), d, subOk, pubOk, 0);
  }

  lemma AckKeepsCurrent(s: State, sub: Sub, m: Msg)
    requires WellTyped(s) && sub in s.nats.live
    ensures SameCurrent(s, DoAckArrives(s, sub, m))
  {
    hide ValidName, AckLink, ParseReplyTopic;
    if ParseReplyTopic(m.subject).Some? {
      var mt := ParseReplyTopic(m.subject).value;
      if mt.clientID in s.current {
        LinkKeepsName(Link(sub.conn, s.sessions[s.current[mt.clientID]], s.nats), Packets.Publish("", "", "", 0, 0, false), true, true, mt.packetID);
      }
    }
  }

  lemma SessionsKeepCurrent(s: State, t: State)
    requires t.sessions == s.sessions && t.current == s.current && t.used == s.used
    ensures SameCurrent(s, t)
  {
  }

  lemma RestoreKeepsCurrent(s: State, c: nat, id: u16, ok: bool)
    requires WellTyped(s) && Enabled(s, Restore(c, id, ok))
    ensures SameCurrent(s, DoRestore(s, c, id, ok))
  {
    hide ValidName;
  }

  lemma PubAckKeepsCurrent(s: State, c: nat, id: u16, ok: bool)
    requires WellTyped(s) && HasConn(s, c)
    ensures SameCurrent(s, DoClientAck(s, c, id, ok))
  {
    hide ValidName;
  }

  lemma WillKeepsCurrent(s: State, d: Publish, ok: bool)
    requires WellTyped(s) && s.server.Some?
    ensures SameCurrent(s, DoPublishWill(s, d, ok))
  {
    hide ValidName, ReplySubject, SubjectOf;
  }

  lemma RespondKeepsCurrent(s: State, c: nat, qos: u8, d: Publish)
    requires WellTyped(s) && c in s.conns
    ensures SameCurrent(s, Respond(s, c, qos, d))
  {
    hide ValidName;
  }

  lemma ResendKeepsCurrent(s: State, c: nat, id: u16)
    requires WellTyped(s) && Enabled(s, Resend(c, id))
    ensures SameCurrent(s, Apply(s, Resend(c, id)))
  {
    hide WellTyped, Respond, SameCurrent;
    var d := SessionOf(s, c).awaitsClientAck[id];
    RespondKeepsCurrent(s, c, QoSLevel(d.flags), d);
  }

  lemma DeliverKeepsCurrent(s: State, sub: Sub, m: Msg, freshID: u16)
    requires WellTyped(s) && Enabled(s, Deliver(sub, m, freshID))
    ensures SameCurrent(s, Apply(s, Deliver(sub, m, freshID)))
  {
    LiveConn(s, sub);
    hide WellTyped, Respond, SameCurrent, Response;
    var (d, qos) := Response(sub.handler.qos, m, freshID);
    RespondKeepsCurrent(s, sub.conn, qos, d);
  }

  /** Connections come, end and are saved; all other steps leave names, sessions and what is current alone. */
  lemma OthersKeepCurrent(s: State, step: Step)
    requires WellTyped(s) && Enabled(s, step) && !step.Connect? && !step.Close? && !step.Restart?
    ensures SameCurrent(s, Apply(s, step))
  {
    hide SameCurrent, ValidName, Response, DoPublish, DoAckArrives, DoRestore, DoClientAck, DoPublishWill, Respond, ReplySubject,
      SubjectOf, InInbox;
    var t := Apply(s, step);
    match step
    case Restore(c, id, ok) => RestoreKeepsCurrent(s, c, id, ok);
    case ClientAck(c, id, ok) => PubAckKeepsCurrent(s, c, id, ok);
    case PublishWill(d, ok) => WillKeepsCurrent(s, d, ok);
    case Publish(c, d, subOk, pubOk) => PublishKeepsCurrent(s, c, d, subOk, pubOk);
    case AckArrives(sub, m) => AckKeepsCurrent(s, sub, m);
    case Resend(c, id) => ResendKeepsCurrent(s, c, id);
    case Deliver(sub, m, freshID) => DeliverKeepsCurrent(s, sub, m, freshID);
    case SendRetained(c, qos, d) => RespondKeepsCurrent(s, c, qos, d);
    case _ => SessionsKeepCurrent(s, t);
  }

  lemma StepKeepsUsed(s: State, step: Step)
    requires WellTyped(s) && CurrentUsed(s) && Enabled(s, step)
    ensures CurrentUsed(Apply(s, step))
  {
    hide WellTyped, SameName, Apply, Enabled;
    match step
    case Connect(c, n, clean) => UsedAfterConnect(s, c, n, clean);
    case Close(c, clean) => CloseEnds(s, c, clean);
    case Restart(newServer) => UsedAfterRestart(s, newServer);
    case _ => OthersKeepCurrent(s, step);
  }

  lemma UsedAfterConnect(s: State, c: nat, n: string, clean: bool)
    requires WellTyped(s) && CurrentUsed(s) && Enabled(s, Step.Connect(c, n, clean))
    ensures CurrentUsed(Apply(s, Step.Connect(c, n, clean)))
  {
    hide ValidName, SessionID;
  }

  lemma UsedAfterRestart(s: State, newServer: Option<string>)
    requires WellTyped(s) && CurrentUsed(s) && Enabled(s, Restart(newServer))
    ensures CurrentUsed(Apply(s, Restart(newServer)))
  {
    hide ValidName, SessionID;
  }

  lemma {:induction false} RunKeepsUsed(ss: seq<State>, steps: seq<Step>, k: nat)
    requires IsRun(ss, steps) && k < |ss|
    ensures CurrentUsed(ss[k])
  {
    hide WellTyped, Enabled, Apply, CurrentUsed, Init;
    if k == 0 {
      var n :| ValidName(n) && ss[0] == Init(n, ss[0].requestTopic);
      InitUsed(n, ss[0].requestTopic);
    } else {
      RunKeepsUsed(ss, steps, k - 1);
      StepKeepsUsed(ss[k - 1], steps[k - 1]);
    }
  }

  lemma InitUsed(n: string, requestTopic: Option<string>)
    ensures CurrentUsed(Init(n, requestTopic))
  {
  }

  /** The client has a current session, held by r and named so. */
  ghost predicate Has(s: State, n: string, r: nat, sid: string) {
    n in s.current && s.current[n] == r && r in s.sessions && s.sessions[r].clientID == n && s.sessions[r].id == sid
  }

  lemma StepKeepsCurrent(s: State, step: Step, n: string, r: nat, sid: string)
    requires WellTyped(s) && CurrentUsed(s) && Enabled(s, step) && Has(s, n, r, sid) && !Renews(s, step, n)
    ensures Has(Apply(s, step), n, r, sid)
  {
    hide WellTyped, Apply;
    match step
    case Connect(c, m, clean) => ConnectGives(s, c, m, clean);
    case Close(c, clean) => CloseEnds(s, c, clean); ClosingIsTyped(s, c);
    case Restart(newServer) => RestartKeeps(s, newServer, n);
    case _ => OthersKeepCurrent(s, step);
  }

  lemma ClosingIsTyped(s: State, c: nat)
    requires WellTyped(s) && c in s.conns
    ensures s.conns[c].session in s.sessions
    ensures forall n :: n in s.current ==> s.current[n] in s.sessions && s.sessions[s.current[n]].clientID == n
  {
  }

  /** From i to j no step drops the current session of n. */
  ghost predicate NotRenewed(ss: seq<State>, steps: seq<Step>, i: nat, j: nat, n: string)
    requires IsRun(ss, steps) && i <= j <= |steps|
  {
    forall k :: i <= k < j ==> !Renews(ss[k], steps[k], n)
  }

  lemma {:induction false} SessionStays(ss: seq<State>, steps: seq<Step>, i: nat, j: nat, n: string, r: nat, sid: string)
    requires IsRun(ss, steps) && i <= j <= |steps| && Has(ss[i], n, r, sid) && NotRenewed(ss, steps, i, j, n)
    ensures Has(ss[j], n, r, sid)
    decreases j
  {
    hide WellTyped, Enabled, Apply, Has, CurrentUsed, Renews;
    if i < j {
      SessionStays(ss, steps, i, j - 1, n, r, sid);
      RunKeepsUsed(ss, steps, j - 1);
      StepKeepsCurrent(ss[j - 1], steps[j - 1], n, r, sid);
    }
  }

  /**
   * A client that comes back with an unclean CONNECT finds the session it had, whatever happened in between to it, to
   * others or to the server, unless the session was dropped by a clean CONNECT or by the end of a clean connection of
   * the same client id. It then awaits an ack for exactly the deliveries that the history says were not acked.
   */
  lemma SessionSurvives(ss: seq<State>, steps: seq<Step>, i: nat, j: nat, c: nat, n: string, r: nat, sid: string)
    requires Connects(ss, steps, j, c, n, false) && ss[j + 1].created < SEEDS
    requires i <= j && Has(ss[i], n, r, sid) && NotRenewed(ss, steps, i, j, n)
    ensures WellTyped(ss[j + 1]) && c in ss[j + 1].conns && ss[j + 1].conns[c].session == r
    ensures var own := SessionOf(ss[j + 1], c);
            && own.clientID == n && own.id == sid
            && forall id: u16 :: Pending(own, id) == Latest(ss[j + 1].log, n, sid, id)
  {
    hide IsRun, WellTyped, Enabled, Apply, Latest, Pending, NotRenewed;
    SessionStays(ss, steps, i, j, n, r, sid);
    UncleanResumes(ss, steps, j, c, n);
    ConnectsTyped(ss, steps, j, c, n, false);
    ConnectGives(ss[j], c, n, false);
  }
}
