// Where the protocol's promises end: the topics that the handler of retained requests answers, and connections that
// share a client id.
module Limits {
  import opened Basics
  import opened Strconv
  import opened Packets
  import opened Nats
  import opened Sessions
  import opened Clients
  import opened ReplyTopics
  import opened Protocol
  import opened ProtocolLaws
  import opened StepLaws
  import Topics

  // ---- runs that leave the handler alone

  /** No QoS 1 publish and no will at QoS > 0 goes to a subject that the request topic matches. */
  predicate Avoids(requestTopic: Option<string>, step: Step) {
    && (step.Publish? && QoSLevel(step.pp.flags) == 1 ==> !ToHandler(requestTopic, SubjectOf(step.pp)))
    && (step.PublishWill? && QoSLevel(step.pp.flags) > 0 ==> !ToHandler(requestTopic, SubjectOf(step.pp)))
  }

  predicate LogAvoids(requestTopic: Option<string>, log: seq<Event>) {
    forall i :: 0 <= i < |log| && log[i].Published? ==> !ToHandler(requestTopic, log[i].subject)
  }

  lemma StepAvoids(s: State, step: Step)
    requires WellTyped(s) && Enabled(s, step) && LogAvoids(s.requestTopic, s.log) && Avoids(s.requestTopic, step)
    ensures LogAvoids(s.requestTopic, Apply(s, step).log)
  {
    hide WellTyped, Response, PublishLink, AckLink, ValidName, ParseReplyTopic, ToHandler;
  }

  lemma {:induction false} RunAvoids(ss: seq<State>, steps: seq<Step>, n: nat)
    requires IsRun(ss, steps) && n < |ss| && forall i :: 0 <= i < n ==> Avoids(ss[0].requestTopic, steps[i])
    ensures LogAvoids(ss[0].requestTopic, ss[n].log)
  {
    hide WellTyped, Enabled, Apply, Avoids;
    if n > 0 {
      RunAvoids(ss, steps, n - 1);
      TopicStays(ss, steps, n - 1);
      StepAvoids(ss[n - 1], steps[n - 1]);
    }
  }

  /**
   * As long as nothing that asks for an ack goes to the request topic, and always where none is configured, every
   * PUBACK stands for a subscriber's.
   */
  lemma SubscriberAlwaysAcks(ss: seq<State>, steps: seq<Step>, n: nat, l: nat)
    requires IsRun(ss, steps) && n < |ss| && l < |ss[n].log| && ss[n].log[l].PubAckQueued?
    requires forall i :: 0 <= i < n ==> Avoids(ss[0].requestTopic, steps[i])
    ensures Chained(ss[n].log, l)
  {
    hide IsRun, Avoids, ToHandler;
    EndToEnd(ss, steps, n, l);
    RunAvoids(ss, steps, n);
  }

  // ---- which topics are safe

  /** Every earlier publish of the acknowledged id by the session went to this subject. */
  predicate OnlyOn(log: seq<Event>, l: nat, subject: string)
    requires l < |log| && log[l].PubAckQueued?
  {
    var e := log[l];
    forall i :: 0 <= i < l && log[i].Published? && IsPublish(log[i], e.client, e.sid, e.id, log[i].reply) ==> log[i].subject == subject
  }

  /** In every run every PUBACK of a publish to this subject stands for a subscriber's. */
  ghost predicate Safe(requestTopic: Option<string>, subject: string) {
    forall ss: seq<State>, steps: seq<Step>, n: nat, l: nat ::
      (&& IsRun(ss, steps) && ss[0].requestTopic == requestTopic && n < |ss|
       && l < |ss[n].log| && ss[n].log[l].PubAckQueued? && OnlyOn(ss[n].log, l, subject)) ==> Chained(ss[n].log, l)
  }

  function Sent(topic: string): Publish { Publish.Publish(topic, "", "", 1, 2, false) }

  function Reply(): string { Print(ReplyTopic("c", SessionID(2), 1, 2)) }

  lemma ReplyFacts()
    ensures ParseReplyTopic(Reply()) == Some(ReplyTopic("c", SessionID(2), 1, 2))
    ensures Topics.NatsMatches(Reply(), Reply())
  {
    var rt := ReplyTopic("c", SessionID(2), 1, 2);
    IDsAreNames(2);
    ReplyRoundTrip(rt);
    PartsOfPrint(rt);
    assert "" !in Parts(rt);
    var p, f, sid := Itoa(1), Itoa(2), SessionID(2);
    hide SessionID, Itoa, ParseReplyTopic;
    forall c | c in Print(rt) ensures c != '*' && c != '>' {
      assert c in "_INBOX." || c in "c" || c in sid || c in p || c in f;
    }
    Topics.LiteralPattern(Reply(), Reply());
  }

  /** A client connects. */
  ghost function Started(requestTopic: Option<string>): State { DoConnect(Init("srv", requestTopic), 0, "c", true) }

  lemma StartedInv(requestTopic: Option<string>)
    ensures var s := Started(requestTopic);
            && Inv(Init("srv", requestTopic)) && Inv(s) && HasConn(s, 0) && s.conns == map[0 := Conn(1, true, true)]
            && s.sessions[s.conns[0].session] == NewSession(SessionID(2), "c") && s.current == map["srv" := 0]["c" := 1]
            && s.log == [] && s.nats == NatsState(0, {}, []) && s.requestTopic == requestTopic
  {
    hide SessionID, Inv;
    InitInv("srv", requestTopic);
    assert ValidName("c");
    ConnectKeepsInv(Init("srv", requestTopic), 0, "c", true);
  }

  /** The step is taken in a state that keeps the invariant. */
  ghost predicate Takes(s: State, step: Step, t: State) { WellTyped(s) && Enabled(s, step) && t == Apply(s, step) }

  lemma TakesConnect(requestTopic: Option<string>)
    ensures Takes(Init("srv", requestTopic), Step.Connect(0, "c", true), Started(requestTopic))
  {
    hide SessionID, DoConnect, WellTyped, Inv;
    StartedInv(requestTopic);
    InvTyped(Init("srv", requestTopic));
  }

  lemma InvTyped(s: State)
    requires Inv(s)
    ensures WellTyped(s)
  {
  }

  /** It publishes. */
  ghost function Requested(requestTopic: Option<string>, topic: string): State
    requires !InInbox(topic)
  {
    StartedInv(requestTopic);
    DoPublish(Started(requestTopic), 0, Sent(topic), true, true)
  }

  lemma RequestedInv(requestTopic: Option<string>, topic: string)
    requires !InInbox(topic)
    ensures var s := Requested(requestTopic, topic);
            && Takes(Started(requestTopic), Step.Publish(0, Sent(topic), true, true), s)
            && Inv(s) && s.conns == map[0 := Conn(1, true, true)] && 1 in s.sessions && s.sessions[1].clientID == "c"
            && s.sessions[1].id == SessionID(2) && "c" in s.current && s.current["c"] == 1 && s.requestTopic == requestTopic
            && s.log == [Published("c", SessionID(2), 1, Reply(), SubjectOf(Sent(topic)))]
            && Sub(0, 0, Reply(), AckHandler) in s.nats.live && Msg(SubjectOf(Sent(topic)), Reply(), "") in s.nats.sent
  {
    hide SessionID, Inv, Print, Started, WellTyped;
    StartedInv(requestTopic);
    InvTyped(Started(requestTopic));
    PublishKeepsInv(Started(requestTopic), 0, Sent(topic), true, true);
  }

  /** The handler of retained requests answers. */
  ghost function Replied(requestTopic: Option<string>, topic: string): State
    requires !InInbox(topic)
  {
    var s := Requested(requestTopic, topic);
    Log(s.(nats := s.nats.Published(Msg(Reply(), "", ""))), [Answered(Reply(), SubjectOf(Sent(topic)))])
  }

  lemma RepliedInv(requestTopic: Option<string>, topic: string)
    requires !InInbox(topic) && ToHandler(requestTopic, SubjectOf(Sent(topic)))
    ensures var s, t := Requested(requestTopic, topic), Replied(requestTopic, topic);
            Takes(s, AnswerRetained(Msg(SubjectOf(Sent(topic)), Reply(), ""), ""), t) && Inv(t)
  {
    hide SessionID, Inv, Print, Requested, ToHandler, SubjectOf, WellTyped, ParseReplyTopic, Takes;
    RequestedInv(requestTopic, topic);
    ReplyFacts();
    EmptyIsNoReply();
    TakesAnswer(Requested(requestTopic, topic), Msg(SubjectOf(Sent(topic)), Reply(), ""));
    AnswerKeepsInv(Requested(requestTopic, topic), Msg(SubjectOf(Sent(topic)), Reply(), ""), "");
  }

  lemma TakesAnswer(s: State, m: Msg)
    requires Inv(s) && m in s.nats.sent && m.reply != "" && ToHandler(s.requestTopic, m.subject)
    ensures Takes(s, AnswerRetained(m, ""), Log(s.(nats := s.nats.Published(Msg(m.reply, "", ""))), [Answered(m.reply, m.subject)]))
  {
    hide Inv, WellTyped, ToHandler;
    InvTyped(s);
  }

  /** The answer arrives as the ack. */
  lemma TakesAck(requestTopic: Option<string>, topic: string) returns (t: State)
    requires !InInbox(topic) && ToHandler(requestTopic, SubjectOf(Sent(topic)))
    ensures var s := Replied(requestTopic, topic);
            && Takes(s, AckArrives(Sub(0, 0, Reply(), AckHandler), Msg(Reply(), "", "")), t)
            && t.log == s.log + [PubAckQueued("c", SessionID(2), 1)]
  {
    hide SessionID, Inv, Print, Requested, ToHandler, SubjectOf, WellTyped, ParseReplyTopic;
    RequestedInv(requestTopic, topic);
    RepliedInv(requestTopic, topic);
    ReplyFacts();
    InvTyped(Replied(requestTopic, topic));
    t := Apply(Replied(requestTopic, topic), AckArrives(Sub(0, 0, Reply(), AckHandler), Msg(Reply(), "", "")));
  }

  /**
   * A client connects, publishes at QoS 1 to a topic whose subject the request topic matches, and is acknowledged
   * though nobody has subscribed.
   */
  lemma AcknowledgedWithoutSubscriber(requestTopic: Option<string>, topic: string) returns (ss: seq<State>, steps: seq<Step>)
    requires !InInbox(topic) && ToHandler(requestTopic, SubjectOf(Sent(topic)))
    ensures |steps| == 4 && |ss| == 5 && IsRun(ss, steps) && ss[0].requestTopic == requestTopic
    ensures ss[4].log == [
      Published("c", SessionID(2), 1, Reply(), SubjectOf(Sent(topic))), Answered(Reply(), SubjectOf(Sent(topic))),
      PubAckQueued("c", SessionID(2), 1)]
  {
    hide Requested, Started, Replied, Inv, WellTyped, Enabled, Apply, Init, SessionID, SubjectOf, Sent, Reply, ToHandler, Takes;
    InitTopic(requestTopic);
    TakesConnect(requestTopic);
    RequestedInv(requestTopic, topic);
    RepliedInv(requestTopic, topic);
    ReplyLog(requestTopic, topic);
    var s4 := TakesAck(requestTopic, topic);
    ss, steps := FourSteps(Init("srv", requestTopic), Started(requestTopic), Requested(requestTopic, topic),
                           Replied(requestTopic, topic), s4, Step.Connect(0, "c", true),
                           Step.Publish(0, Sent(topic), true, true), AnswerRetained(Msg(SubjectOf(Sent(topic)), Reply(), ""), ""),
                           AckArrives(Sub(0, 0, Reply(), AckHandler), Msg(Reply(), "", "")));
    TakenIsRun(ss, steps, "srv");
  }

  lemma InitTopic(requestTopic: Option<string>)
    ensures Init("srv", requestTopic).requestTopic == requestTopic && ValidName("srv") && ValidName("c")
  {
  }

  lemma ReplyLog(requestTopic: Option<string>, topic: string)
    requires !InInbox(topic)
    ensures Replied(requestTopic, topic).log == Requested(requestTopic, topic).log + [Answered(Reply(), SubjectOf(Sent(topic)))]
  {
    hide Requested, Reply, SubjectOf;
  }

  lemma FourSteps(s0: State, s1: State, s2: State, s3: State, s4: State, a: Step, b: Step, c: Step, d: Step)
    returns (ss: seq<State>, steps: seq<Step>)
    requires Takes(s0, a, s1) && Takes(s1, b, s2) && Takes(s2, c, s3) && Takes(s3, d, s4)
    ensures |steps| == 4 && |ss| == 5 && ss[0] == s0 && ss[4] == s4
    ensures forall i :: 0 <= i < |steps| ==> Takes(ss[i], steps[i], ss[i + 1])
  {
    hide Takes;
    ss, steps := [s0, s1, s2, s3, s4], [a, b, c, d];
  }

  lemma TakenIsRun(ss: seq<State>, steps: seq<Step>, n: string)
    requires |ss| == |steps| + 1 && ValidName(n) && ss[0] == Init(n, ss[0].requestTopic)
    requires forall i :: 0 <= i < |steps| ==> Takes(ss[i], steps[i], ss[i + 1])
    ensures IsRun(ss, steps)
  {
    hide WellTyped, Enabled, Apply, Init, ValidName;
    forall i | 0 <= i < |steps|
      ensures WellTyped(ss[i]) && Enabled(ss[i], steps[i]) && ss[i + 1] == Apply(ss[i], steps[i])
    {
      assert Takes(ss[i], steps[i], ss[i + 1]);
    }
  }

  lemma SafeMeans(requestTopic: Option<string>, subject: string, ss: seq<State>, steps: seq<Step>, n: nat, l: nat)
    requires Safe(requestTopic, subject) && IsRun(ss, steps) && ss[0].requestTopic == requestTopic && n < |ss|
    requires l < |ss[n].log| && ss[n].log[l].PubAckQueued? && OnlyOn(ss[n].log, l, subject)
    ensures Chained(ss[n].log, l)
  {
  }

  /** A topic is safe exactly when the request topic does not match its subject, which can be checked before a publish. */
  lemma SafeExactlyOffTheRequestTopic(requestTopic: Option<string>, topic: string)
    requires !InInbox(topic)
    ensures var subject := Topics.Rewrite(Topics.TopicRune, topic);
            Safe(requestTopic, subject) <==> !ToHandler(requestTopic, subject)
  {
    var subject := Topics.Rewrite(Topics.TopicRune, topic);
    assert subject == SubjectOf(Sent(topic));
    hide ToHandler, SubjectOf, SessionID, WellTyped, Enabled, Apply, Init;
    if ToHandler(requestTopic, subject) {
      var ss, steps := AcknowledgedWithoutSubscriber(requestTopic, topic);
      var log := ss[4].log;
      assert OnlyOn(log, 2, subject);
      assert !Chained(log, 2);
      if Safe(requestTopic, subject) { SafeMeans(requestTopic, subject, ss, steps, 4, 2); }
    } else {
      forall ss: seq<State>, steps: seq<Step>, n: nat, l: nat |
        && IsRun(ss, steps) && ss[0].requestTopic == requestTopic && n < |ss|
        && l < |ss[n].log| && ss[n].log[l].PubAckQueued? && OnlyOn(ss[n].log, l, subject)
        ensures Chained(ss[n].log, l)
      {
        EndToEnd(ss, steps, n, l);
      }
    }
  }

  // ---- connections that share a client id

  /** The connection is open and its session is the current one of its client. */
  ghost predicate HoldsCurrent(s: State, c: nat)
    requires WellTyped(s)
  {
    HasConn(s, c) && var client := SessionOf(s, c).clientID; client in s.current && s.current[client] == s.conns[c].session
  }

  /**
   * Closing a connection takes the current session away from another one exactly when the closed one was clean and of
   * the same client id: Serve removes whatever session the id has by then.
   */
  lemma CloseTakesOthersSession(s: State, c: nat, clean: bool, d: nat)
    requires Inv(s) && HasConn(s, c) && d != c && HoldsCurrent(s, d)
    ensures WellTyped(DoClose(s, c, clean))
    ensures !HoldsCurrent(DoClose(s, c, clean), d) <==> clean && SessionOf(s, c).clientID == SessionOf(s, d).clientID
  {
    hide Inv, WellTyped, DoClose;
    CloseKeepsInv(s, c, clean);
    InvTyped(s);
    InvTyped(DoClose(s, c, clean));
    assert Apply(s, Close(c, clean)) == DoClose(s, c, clean);
    CloseEnds(s, c, clean);
    CurrentIsNamed(s, d);
  }

  lemma CurrentIsNamed(s: State, d: nat)
    requires WellTyped(s) && d in s.conns
    ensures s.conns[d].session in s.sessions
    ensures forall n :: n in s.current ==> s.current[n] in s.sessions && s.sessions[s.current[n]].clientID == n
  {
  }

  ghost function Again(requestTopic: Option<string>): State { DoConnect(Started(requestTopic), 1, "c", true) }

  lemma AgainInv(requestTopic: Option<string>)
    ensures var s := Again(requestTopic);
            && Takes(Started(requestTopic), Step.Connect(1, "c", true), s) && Inv(s) && WellTyped(s)
            && HasConn(s, 0) && HoldsCurrent(s, 1) && SessionOf(s, 0).clientID == SessionOf(s, 1).clientID
  {
    hide SessionID, Inv, Started, WellTyped, ValidName;
    StartedInv(requestTopic);
    InitTopic(requestTopic);
    InvTyped(Started(requestTopic));
    ConnectKeepsInv(Started(requestTopic), 1, "c", true);
    InvTyped(Again(requestTopic));
    AgainHolds(Started(requestTopic));
  }

  lemma AgainHolds(s: State)
    requires WellTyped(s) && s.conns == map[0 := Conn(1, true, true)] && SessionOf(s, 0).clientID == "c"
    requires WellTyped(DoConnect(s, 1, "c", true))
    ensures var t := DoConnect(s, 1, "c", true);
            HasConn(t, 0) && HoldsCurrent(t, 1) && SessionOf(t, 0).clientID == "c" == SessionOf(t, 1).clientID
  {
    assert 1 in s.sessions && 1 < s.nextRef;
    hide SessionID, WellTyped, ValidName;
  }

  /** A client connects a second time before the first connection has ended; that end removes the second one's session. */
  lemma SecondConnectionLosesItsSession(requestTopic: Option<string>) returns (ss: seq<State>, steps: seq<Step>)
    ensures |steps| == 3 && |ss| == 4 && IsRun(ss, steps) && ss[0].requestTopic == requestTopic
    ensures WellTyped(ss[2]) && HoldsCurrent(ss[2], 1)
    ensures WellTyped(ss[3]) && HasConn(ss[3], 1) && !HoldsCurrent(ss[3], 1)
  {
    var s := Again(requestTopic);
    hide Started, Again, Inv, WellTyped, Init, SessionID, HoldsCurrent;
    InitTopic(requestTopic);
    TakesConnect(requestTopic);
    AgainInv(requestTopic);
    CloseTakesOthersSession(s, 0, true, 1);
    var t := DoClose(s, 0, true);
    assert Takes(s, Close(0, true), t) && HasConn(t, 1) by { StillOpen(s); }
    ss, steps := [Init("srv", requestTopic), Started(requestTopic), s, t],
      [Step.Connect(0, "c", true), Step.Connect(1, "c", true), Close(0, true)];
    hide Takes, DoClose;
    TakenIsRun(ss, steps, "srv");
  }

  lemma StillOpen(s: State)
    requires Inv(s) && WellTyped(s) && HasConn(s, 0) && HoldsCurrent(s, 1)
    ensures HasConn(DoClose(s, 0, true), 1)
  {
    hide Inv, WellTyped;
  }
}
