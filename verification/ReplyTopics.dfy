// bridge/replytopic.go: the reply subject that carries (client, session, packet id, flags) through NATS.
module ReplyTopics {
  import opened Basics
  import opened Strconv

  datatype ReplyTopic = ReplyTopic(clientID: string, sessionID: string, packetID: u16, flags: u8)

  function Parts(r: ReplyTopic): seq<string> {
    ["_INBOX", r.clientID, r.sessionID, Itoa(r.packetID), Itoa(r.flags)]
  }

  /** fmt.Sprintf("_INBOX.%s.%s.%d.%d", ...) */
  function Print(r: ReplyTopic): string {
    "_INBOX" + "." + r.clientID + "." + r.sessionID + "." + Itoa(r.packetID) + "." + Itoa(r.flags)
  }

  /** The numbers are read as int and then truncated to uint16 and byte. */
  function ParseReplyTopic(s: string): Option<ReplyTopic> {
    var ps := Split(s, '.');
    if |ps| == 5 && ps[0] == "_INBOX" then
      match (Atoi(ps[3]), Atoi(ps[4]))
      case (Some(p), Some(f)) => Some(ReplyTopic(ps[1], ps[2], p % 0x1_0000, f % 0x100))
      case _ => None
    else
      None
  }

  lemma EmptyIsNoReply()
    ensures ParseReplyTopic("") == None
  {
  }

  lemma PrintIsJoin(r: ReplyTopic)
    ensures Print(r) == Join(Parts(r), '.')
  {
    var ps := Parts(r);
    assert ps[1..][1..] == ps[2..] && ps[2..][1..] == ps[3..] && ps[3..][1..] == ps[4..];
    assert Join(ps[3..], '.') == ps[3] + "." + ps[4];
    assert Join(ps[2..], '.') == ps[2] + "." + Join(ps[3..], '.');
    assert Join(ps[1..], '.') == ps[1] + "." + Join(ps[2..], '.');
  }

  lemma PartsOfPrint(r: ReplyTopic)
    requires '.' !in r.clientID && '.' !in r.sessionID
    ensures Split(Print(r), '.') == Parts(r)
  {
    PrintIsJoin(r);
    forall p | p in Parts(r) ensures '.' !in p {
      assert !IsDigit('.');
    }
    SplitJoin(Parts(r), '.');
  }

  /** Parsing gives back the printed tuple exactly when neither name holds a dot. */
  lemma ReplyRoundTrip(r: ReplyTopic)
    ensures ParseReplyTopic(Print(r)) == Some(r) <==> '.' !in r.clientID && '.' !in r.sessionID
  {
    if '.' !in r.clientID && '.' !in r.sessionID {
      PartsOfPrint(r);
      AtoiItoa(r.packetID);
      AtoiItoa(r.flags);
    } else {
      PrintIsJoin(r);
      assert Parts(r)[1] == r.clientID && Parts(r)[2] == r.sessionID;
      SplitJoinLength(Parts(r), '.');
    }
  }

  /** Distinct tuples have distinct reply subjects. */
  lemma ReplyInjective(a: ReplyTopic, b: ReplyTopic)
    requires '.' !in a.clientID && '.' !in a.sessionID
    requires Print(a) == Print(b)
    requires '.' !in b.clientID && '.' !in b.sessionID
    ensures a == b
  {
    ReplyRoundTrip(a);
    ReplyRoundTrip(b);
  }

  /** The subject, part by part: prefix, client, session, packet id and flags, the numbers in decimal. */
  lemma ReplyFormat(clientID: string, sessionID: string, packetID: u16, flags: u8)
    ensures Print(ReplyTopic(clientID, sessionID, packetID, flags))
         == Join(["_INBOX", clientID, sessionID, Itoa(packetID), Itoa(flags)], '.')
    ensures Itoa(0) == "0" && Itoa(7) == "7" && Itoa(65535) == "65535"
  {
    PrintIsJoin(ReplyTopic(clientID, sessionID, packetID, flags));
    Decimals();
  }

  lemma Decimals()
    ensures Itoa(0) == "0" && Itoa(7) == "7" && Itoa(65535) == "65535"
  {
    assert Itoa(6) == "6" && Itoa(65) == "65" && Itoa(655) == "655" && Itoa(6553) == "6553";
  }
}
