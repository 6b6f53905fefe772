// bridge/session.go: what a session remembers, and the manager that hands sessions out.
module Sessions {
  import opened Basics
  import opened Strconv
  import opened Packets
  import opened Nats

  datatype SessionState = SessionState(
    id: string,
    clientID: string,
    prelAwaitsAck: map<u16, string>,
    awaitsAck: map<u16, Sub>,
    awaitsClientAck: map<u16, Publish>)
  {
    function AckRequested(packetID: u16, sb: Sub): SessionState {
      this.(awaitsAck := awaitsAck[packetID := sb])
    }

    /** Forget the awaited ack, if there is one. */
    function AckReceived(packetID: u16): SessionState {
      this.(awaitsAck := awaitsAck - {packetID})
    }

    /** The subscriptions that AckReceived returns, for the caller to cancel. */
    function AckSubs(packetID: u16): set<Sub> {
      if packetID in awaitsAck then {awaitsAck[packetID]} else {}
    }

    function ClientAckRequested(pp: Publish): SessionState {
      this.(awaitsClientAck := awaitsClientAck[pp.id := pp])
    }

    function ClientAckReceived(packetID: u16): SessionState {
      this.(awaitsClientAck := awaitsClientAck - {packetID})
    }

    function Destroyed(): SessionState { this.(awaitsAck := map[]) }

    /** What is left of a session when it was saved and loaded: subscriptions are remembered by subject only. */
    function Reloaded(): SessionState {
      SessionState(id, clientID, map k | k in awaitsAck :: awaitsAck[k].subject, map[], awaitsClientAck)
    }
  }

  function NewSession(id: string, clientID: string): SessionState {
    SessionState(id, clientID, map[], map[], map[])
  }

  class Session {
    const id: string
    const clientID: string
    var prelAwaitsAck: map<u16, string>
    var awaitsAck: map<u16, Sub>
    var awaitsClientAck: map<u16, Publish>

    function State(): SessionState
      reads this
    {
      SessionState(id, clientID, prelAwaitsAck, awaitsAck, awaitsClientAck)
    }

    constructor (id: string, clientID: string)
      ensures State() == NewSession(id, clientID)
    {
      this.id := id;
      this.clientID := clientID;
      prelAwaitsAck, awaitsAck, awaitsClientAck := map[], map[], map[];
    }

    /** A session that was read from the state file. */
    constructor Loaded(s: SessionState)
      ensures State() == s
    {
      id := s.id;
      clientID := s.clientID;
      prelAwaitsAck, awaitsAck, awaitsClientAck := s.prelAwaitsAck, s.awaitsAck, s.awaitsClientAck;
    }

    method AckRequested(packetID: u16, sb: Sub)
      modifies this
      ensures State() == old(State()).AckRequested(packetID, sb)
    {
      awaitsAck := awaitsAck[packetID := sb];
    }

    method AwaitsAck(packetID: u16) returns (awaits: bool)
      ensures awaits <==> packetID in State().awaitsAck
    {
      awaits := packetID in awaitsAck;
    }

    method AckReceived(packetID: u16) returns (nss: seq<Sub>)
      modifies this
      ensures State() == old(State()).AckReceived(packetID)
      ensures Subs(nss) == old(State()).AckSubs(packetID)
    {
      nss := [];
      if packetID in awaitsAck {
        nss := nss + [awaitsAck[packetID]];
        awaitsAck := awaitsAck - {packetID};
      }
      assert awaitsAck == old(awaitsAck) - {packetID};
    }

    method ClientAckRequested(pp: Publish)
      modifies this
      ensures State() == old(State()).ClientAckRequested(pp)
    {
      awaitsClientAck := awaitsClientAck[pp.id := pp];
    }

    /** Forwards the client's ack to the reply subject; NATS refuses an empty subject, and that error is dropped. */
    method ClientAckReceived(packetID: u16, c: NatsConn, ok: bool) returns (found: bool)
      modifies this, c
      ensures State() == old(State()).ClientAckReceived(packetID)
      ensures found <==> packetID in old(awaitsClientAck)
      ensures c.State() ==
              if found && old(awaitsClientAck)[packetID].replyTo != "" && ok
              then old(c.State()).Published(Msg(old(awaitsClientAck)[packetID].replyTo, "", [0 as char]))
              else old(c.State())
    {
      found := packetID in awaitsClientAck;
      if found {
        var pp := awaitsClientAck[packetID];
        awaitsClientAck := awaitsClientAck - {packetID};
        if pp.replyTo != "" {
          c.Publish(Msg(pp.replyTo, "", [0 as char]), ok);
        }
      }
      assert awaitsClientAck == old(awaitsClientAck) - {packetID};
    }

    /** Every awaited ack's subscription is cancelled. */
    method Destroy(nats: NatsConn)
      modifies this, nats
      ensures State() == old(State()).Destroyed()
      ensures nats.State() == old(nats.State()).Without(old(awaitsAck.Values))
    {
      var todo := awaitsAck.Keys;
      ghost var done: set<Sub> := {};
      while todo != {}
        invariant todo <= awaitsAck.Keys && awaitsAck == old(awaitsAck)
        invariant prelAwaitsAck == old(prelAwaitsAck) && awaitsClientAck == old(awaitsClientAck)
        invariant done == set k | k in awaitsAck.Keys - todo :: awaitsAck[k]
        invariant nats.State() == old(nats.State()).Without(done)
      {
        var k :| k in todo;
        nats.Unsubscribe(awaitsAck[k]);
        todo := todo - {k};
        done := done + {awaitsAck[k]};
      }
      assert done == awaitsAck.Values;
      awaitsAck := map[];
    }
  }

  const SEEDS: nat := 0x1_0000_0000

  function SessionID(seed: nat): string { "s" + Itoa(seed) }

  class SessionManager {
    var seed: nat
    var m: map<string, Session>

    ghost predicate Valid()
      reads this
    {
      seed < SEEDS
    }

    constructor ()
      ensures Valid() && seed == 0 && m == map[]
    {
      seed := 0;
      m := map[];
    }

    method Get(clientID: string) returns (s: Session?)
      ensures if clientID in m then s == m[clientID] else s == null
    {
      s := if clientID in m then m[clientID] else null;
    }

    /** The 32-bit seed wraps around; any previous session of the client is dropped from the map, not destroyed. */
    method Create(clientID: string) returns (s: Session)
      requires Valid()
      modifies this
      ensures Valid() && seed == (old(seed) + 1) % SEEDS
      ensures fresh(s) && s.State() == NewSession(SessionID(seed), clientID)
      ensures m == old(m)[clientID := s]
    {
      seed := (seed + 1) % SEEDS;
      s := new Session(SessionID(seed), clientID);
      m := m[clientID := s];
    }

    method Remove(clientID: string, nats: NatsConn)
      modifies this, nats, if clientID in m then {m[clientID]} else {}
      ensures m == old(m) - {clientID} && seed == old(seed)
      ensures clientID in old(m) ==>
                && old(m)[clientID].State() == old(m[clientID].State()).Destroyed()
                && nats.State() == old(nats.State()).Without(old(m[clientID].awaitsAck.Values))
      ensures clientID !in old(m) ==> nats.State() == old(nats.State())
    {
      if clientID in m {
        var s := m[clientID];
        m := m - {clientID};
        s.Destroy(nats);
      }
      assert m == old(m) - {clientID};
    }
  }

  /** Within 2^32 creations no session id comes twice. */
  lemma SessionIDsDistinct(a: nat, b: nat)
    requires SessionID(a) == SessionID(b)
    ensures a == b
  {
    assert Itoa(a) == SessionID(a)[1..] && Itoa(b) == SessionID(b)[1..];
    ItoaInjective(a, b);
  }
}
