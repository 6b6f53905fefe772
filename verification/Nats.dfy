// NATS as the bridge sees it: the live subscriptions and the messages that were published.
module Nats {
  import opened Basics

  /** What the bridge does with a message: see client.natsSubscribeAck and client.natsSubscribe. */
  datatype Handler = AckHandler | DataHandler(qos: u8)

  /** The sid tells subscriptions apart; conn is the client connection that made the subscription. */
  datatype Sub = Sub(sid: nat, conn: nat, subject: string, handler: Handler)

  function Subs(nss: seq<Sub>): set<Sub> { set s | s in nss }

  datatype Msg = Msg(subject: string, reply: string, data: bytes)

  datatype NatsState = NatsState(next: nat, live: set<Sub>, sent: seq<Msg>) {
    predicate Valid() { forall s :: s in live ==> s.sid < next }

    function Subscribed(conn: nat, subject: string, handler: Handler): (NatsState, Sub) {
      var sub := Sub(next, conn, subject, handler);
      (NatsState(next + 1, live + {sub}, sent), sub)
    }

    function Without(subs: set<Sub>): NatsState { NatsState(next, live - subs, sent) }

    function Published(m: Msg): NatsState { NatsState(next, live, sent + [m]) }
  }

  /** The outcome of each request is up to the NATS server: it is a parameter of the methods. */
  class NatsConn {
    var next: nat
    var live: set<Sub>
    var sent: seq<Msg>

    function State(): NatsState
      reads this
    {
      NatsState(next, live, sent)
    }

    method Subscribe(conn: nat, subject: string, handler: Handler, ok: bool) returns (r: Result<Sub, ()>)
      modifies this
      ensures r.Success? <==> ok
      ensures r.Success? ==> (State(), r.value) == old(State()).Subscribed(conn, subject, handler)
      ensures r.Failure? ==> State() == old(State())
    {
      if !ok { return Failure(()); }
      var sub := Sub(next, conn, subject, handler);
      next := next + 1;
      live := live + {sub};
      r := Success(sub);
    }

    method Unsubscribe(sub: Sub)
      modifies this
      ensures State() == old(State()).Without({sub})
    {
      live := live - {sub};
    }

    method Publish(m: Msg, ok: bool)
      modifies this
      ensures State() == if ok then old(State()).Published(m) else old(State())
    {
      if ok { sent := sent + [m]; }
    }
  }
}
