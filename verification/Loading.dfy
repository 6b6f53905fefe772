// The UnmarshalFromJSON methods: each reads tokens from the decoder and fills in its receiver key by key.
module Loading {
  import opened Basics
  import opened Strconv
  import opened Json
  import opened Packets
  import opened Records
  import opened Sessions
  import opened IdManager
  import opened Retained
  import opened Persistence

  /** What a method returns and leaves to be read is what the specification says; it panics where that does. */
  predicate Agrees<T(==)>(ok: bool, x: T, rest: Tokens, spec: Read<T>) {
    match spec
    case Panic => !ok
    case Got(y, more) => ok && x == y && rest == more
  }

  lemma Shorter(ts: Tokens)
    ensures String(ts).Got? ==> |String(ts).rest| < |ts|
    ensures Int(ts).Got? ==> |Int(ts).rest| < |ts|
    ensures forall d :: Delim(ts, d).Got? ==> |Delim(ts, d).rest| < |ts|
  {
  }

  /** One turn of a loop over keys. */
  lemma Turn<T>(ts: Tokens, x: T, field: Field<T>)
    ensures match StringOrEnd(ts)
            case Panic => Fields(ts, x, field) == Panic
            case Got(None, rest) => Fields(ts, x, field) == Got(x, rest)
            case Got(Some(k), rest) =>
              match field(k, x, rest)
              case Panic => Fields(ts, x, field) == Panic
              case Got(y, more) => |more| <= |rest| ==> Fields(ts, x, field) == Fields(more, y, field)
  {
  }

  // ---- PUBLISH, credentials and tracked publishes

  method PublishKey(k: string, x: Publish, js: Decoder) returns (ok: bool, y: Publish)
    modifies js
    ensures (ok ==> |js.rest| <= |old(js.rest)|) && Agrees(ok, y, js.rest, PublishField(k, x, old(js.rest)))
  {
    Shorter(js.rest);
    hide String, Int, Decode64, IsInverse;
    y := x;
    var s, n;
    if k == "flags" {
      ok, n := js.ReadInt();
      if ok { y := x.(flags := n % 0x100); }
    } else if k == "id" {
      ok, n := js.ReadInt();
      if ok { y := x.(id := n % 0x1_0000); }
    } else if k == "name" {
      ok, s := js.ReadString();
      if ok { y := x.(name := s); }
    } else if k == "replyTo" {
      ok, s := js.ReadString();
      if ok { y := x.(replyTo := s); }
    } else if k == "payload" {
      ok, s := js.ReadString();
      if ok { y := x.(payload := s); }
    } else if k == "payloadEnc" {
      ok, s := js.ReadString();
      if !ok { return; }
      match Decode64(s)
      case None => ok := false;
      case Some(b) => y := x.(payload := b);
    } else {
      ok := true;
    }
  }

  method ReadPublish(js: Decoder) returns (ok: bool, r: Option<Publish>)
    modifies js
    ensures Agrees(ok, r, js.rest, Consumer(old(js.rest), NO_PUBLISH, PublishField))
  {
    hide Fields, PublishField;
    r := None;
    var isNull;
    ok, isNull := js.ReadObject();
    if !ok || isNull { return; }
    var x := NO_PUBLISH;
    ghost var start := js.rest;
    while true
      invariant Fields(js.rest, x, PublishField) == Fields(start, NO_PUBLISH, PublishField)
      decreases |js.rest|
    {
      Turn(js.rest, x, PublishField);
      var k;
      ok, k := js.ReadStringOrEnd();
      if !ok { return; }
      if k.None? { return true, Some(x); }
      ok, x := PublishKey(k.value, x, js);
      if !ok { return; }
    }
  }

  method CredentialsKey(k: string, x: Credentials, js: Decoder) returns (ok: bool, y: Credentials)
    modifies js
    ensures (ok ==> |js.rest| <= |old(js.rest)|) && Agrees(ok, y, js.rest, CredentialsField(k, x, old(js.rest)))
  {
    Shorter(js.rest);
    hide String, Decode64, IsInverse;
    y := x;
    var s;
    if k == "u" {
      ok, s := js.ReadString();
      if ok { y := x.(user := s); }
    } else if k == "p" {
      ok, s := js.ReadString();
      if !ok { return; }
      match Decode64(s)
      case None => ok := false;
      case Some(b) => y := x.(password := Some(b));
    } else {
      ok := true;
    }
  }

  method ReadCredentials(js: Decoder) returns (ok: bool, r: Option<Credentials>)
    modifies js
    ensures Agrees(ok, r, js.rest, Consumer(old(js.rest), NO_CREDENTIALS, CredentialsField))
  {
    hide Fields, CredentialsField;
    r := None;
    var isNull;
    ok, isNull := js.ReadObject();
    if !ok || isNull { return; }
    var x := NO_CREDENTIALS;
    ghost var start := js.rest;
    while true
      invariant Fields(js.rest, x, CredentialsField) == Fields(start, NO_CREDENTIALS, CredentialsField)
      decreases |js.rest|
    {
      Turn(js.rest, x, CredentialsField);
      var k;
      ok, k := js.ReadStringOrEnd();
      if !ok { return; }
      if k.None? { return true, Some(x); }
      ok, x := CredentialsKey(k.value, x, js);
      if !ok { return; }
    }
  }

  method NatsPubKey(k: string, x: NatsPub, js: Decoder) returns (ok: bool, y: NatsPub)
    modifies js
    ensures (ok ==> |js.rest| <= |old(js.rest)|) && Agrees(ok, y, js.rest, NatsPubField(k, x, old(js.rest)))
  {
    Shorter(js.rest);
    hide Fields, PublishField, CredentialsField;
    y := x;
    if k == "m" {
      var pp;
      ok, pp := ReadPublish(js);
      if ok { y := x.(pp := pp); }
    } else if k == "c" {
      var c;
      ok, c := ReadCredentials(js);
      if ok { y := x.(creds := c); }
    } else {
      ok := true;
    }
  }

  method ReadNatsPub(js: Decoder) returns (ok: bool, r: Option<NatsPub>)
    modifies js
    ensures Agrees(ok, r, js.rest, Consumer(old(js.rest), NO_NATS_PUB, NatsPubField))
  {
    hide Fields, NatsPubField;
    r := None;
    var isNull;
    ok, isNull := js.ReadObject();
    if !ok || isNull { return; }
    var x := NO_NATS_PUB;
    ghost var start := js.rest;
    while true
      invariant Fields(js.rest, x, NatsPubField) == Fields(start, NO_NATS_PUB, NatsPubField)
      decreases |js.rest|
    {
      Turn(js.rest, x, NatsPubField);
      var k;
      ok, k := js.ReadStringOrEnd();
      if !ok { return; }
      if k.None? { return true, Some(x); }
      ok, x := NatsPubKey(k.value, x, js);
      if !ok { return; }
    }
  }

  // ---- sessions

  method ReadAcks(start: map<u16, string>, js: Decoder) returns (ok: bool, x: map<u16, string>)
    modifies js
    ensures Agrees(ok, x, js.rest, Fields(old(js.rest), start, AckField))
  {
    hide Fields, String, Atoi;
    x := start;
    while true
      invariant Fields(js.rest, x, AckField) == Fields(old(js.rest), start, AckField)
      decreases |js.rest|
    {
      Turn(js.rest, x, AckField);
      var k;
      ok, k := js.ReadStringOrEnd();
      if !ok || k.None? { return; }
      var i := Atoi(k.value);
      if i.None? { return false, x; }
      Shorter(js.rest);
      var s;
      ok, s := js.ReadString();
      if !ok { return; }
      x := x[i.value % 0x1_0000 := s];
    }
  }

  method ReadClientAcks(start: map<u16, Publish>, js: Decoder) returns (ok: bool, x: map<u16, Publish>)
    modifies js
    ensures Agrees(ok, x, js.rest, Fields(old(js.rest), start, ClientAckField))
  {
    hide Fields, PublishField, Atoi;
    x := start;
    while true
      invariant Fields(js.rest, x, ClientAckField) == Fields(old(js.rest), start, ClientAckField)
      decreases |js.rest|
    {
      Turn(js.rest, x, ClientAckField);
      var k;
      ok, k := js.ReadStringOrEnd();
      if !ok || k.None? { return; }
      var i := Atoi(k.value);
      if i.None? { return false, x; }
      var pp;
      ok, pp := ReadPublish(js);
      if !ok { return; }
      if pp.Some? {
        x := x[i.value % 0x1_0000 := pp.value];
      }
    }
  }

  method SessionKey(k: string, x: SessionState, js: Decoder) returns (ok: bool, y: SessionState)
    modifies js
    ensures (ok ==> |js.rest| <= |old(js.rest)|) && Agrees(ok, y, js.rest, SessionField(k, x, old(js.rest)))
  {
    Shorter(js.rest);
    hide String, Int, Delim, Fields, AckField, ClientAckField;
    y := x;
    var s;
    if k == "id" {
      ok, s := js.ReadString();
      if ok { y := x.(id := s); }
    } else if k == "cid" {
      ok, s := js.ReadString();
      if ok { y := x.(clientID := s); }
    } else if k == "awAck" {
      ok := js.ReadDelim(Begin);
      if ok {
        var m;
        ok, m := ReadAcks(x.prelAwaitsAck, js);
        if ok { y := x.(prelAwaitsAck := m); }
      }
    } else if k == "awClientAck" {
      ok := js.ReadDelim(Begin);
      if ok {
        var m;
        ok, m := ReadClientAcks(x.awaitsClientAck, js);
        if ok { y := x.(awaitsClientAck := m); }
      }
    } else {
      ok := true;
    }
  }

  method ReadSession(js: Decoder) returns (ok: bool, r: Option<SessionState>)
    modifies js
    ensures Agrees(ok, r, js.rest, Consumer(old(js.rest), NO_SESSION, SessionField))
  {
    hide Fields, SessionField;
    r := None;
    var isNull;
    ok, isNull := js.ReadObject();
    if !ok || isNull { return; }
    var x := NO_SESSION;
    ghost var start := js.rest;
    while true
      invariant Fields(js.rest, x, SessionField) == Fields(start, NO_SESSION, SessionField)
      decreases |js.rest|
    {
      Turn(js.rest, x, SessionField);
      var k;
      ok, k := js.ReadStringOrEnd();
      if !ok { return; }
      if k.None? { return true, Some(x); }
      ok, x := SessionKey(k.value, x, js);
      if !ok { return; }
    }
  }

  // ---- the receivers that are updated in place

  method ReadInFlight(s: IDManager, js: Decoder) returns (ok: bool)
    modifies s, js
    ensures Agrees(ok, s.inFlight, js.rest, Nums(old(js.rest), old(s.inFlight)))
    ensures s.nextFreePkgID == old(s.nextFreePkgID)
  {
    while true
      invariant Nums(js.rest, s.inFlight) == Nums(old(js.rest), old(s.inFlight))
      invariant s.nextFreePkgID == old(s.nextFreePkgID)
      decreases |js.rest|
    {
      var i;
      ok, i := js.ReadIntOrEnd();
      if !ok || i.None? { return; }
      s.inFlight := s.inFlight + {i.value % 0x1_0000};
    }
  }

  method IDManagerKey(k: string, s: IDManager, js: Decoder) returns (ok: bool)
    modifies s, js
    ensures (ok ==> |js.rest| <= |old(js.rest)|) && Agrees(ok, s.State(), js.rest, IdsField(k, old(s.State()), old(js.rest)))
  {
    Shorter(js.rest);
    hide Int, Delim, Nums;
    if k == "next" {
      var n;
      ok, n := js.ReadInt();
      if ok { s.nextFreePkgID := n % 0x1_0000; }
    } else if k == "inFlight" {
      ok := js.ReadDelim(BeginList);
      if ok { ok := ReadInFlight(s, js); }
    } else {
      ok := true;
    }
  }

  /** Null leaves the manager as it is; an object that names no cursor leaves the cursor. */
  method ReadIDManager(s: IDManager, js: Decoder) returns (ok: bool)
    modifies s, js
    ensures match Consumer(old(js.rest), Ids(old(s.nextFreePkgID), {}), IdsField)
            case Panic => !ok
            case Got(v, more) => ok && js.rest == more && s.State() == if v.Some? then v.value else old(s.State())
  {
    hide Fields, IdsField;
    var isNull;
    ok, isNull := js.ReadObject();
    if !ok || isNull { return; }
    s.inFlight := {};
    ghost var start, zero := js.rest, s.State();
    while true
      invariant Fields(js.rest, s.State(), IdsField) == Fields(start, zero, IdsField)
      decreases |js.rest|
    {
      Turn(js.rest, s.State(), IdsField);
      var k;
      ok, k := js.ReadStringOrEnd();
      if !ok || k.None? { return; }
      ok := IDManagerKey(k.value, s, js);
      if !ok { return; }
    }
  }

  method ReadRetained(r: RetainedMessages, js: Decoder) returns (ok: bool)
    modifies r, js
    ensures match Consumer(old(js.rest), Store(map[], []), RetainedField)
            case Panic => !ok
            case Got(v, more) => ok && js.rest == more && r.State() == if v.Some? then v.value else old(r.State())
  {
    hide Fields, PublishField;
    var isNull;
    ok, isNull := js.ReadObject();
    if !ok || isNull { return; }
    r.msgs, r.order := map[], [];
    ghost var start := js.rest;
    while true
      invariant Fields(js.rest, r.State(), RetainedField) == Fields(start, Store(map[], []), RetainedField)
      decreases |js.rest|
    {
      Turn(js.rest, r.State(), RetainedField);
      var k;
      ok, k := js.ReadStringOrEnd();
      if !ok || k.None? { return; }
      var p;
      ok, p := ReadPublish(js);
      if !ok { return; }
      r.msgs := r.msgs[k.value := if p.Some? then p.value else NO_PUBLISH];
      r.order := r.order + [k.value];
    }
  }

  ghost function States(m: map<string, Session>): map<string, SessionState>
    reads m.Values
  {
    map k | k in m :: m[k].State()
  }

  ghost function Own(s: Session?): Option<SessionState>
    reads if s == null then {} else {s}
  {
    if s == null then None else Some(s.State())
  }

  ghost function ManagerState(s: SessionManager): Manager
    reads s, s.m.Values
  {
    Manager(s.seed, States(s.m))
  }

  lemma StatesPut(m: map<string, Session>, k: string, s: Session)
    ensures States(m[k := s]) == States(m)[k := s.State()]
  {
  }

  lemma StatesAt(m: map<string, Session>, id: string)
    ensures (id in States(m) <==> id in m) && (id in m ==> States(m)[id] == m[id].State())
  {
  }

  /** Every loaded session is a new object. */
  method PutSession(s: SessionManager, k: string, v: SessionState)
    modifies s
    ensures States(s.m) == old(States(s.m))[k := v] && s.seed == old(s.seed)
  {
    hide States;
    var ss := new Session.Loaded(v);
    StatesPut(s.m, k, ss);
    s.m := s.m[k := ss];
  }

  method ReadSessions(s: SessionManager, js: Decoder) returns (ok: bool)
    modifies s, js
    ensures Agrees(ok, States(s.m), js.rest, Fields(old(js.rest), old(States(s.m)), SessionEntry))
    ensures s.seed == old(s.seed)
  {
    hide Fields, SessionField, States;
    while true
      invariant Fields(js.rest, States(s.m), SessionEntry) == Fields(old(js.rest), old(States(s.m)), SessionEntry)
      invariant s.seed == old(s.seed)
      decreases |js.rest|
    {
      Turn(js.rest, States(s.m), SessionEntry);
      var k;
      ok, k := js.ReadStringOrEnd();
      if !ok || k.None? { return; }
      var v;
      ok, v := ReadSession(js);
      if !ok { return; }
      PutSession(s, k.value, if v.Some? then v.value else NO_SESSION);
    }
  }

  method ManagerKey(k: string, s: SessionManager, js: Decoder) returns (ok: bool)
    modifies s, js
    ensures ok ==> |js.rest| <= |old(js.rest)|
    ensures Agrees(ok, ManagerState(s), js.rest, ManagerField(k, old(ManagerState(s)), old(js.rest)))
  {
    Shorter(js.rest);
    hide Int, Delim, Fields, SessionEntry;
    if k == "sessions" {
      ok := js.ReadDelim(Begin);
      if ok { ok := ReadSessions(s, js); }
    } else if k == "seed" {
      var n;
      ok, n := js.ReadInt();
      if ok { s.seed := n % SEEDS; }
    } else {
      ok := true;
    }
  }

  method ReadManager(s: SessionManager, js: Decoder) returns (ok: bool)
    modifies s, js
    ensures match Consumer(old(js.rest), old(ManagerState(s)), ManagerField)
            case Panic => !ok
            case Got(v, more) => ok && js.rest == more && ManagerState(s) == if v.Some? then v.value else old(ManagerState(s))
  {
    hide Fields, ManagerField;
    var isNull;
    ok, isNull := js.ReadObject();
    if !ok || isNull { return; }
    ghost var start := js.rest;
    while true
      invariant Fields(js.rest, ManagerState(s), ManagerField) == Fields(start, old(ManagerState(s)), ManagerField)
      decreases |js.rest|
    {
      Turn(js.rest, ManagerState(s), ManagerField);
      var k;
      ok, k := js.ReadStringOrEnd();
      if !ok || k.None? { return; }
      ok := ManagerKey(k.value, s, js);
      if !ok { return; }
    }
  }

  /** server.UnmarshalFromJSON fills in the server's parts, and looks its own session up among the loaded ones. */
  class BridgeServer {
    const idm: IDManager
    const sm: SessionManager
    const retained: RetainedMessages
    var pubAcks: map<u16, NatsPub>
    var session: Session?

    ghost function State(): Server
      reads this, idm, sm, sm.m.Values, retained, if session == null then {} else {session}
    {
      Server(idm.State(), ManagerState(sm), retained.State(), pubAcks, Own(session))
    }

    constructor (idm: IDManager, sm: SessionManager, retained: RetainedMessages, session: Session)
      ensures this.idm == idm && this.sm == sm && this.retained == retained
      ensures pubAcks == map[] && this.session == session
    {
      this.idm, this.sm, this.retained := idm, sm, retained;
      this.pubAcks, this.session := map[], session;
    }

    method ReadPubAcks(js: Decoder) returns (ok: bool, tracks: map<u16, NatsPub>)
      modifies js
      ensures Agrees(ok, tracks, js.rest, Pubs(old(js.rest), map[]))
    {
      hide NatsPubField, Fields, Consumer;
      tracks := map[];
      while true
        invariant Pubs(js.rest, tracks) == Pubs(old(js.rest), map[])
        decreases |js.rest|
      {
        var end := js.AtEnd();
        if end { return true, tracks; }
        var np;
        ok, np := ReadNatsPub(js);
        if !ok { return; }
        if np.Some? {
          if np.value.pp.None? { return false, tracks; }
          tracks := tracks[np.value.pp.value.id := np.value];
        }
      }
    }

    method ReadPubAcksList(js: Decoder, tracks: map<u16, NatsPub>) returns (ok: bool, tracks': map<u16, NatsPub>)
      modifies js
      ensures ok ==> |js.rest| <= |old(js.rest)|
      ensures Agrees(ok, tracks', js.rest, PubAcksValue(old(js.rest)))
    {
      Shorter(js.rest);
      hide Delim, Pubs;
      tracks' := tracks;
      ok := js.ReadDelim(BeginList);
      if ok { ok, tracks' := ReadPubAcks(js); }
    }

    method LoadIdm(js: Decoder) returns (ok: bool)
      modifies idm, js
      ensures match Consumer(old(js.rest), Ids(old(State()).ids.next, {}), IdsField)
              case Panic => !ok
              case Got(v, more) =>
                && ok && js.rest == more
                && State() == old(State()).(ids := if v.Some? then v.value else old(State()).ids)
    {
      hide Fields, Consumer, IdsField, States;
      ok := ReadIDManager(idm, js);
    }

    method LoadSm(js: Decoder) returns (ok: bool)
      modifies sm, js
      ensures match Consumer(old(js.rest), old(State()).sm, ManagerField)
              case Panic => !ok
              case Got(v, more) =>
                && ok && js.rest == more
                && State() == old(State()).(sm := if v.Some? then v.value else old(State()).sm)
    {
      hide Fields, Consumer, ManagerField, States;
      ok := ReadManager(sm, js);
    }

    method LoadRetained(js: Decoder) returns (ok: bool)
      modifies retained, js
      ensures match Consumer(old(js.rest), Store(map[], []), RetainedField)
              case Panic => !ok
              case Got(v, more) =>
                && ok && js.rest == more
                && State() == old(State()).(retained := if v.Some? then v.value else old(State()).retained)
    {
      hide Fields, Consumer, RetainedField, States;
      ok := ReadRetained(retained, js);
    }

    /** The keys whose values are parts of the server. */
    method PartKey(k: string, js: Decoder, ghost id: string, ghost tracks: map<u16, NatsPub>) returns (ok: bool)
      requires k != "id" && k != "pubacks"
      modifies idm, sm, retained, js
      ensures ok ==> |js.rest| <= |old(js.rest)|
      ensures Agrees(ok, Partial(State(), id, tracks), js.rest,
                     ServerField(k, Partial(old(State()), id, tracks), old(js.rest)))
    {
      hide String, PubAcksValue, Fields, Consumer, IsInverse, State, IdsField, ManagerField, RetainedField;
      ok := true;
      if k == "idm" {
        ok := LoadIdm(js);
      } else if k == "sm" {
        ok := LoadSm(js);
      } else if k == "retained" {
        ok := LoadRetained(js);
      }
    }

    method ServerKey(k: string, js: Decoder, id: string, tracks: map<u16, NatsPub>)
      returns (ok: bool, id': string, tracks': map<u16, NatsPub>)
      modifies idm, sm, retained, js
      ensures ok ==> |js.rest| <= |old(js.rest)|
      ensures Agrees(ok, Partial(State(), id', tracks'), js.rest,
                     ServerField(k, Partial(old(State()), id, tracks), old(js.rest)))
    {
      Shorter(js.rest);
      hide String, PubAcksValue, Fields, Consumer, IsInverse, State, IdsField, ManagerField, RetainedField;
      id', tracks' := id, tracks;
      if k == "id" {
        ok, id' := js.ReadString();
      } else if k == "pubacks" {
        ok, tracks' := ReadPubAcksList(js, tracks);
      } else {
        hide ServerField;
        ok := PartKey(k, js, id, tracks);
      }
    }

    method ReadKeys(js: Decoder) returns (ok: bool, id: string, tracks: map<u16, NatsPub>)
      modifies idm, sm, retained, js
      ensures Agrees(ok, Partial(State(), id, tracks), js.rest,
                     Fields(old(js.rest), Partial(old(State()), "", map[]), ServerField))
    {
      hide Fields, ServerField, State;
      id, tracks := "", map[];
      while true
        invariant Fields(js.rest, Partial(State(), id, tracks), ServerField)
               == Fields(old(js.rest), Partial(old(State()), "", map[]), ServerField)
        decreases |js.rest|
      {
        Turn(js.rest, Partial(State(), id, tracks), ServerField);
        var k;
        ok, k := js.ReadStringOrEnd();
        if !ok || k.None? { return; }
        ok, id, tracks := ServerKey(k.value, js, id, tracks);
        if !ok { return; }
      }
    }

    method Finish(id: string, tracks: map<u16, NatsPub>)
      modifies this
      ensures State() == Finished(Partial(old(State()), id, tracks))
    {
      hide States;
      StatesAt(sm.m, id);
      if id != "" { session := sm.Get(id); }
      if |tracks| > 0 { pubAcks := tracks; }
      assert |tracks| > 0 <==> tracks != map[];
    }

    method UnmarshalFromJSON(js: Decoder) returns (ok: bool)
      modifies this, idm, sm, retained, js
      ensures Agrees(ok, State(), js.rest, Load(old(js.rest), old(State())))
    {
      hide Fields, ServerField, State, Finished;
      var isNull;
      ok, isNull := js.ReadObject();
      if !ok || isNull { return; }
      var id, tracks;
      ok, id, tracks := ReadKeys(js);
      if ok { Finish(id, tracks); }
    }
  }
}
