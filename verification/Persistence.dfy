/**
 * The state file: what the server saves of its id manager, its sessions, its retained messages and its tracked
 * publishes, and what a server makes of that when it loads it. Maps are saved in the order of an iteration.
 */
module Persistence {
  import opened Basics
  import opened Strconv
  import opened Json
  import opened Packets
  import opened Records
  import opened Nats
  import opened Sessions
  import opened IdManager
  import opened Retained

  // ---- maps and their iterations

  /** An iteration visits every key once. */
  ghost predicate Iterates<K(!new)>(order: seq<K>, keys: set<K>) {
    && (forall k :: k in order <==> k in keys)
    && (forall i, j :: 0 <= i < j < |order| ==> order[i] != order[j])
  }

  /** The entries of m for the keys in order, set one after the other. */
  function Put<K, V>(acc: map<K, V>, order: seq<K>, m: map<K, V>): map<K, V>
    requires forall k :: k in order ==> k in m
    decreases |order|
  {
    if order == [] then acc else Put(acc[order[0] := m[order[0]]], order[1..], m)
  }

  lemma {:induction false} PutAll<K, V>(acc: map<K, V>, order: seq<K>, m: map<K, V>)
    requires forall k :: k in order ==> k in m
    ensures Put(acc, order, m).Keys == acc.Keys + set k | k in order
    ensures forall k :: k in order ==> Put(acc, order, m)[k] == m[k]
    ensures forall k :: k in acc && k !in order ==> Put(acc, order, m)[k] == acc[k]
    decreases |order|
  {
    if order != [] {
      PutAll(acc[order[0] := m[order[0]]], order[1..], m);
    }
  }

  lemma PutIterated<K(!new), V>(acc: map<K, V>, order: seq<K>, m: map<K, V>)
    requires Iterates(order, m.Keys)
    ensures Put(acc, order, m) == acc + m
  {
    PutAll(acc, order, m);
  }

  // ---- the id manager

  function Elements(order: seq<u16>): set<u16> { set id | id in order }

  function NumsJson(ids: seq<u16>, more: Tokens): Tokens {
    if ids == [] then more else [Num(ids[0])] + NumsJson(ids[1..], more)
  }

  function InFlightField(order: seq<u16>, more: Tokens): Tokens {
    if order == [] then more else [Str("inFlight")] + ([BeginList] + NumsJson(order, [EndList] + more))
  }

  function IdsJson(next: u16, order: seq<u16>, more: Tokens): Tokens {
    [Begin] + ([Str("next")] + ([Num(next)] + InFlightField(order, [End] + more)))
  }

  /** The numbers up to the end of the list. */
  function Nums(ts: Tokens, acc: set<u16>): (r: Read<set<u16>>)
    ensures r.Got? ==> |r.rest| < |ts|
  {
    if ts == [] then Panic
    else if ts[0] == EndList then Got(acc, ts[1..])
    else if ts[0].Num? then Nums(ts[1..], acc + {ts[0].n % 0x1_0000})
    else Panic
  }

  function IdsField(k: string, s: Ids, ts: Tokens): Read<Ids> {
    if k == "next" then
      match Int(ts) case Panic => Panic case Got(n, rest) => Got(s.(next := n % 0x1_0000), rest)
    else if k == "inFlight" then
      match Delim(ts, BeginList)
      case Panic => Panic
      case Got(_, rest) =>
        (match Nums(rest, s.inFlight) case Panic => Panic case Got(ids, after) => Got(s.(inFlight := ids), after))
    else Got(s, ts)
  }

  lemma {:induction false} NumsRoundTrip(order: seq<u16>, acc: set<u16>, more: Tokens)
    ensures Nums(NumsJson(order, [EndList] + more), acc) == Got(acc + Elements(order), more)
  {
    if order == [] {
      assert ([EndList] + more)[1..] == more && acc + Elements(order) == acc;
    } else {
      var ts := NumsJson(order[1..], [EndList] + more);
      assert ([Num(order[0])] + ts)[1..] == ts;
      NumsRoundTrip(order[1..], acc + {order[0]}, more);
      assert order == [order[0]] + order[1..];
      assert (acc + {order[0]}) + Elements(order[1..]) == acc + Elements(order);
    }
  }

  lemma NextKey(s: Ids, next: u16, more: Tokens)
    ensures IdsField("next", s, [Num(next)] + more) == Got(s.(next := next), more)
  {
    hide Int;
    Reads("", next, more);
    assert next % 0x1_0000 == next;
  }

  lemma InFlightKey(s: Ids, order: seq<u16>, more: Tokens)
    ensures IdsField("inFlight", s, [BeginList] + NumsJson(order, [EndList] + more))
         == Got(s.(inFlight := s.inFlight + Elements(order)), more)
  {
    hide Nums, NumsJson, Delim;
    assert "inFlight" != "next";
    ReadsDelim(BeginList, NumsJson(order, [EndList] + more));
    NumsRoundTrip(order, s.inFlight, more);
  }

  lemma NumsLonger(order: seq<u16>, more: Tokens)
    ensures |NumsJson(order, more)| == |order| + |more|
  {
  }

  /** UnmarshalFromJSON starts with nothing in flight. */
  lemma IdsRoundTrip(s: Ids, order: seq<u16>, cursor: u16, more: Tokens)
    requires Iterates(order, s.inFlight)
    ensures Consumer(IdsJson(s.next, order, more), Ids(cursor, {}), IdsField) == Got(Some(s), more)
  {
    hide Fields, Consumer, IdsField;
    var s1 := Ids(s.next, {});
    var t2 := [End] + more;
    var t1 := InFlightField(order, t2);
    NextKey(Ids(cursor, {}), s.next, t1);
    OneField("next", [Num(s.next)] + t1, Ids(cursor, {}), IdsField, s1, t1);
    assert {} + Elements(order) == Elements(order) == s.inFlight;
    if order != [] {
      InFlightKey(s1, order, t2);
      NumsLonger(order, [EndList] + t2);
      OneField("inFlight", [BeginList] + NumsJson(order, [EndList] + t2), s1, IdsField, s, t2);
    } else {
      assert s1.inFlight == s.inFlight;
    }
    NoField(more, s, IdsField);
    OneObject([Str("next")] + ([Num(s.next)] + t1), Ids(cursor, {}), IdsField, s, more);
  }

  // ---- retained messages

  function RetainedEntries(msgs: map<string, Publish>, order: seq<string>, more: Tokens): Tokens
    requires forall t :: t in order ==> t in msgs
    decreases |order|
  {
    if order == [] then more
    else [Str(order[0])] + PublishJson(msgs[order[0]], RetainedEntries(msgs, order[1..], more))
  }

  function RetainedJson(s: Store, more: Tokens): Tokens
    requires s.Valid()
  {
    [Begin] + RetainedEntries(s.msgs, s.order, [End] + more)
  }

  /** Every key is a topic. */
  function RetainedField(k: string, s: Store, ts: Tokens): Read<Store> {
    match Consumer(ts, NO_PUBLISH, PublishField)
    case Panic => Panic
    case Got(p, rest) => Got(Store(s.msgs[k := if p.Some? then p.value else NO_PUBLISH], s.order + [k]), rest)
  }

  function UnmarkedMsgs<K>(msgs: map<K, Publish>): map<K, Publish> { map k | k in msgs :: Unmarked(msgs[k]) }

  lemma RetainedKey(t: string, p: Publish, acc: Store, more: Tokens)
    ensures |more| < |PublishJson(p, more)|
    ensures RetainedField(t, acc, PublishJson(p, more)) == Got(Store(acc.msgs[t := Unmarked(p)], acc.order + [t]), more)
  {
    hide Consumer, PublishJson;
    PublishRoundTrip(p, more);
    ConsumerShortens(PublishJson(p, more), NO_PUBLISH, PublishField);
  }

  lemma {:induction false} RetainedEntriesRoundTrip(msgs: map<string, Publish>, order: seq<string>, acc: Store, more: Tokens)
    requires forall t :: t in order ==> t in msgs
    ensures Fields(RetainedEntries(msgs, order, [End] + more), acc, RetainedField)
         == Got(Store(Put(acc.msgs, order, UnmarkedMsgs(msgs)), acc.order + order), more)
    decreases |order|
  {
    hide Fields, Consumer, PublishJson, RetainedField, Unmarked;
    if order == [] {
      NoField(more, acc, RetainedField);
      assert acc.order + order == acc.order;
    } else {
      var t := order[0];
      var ts := RetainedEntries(msgs, order[1..], [End] + more);
      var acc' := Store(acc.msgs[t := Unmarked(msgs[t])], acc.order + [t]);
      RetainedKey(t, msgs[t], acc, ts);
      OneField(t, PublishJson(msgs[t], ts), acc, RetainedField, acc', ts);
      RetainedEntriesRoundTrip(msgs, order[1..], acc', more);
      assert acc.order + order == acc.order + [t] + order[1..];
    }
  }

  lemma ConsumerShortens<T>(ts: Tokens, zero: T, field: Field<T>)
    requires Consumer(ts, zero, field).Got?
    ensures |Consumer(ts, zero, field).rest| < |ts|
  {
  }

  lemma RetainedRoundTrip(s: Store, more: Tokens)
    requires s.Valid()
    ensures Consumer(RetainedJson(s, more), Store(map[], []), RetainedField)
         == Got(Some(Store(UnmarkedMsgs(s.msgs), s.order)), more)
  {
    hide Fields, Consumer, RetainedField, RetainedEntries;
    RetainedEntriesRoundTrip(s.msgs, s.order, Store(map[], []), more);
    PutIterated(map[], s.order, UnmarkedMsgs(s.msgs));
    assert map[] + UnmarkedMsgs(s.msgs) == UnmarkedMsgs(s.msgs) && [] + s.order == s.order;
    OneObject(RetainedEntries(s.msgs, s.order, [End] + more), Store(map[], []), RetainedField,
              Store(UnmarkedMsgs(s.msgs), s.order), more);
  }

  // ---- sessions

  /** How the two maps of a session are iterated over. */
  datatype SessionOrder = SessionOrder(acks: seq<u16>, clientAcks: seq<u16>)

  ghost predicate IteratesSession(o: SessionOrder, s: SessionState) {
    Iterates(o.acks, s.awaitsAck.Keys) && Iterates(o.clientAcks, s.awaitsClientAck.Keys)
  }

  function Subjects(subs: map<u16, Sub>): map<u16, string> { map k | k in subs :: subs[k].subject }

  function AckEntries(order: seq<u16>, subjects: map<u16, string>, more: Tokens): Tokens
    requires forall k :: k in order ==> k in subjects
  {
    if order == [] then more
    else [Str(Itoa(order[0]))] + ([Str(subjects[order[0]])] + AckEntries(order[1..], subjects, more))
  }

  function ClientAckEntries(order: seq<u16>, unack: map<u16, Publish>, more: Tokens): Tokens
    requires forall k :: k in order ==> k in unack
  {
    if order == [] then more
    else [Str(Itoa(order[0]))] + PublishJson(unack[order[0]], ClientAckEntries(order[1..], unack, more))
  }

  function AcksField(order: seq<u16>, subjects: map<u16, string>, more: Tokens): Tokens
    requires forall k :: k in order ==> k in subjects
  {
    if order == [] then more else [Str("awAck")] + ([Begin] + AckEntries(order, subjects, [End] + more))
  }

  function ClientAcksField(order: seq<u16>, unack: map<u16, Publish>, more: Tokens): Tokens
    requires forall k :: k in order ==> k in unack
  {
    if order == [] then more else [Str("awClientAck")] + ([Begin] + ClientAckEntries(order, unack, [End] + more))
  }

  function SessionJson(s: SessionState, o: SessionOrder, more: Tokens): Tokens
    requires IteratesSession(o, s)
  {
    [Begin] + ([Str("id")] + ([Str(s.id)] + ([Str("cid")] + ([Str(s.clientID)] +
    AcksField(o.acks, Subjects(s.awaitsAck), ClientAcksField(o.clientAcks, s.awaitsClientAck, [End] + more))))))
  }

  function AckField(k: string, prel: map<u16, string>, ts: Tokens): Read<map<u16, string>> {
    match Atoi(k)
    case None => Panic
    case Some(i) => (match String(ts) case Panic => Panic case Got(s, rest) => Got(prel[i % 0x1_0000 := s], rest))
  }

  function ClientAckField(k: string, unack: map<u16, Publish>, ts: Tokens): Read<map<u16, Publish>> {
    match Atoi(k)
    case None => Panic
    case Some(i) =>
      match Consumer(ts, NO_PUBLISH, PublishField)
      case Panic => Panic
      case Got(p, rest) => Got(if p.Some? then unack[i % 0x1_0000 := p.value] else unack, rest)
  }

  /** Loaded subjects wait to be subscribed to again. */
  function SessionField(k: string, s: SessionState, ts: Tokens): Read<SessionState> {
    if k == "id" then
      match String(ts) case Panic => Panic case Got(id, rest) => Got(s.(id := id), rest)
    else if k == "cid" then
      match String(ts) case Panic => Panic case Got(id, rest) => Got(s.(clientID := id), rest)
    else if k == "awAck" then
      match Delim(ts, Begin)
      case Panic => Panic
      case Got(_, rest) =>
        (match Fields(rest, s.prelAwaitsAck, AckField)
         case Panic => Panic
         case Got(m, after) => Got(s.(prelAwaitsAck := m), after))
    else if k == "awClientAck" then
      match Delim(ts, Begin)
      case Panic => Panic
      case Got(_, rest) =>
        (match Fields(rest, s.awaitsClientAck, ClientAckField)
         case Panic => Panic
         case Got(m, after) => Got(s.(awaitsClientAck := m), after))
    else Got(s, ts)
  }

  const NO_SESSION := SessionState("", "", map[], map[], map[])

  lemma AckKey(id: u16, subject: string, acc: map<u16, string>, more: Tokens)
    ensures AckField(Itoa(id), acc, [Str(subject)] + more) == Got(acc[id := subject], more)
  {
    hide String, Atoi, Itoa;
    AtoiItoa(id);
    Reads(subject, 0, more);
    assert id % 0x1_0000 == id;
  }

  lemma {:induction false} AckEntriesRoundTrip(order: seq<u16>, subjects: map<u16, string>, acc: map<u16, string>, more: Tokens)
    requires forall k :: k in order ==> k in subjects
    ensures Fields(AckEntries(order, subjects, [End] + more), acc, AckField) == Got(Put(acc, order, subjects), more)
    decreases |order|
  {
    hide Fields, AckField, Itoa;
    if order == [] {
      NoField(more, acc, AckField);
    } else {
      var k := order[0];
      var ts := AckEntries(order[1..], subjects, [End] + more);
      AckKey(k, subjects[k], acc, ts);
      OneField(Itoa(k), [Str(subjects[k])] + ts, acc, AckField, acc[k := subjects[k]], ts);
      AckEntriesRoundTrip(order[1..], subjects, acc[k := subjects[k]], more);
    }
  }

  lemma ClientAckKey(id: u16, p: Publish, acc: map<u16, Publish>, more: Tokens)
    ensures |more| < |PublishJson(p, more)|
    ensures ClientAckField(Itoa(id), acc, PublishJson(p, more)) == Got(acc[id := Unmarked(p)], more)
  {
    hide Consumer, PublishJson, Atoi, Itoa, Unmarked, PublishField;
    AtoiItoa(id);
    PublishRoundTrip(p, more);
    ConsumerShortens(PublishJson(p, more), NO_PUBLISH, PublishField);
    assert id % 0x1_0000 == id;
  }

  lemma {:induction false} ClientAckEntriesRoundTrip(order: seq<u16>, unack: map<u16, Publish>, acc: map<u16, Publish>, more: Tokens)
    requires forall k :: k in order ==> k in unack
    ensures Fields(ClientAckEntries(order, unack, [End] + more), acc, ClientAckField)
         == Got(Put(acc, order, UnmarkedMsgs(unack)), more)
    decreases |order|
  {
    hide Fields, ClientAckField, Itoa, PublishJson, Unmarked;
    if order == [] {
      NoField(more, acc, ClientAckField);
    } else {
      var k := order[0];
      var ts := ClientAckEntries(order[1..], unack, [End] + more);
      ClientAckKey(k, unack[k], acc, ts);
      OneField(Itoa(k), PublishJson(unack[k], ts), acc, ClientAckField, acc[k := Unmarked(unack[k])], ts);
      ClientAckEntriesRoundTrip(order[1..], unack, acc[k := Unmarked(unack[k])], more);
    }
  }

  lemma NameKeys(s: SessionState, v: string, more: Tokens)
    ensures SessionField("id", s, [Str(v)] + more) == Got(s.(id := v), more)
    ensures SessionField("cid", s, [Str(v)] + more) == Got(s.(clientID := v), more)
  {
    hide String, Fields, Delim;
    Reads(v, 0, more);
  }

  lemma AwAckKey(s: SessionState, order: seq<u16>, subjects: map<u16, string>, more: Tokens)
    requires Iterates(order, subjects.Keys)
    ensures var ts := AckEntries(order, subjects, [End] + more);
            |more| <= |ts| && SessionField("awAck", s, [Begin] + ts) == Got(s.(prelAwaitsAck := s.prelAwaitsAck + subjects), more)
  {
    hide String, Fields, AckEntries, Delim;
    var ts := AckEntries(order, subjects, [End] + more);
    ReadsDelim(Begin, ts);
    AckEntriesRoundTrip(order, subjects, s.prelAwaitsAck, more);
    PutIterated(s.prelAwaitsAck, order, subjects);
    FieldsShorten(ts, s.prelAwaitsAck, AckField);
  }

  lemma FieldsShorten<T>(ts: Tokens, x: T, field: Field<T>)
    requires Fields(ts, x, field).Got?
    ensures |Fields(ts, x, field).rest| < |ts|
  {
  }

  lemma AwClientAckKey(s: SessionState, order: seq<u16>, unack: map<u16, Publish>, more: Tokens)
    requires Iterates(order, unack.Keys)
    ensures var ts := ClientAckEntries(order, unack, [End] + more);
            && |more| <= |ts|
            && SessionField("awClientAck", s, [Begin] + ts)
               == Got(s.(awaitsClientAck := s.awaitsClientAck + UnmarkedMsgs(unack)), more)
  {
    hide String, Fields, ClientAckEntries, Delim;
    var ts := ClientAckEntries(order, unack, [End] + more);
    ReadsDelim(Begin, ts);
    ClientAckEntriesRoundTrip(order, unack, s.awaitsClientAck, more);
    PutIterated(s.awaitsClientAck, order, UnmarkedMsgs(unack));
    FieldsShorten(ts, s.awaitsClientAck, ClientAckField);
  }

  function UnmarkedSession(s: SessionState): SessionState { s.(awaitsClientAck := UnmarkedMsgs(s.awaitsClientAck)) }

  lemma AcksRoundTrip(s: SessionState, order: seq<u16>, subjects: map<u16, string>, more: Tokens)
    requires Iterates(order, subjects.Keys) && s.prelAwaitsAck == map[]
    ensures Fields(AcksField(order, subjects, more), s, SessionField) == Fields(more, s.(prelAwaitsAck := subjects), SessionField)
  {
    hide Fields, SessionField, AckEntries;
    if order == [] {
      assert subjects == map[];
    } else {
      AwAckKey(s, order, subjects, more);
      assert map[] + subjects == subjects;
      var ts := [Begin] + AckEntries(order, subjects, [End] + more);
      OneField("awAck", ts, s, SessionField, s.(prelAwaitsAck := subjects), more);
    }
  }

  lemma ClientAcksRoundTrip(s: SessionState, order: seq<u16>, unack: map<u16, Publish>, more: Tokens)
    requires Iterates(order, unack.Keys) && s.awaitsClientAck == map[]
    ensures Fields(ClientAcksField(order, unack, more), s, SessionField)
         == Fields(more, s.(awaitsClientAck := UnmarkedMsgs(unack)), SessionField)
  {
    hide Fields, SessionField, ClientAckEntries;
    if order == [] {
      assert UnmarkedMsgs(unack) == map[];
    } else {
      AwClientAckKey(s, order, unack, more);
      assert map[] + UnmarkedMsgs(unack) == UnmarkedMsgs(unack);
      var ts := [Begin] + ClientAckEntries(order, unack, [End] + more);
      OneField("awClientAck", ts, s, SessionField, s.(awaitsClientAck := UnmarkedMsgs(unack)), more);
    }
  }

  /** What is loaded is the reloaded session: awaited acks come back as subjects, client acks as they were. */
  lemma SessionRoundTrip(s: SessionState, o: SessionOrder, more: Tokens)
    requires IteratesSession(o, s)
    ensures Consumer(SessionJson(s, o, more), NO_SESSION, SessionField) == Got(Some(UnmarkedSession(s.Reloaded())), more)
  {
    hide Fields, Consumer, SessionField, AckEntries, ClientAckEntries, AcksField, ClientAcksField;
    var s1 := NO_SESSION.(id := s.id);
    var s2 := s1.(clientID := s.clientID);
    var s3 := s2.(prelAwaitsAck := Subjects(s.awaitsAck));
    var s4 := s3.(awaitsClientAck := UnmarkedMsgs(s.awaitsClientAck));
    var t4 := ClientAcksField(o.clientAcks, s.awaitsClientAck, [End] + more);
    var t3 := AcksField(o.acks, Subjects(s.awaitsAck), t4);
    var t2 := [Str("cid")] + ([Str(s.clientID)] + t3);
    NameKeys(NO_SESSION, s.id, t2);
    OneField("id", [Str(s.id)] + t2, NO_SESSION, SessionField, s1, t2);
    NameKeys(s1, s.clientID, t3);
    OneField("cid", [Str(s.clientID)] + t3, s1, SessionField, s2, t3);
    AcksRoundTrip(s2, o.acks, Subjects(s.awaitsAck), t4);
    ClientAcksRoundTrip(s3, o.clientAcks, s.awaitsClientAck, [End] + more);
    NoField(more, s4, SessionField);
    assert s4 == UnmarkedSession(s.Reloaded());
    OneObject([Str("id")] + ([Str(s.id)] + t2), NO_SESSION, SessionField, s4, more);
  }

  // ---- the session manager

  datatype Manager = Manager(seed: nat, m: map<string, SessionState>)

  ghost predicate IteratesSessions(order: seq<string>, orders: map<string, SessionOrder>, m: map<string, SessionState>) {
    forall k :: k in order ==> k in m && k in orders && IteratesSession(orders[k], m[k])
  }

  function SessionEntries(order: seq<string>, orders: map<string, SessionOrder>, m: map<string, SessionState>, more: Tokens)
    : Tokens
    requires IteratesSessions(order, orders, m)
  {
    if order == [] then more
    else
      var k := order[0];
      [Str(k)] + SessionJson(m[k], orders[k], SessionEntries(order[1..], orders, m, more))
  }

  function SessionsField(order: seq<string>, orders: map<string, SessionOrder>, m: map<string, SessionState>, more: Tokens)
    : Tokens
    requires IteratesSessions(order, orders, m)
  {
    if order == [] then more else [Str("sessions")] + ([Begin] + SessionEntries(order, orders, m, [End] + more))
  }

  function ManagerJson(s: Manager, order: seq<string>, orders: map<string, SessionOrder>, more: Tokens): Tokens
    requires IteratesSessions(order, orders, s.m)
  {
    [Begin] + ([Str("seed")] + ([Num(s.seed)] + SessionsField(order, orders, s.m, [End] + more)))
  }

  /** Every key is a client id; the value becomes its session even if it is null. */
  function SessionEntry(k: string, m: map<string, SessionState>, ts: Tokens): Read<map<string, SessionState>> {
    match Consumer(ts, NO_SESSION, SessionField)
    case Panic => Panic
    case Got(s, rest) => Got(m[k := if s.Some? then s.value else NO_SESSION], rest)
  }

  function ManagerField(k: string, s: Manager, ts: Tokens): Read<Manager> {
    if k == "sessions" then
      match Delim(ts, Begin)
      case Panic => Panic
      case Got(_, rest) =>
        (match Fields(rest, s.m, SessionEntry) case Panic => Panic case Got(m, after) => Got(s.(m := m), after))
    else if k == "seed" then
      match Int(ts) case Panic => Panic case Got(n, rest) => Got(s.(seed := n % SEEDS), rest)
    else Got(s, ts)
  }

  function ReloadedSessions(m: map<string, SessionState>): map<string, SessionState> {
    map k | k in m :: UnmarkedSession(m[k].Reloaded())
  }

  lemma SessionKey(k: string, s: SessionState, o: SessionOrder, acc: map<string, SessionState>, more: Tokens)
    requires IteratesSession(o, s)
    ensures |more| < |SessionJson(s, o, more)|
    ensures SessionEntry(k, acc, SessionJson(s, o, more)) == Got(acc[k := UnmarkedSession(s.Reloaded())], more)
  {
    hide Consumer, SessionJson, UnmarkedSession;
    SessionRoundTrip(s, o, more);
    ConsumerShortens(SessionJson(s, o, more), NO_SESSION, SessionField);
  }

  lemma {:induction false} SessionEntriesRoundTrip(order: seq<string>, orders: map<string, SessionOrder>,
      m: map<string, SessionState>, acc: map<string, SessionState>, more: Tokens)
    requires IteratesSessions(order, orders, m)
    ensures Fields(SessionEntries(order, orders, m, [End] + more), acc, SessionEntry)
         == Got(Put(acc, order, ReloadedSessions(m)), more)
    decreases |order|
  {
    hide Fields, SessionEntry, SessionJson, UnmarkedSession;
    if order == [] {
      NoField(more, acc, SessionEntry);
    } else {
      var k := order[0];
      var ts := SessionEntries(order[1..], orders, m, [End] + more);
      var acc' := acc[k := UnmarkedSession(m[k].Reloaded())];
      SessionKey(k, m[k], orders[k], acc, ts);
      OneField(k, SessionJson(m[k], orders[k], ts), acc, SessionEntry, acc', ts);
      SessionEntriesRoundTrip(order[1..], orders, m, acc', more);
    }
  }

  lemma SeedKey(s: Manager, seed: nat, more: Tokens)
    requires seed < SEEDS
    ensures ManagerField("seed", s, [Num(seed)] + more) == Got(s.(seed := seed), more)
  {
    hide Int, Fields, Delim;
    assert "seed" != "sessions";
    Reads("", seed, more);
    assert seed % SEEDS == seed;
  }

  lemma SessionsAreRead(s: Manager, ts: Tokens, m: map<string, SessionState>, more: Tokens)
    requires Fields(ts, s.m, SessionEntry) == Got(m, more)
    ensures |more| <= |ts| && ManagerField("sessions", s, [Begin] + ts) == Got(s.(m := m), more)
  {
    hide Int, Fields, SessionEntry, Delim;
    ReadsDelim(Begin, ts);
    FieldsShorten(ts, s.m, SessionEntry);
  }

  lemma SessionsKey(s: Manager, order: seq<string>, orders: map<string, SessionOrder>, m: map<string, SessionState>, more: Tokens)
    requires Iterates(order, m.Keys) && IteratesSessions(order, orders, m)
    ensures var ts := SessionEntries(order, orders, m, [End] + more);
            |more| <= |ts| && ManagerField("sessions", s, [Begin] + ts) == Got(s.(m := s.m + ReloadedSessions(m)), more)
  {
    hide Int, Fields, SessionEntries, UnmarkedSession, IteratesSessions, ManagerField;
    var ts := SessionEntries(order, orders, m, [End] + more);
    SessionEntriesRoundTrip(order, orders, m, s.m, more);
    PutIterated(s.m, order, ReloadedSessions(m));
    SessionsAreRead(s, ts, s.m + ReloadedSessions(m), more);
  }

  /** Sessions are loaded on top of what is there. */
  lemma ManagerRoundTrip(s: Manager, base: Manager, order: seq<string>, orders: map<string, SessionOrder>, more: Tokens)
    requires s.seed < SEEDS && Iterates(order, s.m.Keys) && IteratesSessions(order, orders, s.m)
    ensures Consumer(ManagerJson(s, order, orders, more), base, ManagerField)
         == Got(Some(Manager(s.seed, base.m + ReloadedSessions(s.m))), more)
  {
    hide Fields, Consumer, ManagerField, SessionEntries, UnmarkedSession, IteratesSessions;
    var s1 := base.(seed := s.seed);
    var s2 := s1.(m := base.m + ReloadedSessions(s.m));
    var t2 := [End] + more;
    var t1 := SessionsField(order, orders, s.m, t2);
    SeedKey(base, s.seed, t1);
    OneField("seed", [Num(s.seed)] + t1, base, ManagerField, s1, t1);
    if order == [] {
      assert ReloadedSessions(s.m) == map[];
      assert s1.m == s2.m;
    } else {
      SessionsKey(s1, order, orders, s.m, t2);
      OneField("sessions", [Begin] + SessionEntries(order, orders, s.m, [End] + t2), s1, ManagerField, s2, t2);
    }
    NoField(more, s2, ManagerField);
    OneObject([Str("seed")] + ([Num(s.seed)] + t1), base, ManagerField, s2, more);
  }

  // ---- tracked publishes

  function PubEntries(order: seq<u16>, pubs: map<u16, NatsPub>, more: Tokens): Tokens
    requires forall k :: k in order ==> k in pubs && pubs[k].pp.Some?
  {
    if order == [] then more else NatsPubJson(pubs[order[0]], PubEntries(order[1..], pubs, more))
  }

  /** The list up to its end: null is skipped, and a tracked publish is filed under its own packet id. */
  function Pubs(ts: Tokens, acc: map<u16, NatsPub>): (r: Read<map<u16, NatsPub>>)
    ensures r.Got? ==> |r.rest| < |ts|
    decreases |ts|
  {
    if ts == [] then Panic
    else if ts[0] == EndList then Got(acc, ts[1..])
    else
      match Consumer(ts, NO_NATS_PUB, NatsPubField)
      case Panic => Panic
      case Got(None, rest) => Pubs(rest, acc)
      case Got(Some(n), rest) => if n.pp.None? then Panic else Pubs(rest, acc[n.pp.value.id := n])
  }

  /** trackAckReceived files every publish under its id. */
  predicate Tracked(pubs: map<u16, NatsPub>) {
    forall k :: k in pubs ==> pubs[k].pp.Some? && pubs[k].pp.value.id == k
  }

  function UnmarkedPubs(pubs: map<u16, NatsPub>): map<u16, NatsPub>
    requires Tracked(pubs)
  {
    map k | k in pubs :: UnmarkedPub(pubs[k])
  }

  lemma PubStarts(n: NatsPub, more: Tokens)
    requires n.pp.Some?
    ensures NatsPubJson(n, more) != [] && NatsPubJson(n, more)[0] == Begin
  {
    hide PublishJson, CredsField;
  }

  lemma OnePub(n: NatsPub, acc: map<u16, NatsPub>, more: Tokens)
    requires n.pp.Some?
    ensures Pubs(NatsPubJson(n, more), acc) == Pubs(more, acc[n.pp.value.id := UnmarkedPub(n)])
  {
    hide Consumer, NatsPubField, NatsPubJson;
    NatsPubRoundTrip(n, more);
    PubStarts(n, more);
  }

  lemma {:induction false} PubEntriesRoundTrip(order: seq<u16>, pubs: map<u16, NatsPub>, acc: map<u16, NatsPub>, more: Tokens)
    requires Tracked(pubs) && forall k :: k in order ==> k in pubs
    ensures Pubs(PubEntries(order, pubs, [EndList] + more), acc) == Got(Put(acc, order, UnmarkedPubs(pubs)), more)
    decreases |order|
  {
    hide NatsPubJson, UnmarkedPub;
    if order == [] {
      assert ([EndList] + more)[1..] == more;
    } else {
      var k := order[0];
      hide Pubs;
      OnePub(pubs[k], acc, PubEntries(order[1..], pubs, [EndList] + more));
      PubEntriesRoundTrip(order[1..], pubs, acc[k := UnmarkedPub(pubs[k])], more);
    }
  }

  // ---- the server

  /** own is the server's own session, None where the source holds nil. Whoever connects under its id may have replaced it. */
  datatype Server = Server(ids: Ids, sm: Manager, retained: Store, pubAcks: map<u16, NatsPub>, own: Option<SessionState>) {
    ghost predicate Valid() {
      && sm.seed < SEEDS && retained.Valid() && Tracked(pubAcks)
      && own.Some? && own.value.clientID != "" && own.value.clientID in sm.m
    }
  }

  datatype Iteration = Iteration(
    inFlight: seq<u16>, sessions: seq<string>, session: map<string, SessionOrder>, pubAcks: seq<u16>)

  ghost predicate IteratesServer(o: Iteration, s: Server) {
    && Iterates(o.inFlight, s.ids.inFlight)
    && Iterates(o.sessions, s.sm.m.Keys) && IteratesSessions(o.sessions, o.session, s.sm.m)
    && Iterates(o.pubAcks, s.pubAcks.Keys)
  }

  function RetainedPart(s: Store, more: Tokens): Tokens
    requires s.Valid()
  {
    if s.order == [] then more else [Str("retained")] + RetainedJson(s, more)
  }

  function PubAcksPart(order: seq<u16>, pubs: map<u16, NatsPub>, more: Tokens): Tokens
    requires Tracked(pubs) && forall k :: k in order ==> k in pubs
  {
    if order == [] then more else [Str("pubacks")] + ([BeginList] + PubEntries(order, pubs, [EndList] + more))
  }

  function ServerJson(s: Server, ts: string, o: Iteration, more: Tokens): Tokens
    requires s.Valid() && IteratesServer(o, s)
  {
    [Begin] + ([Str("ts")] + ([Str(ts)] + ([Str("id")] + ([Str(s.own.value.clientID)] +
    ([Str("idm")] + IdsJson(s.ids.next, o.inFlight,
    [Str("sm")] + ManagerJson(s.sm, o.sessions, o.session,
    RetainedPart(s.retained, PubAcksPart(o.pubAcks, s.pubAcks, [End] + more)))))))))
  }

  /** A server that is being loaded, with the two local variables of UnmarshalFromJSON. */
  datatype Partial = Partial(server: Server, id: string, tracks: map<u16, NatsPub>)

  function PubAcksValue(ts: Tokens): Read<map<u16, NatsPub>> {
    match Delim(ts, BeginList) case Panic => Panic case Got(_, rest) => Pubs(rest, map[])
  }

  /** There is no case for "ts": neither it nor its value is looked at. */
  function ServerField(k: string, l: Partial, ts: Tokens): Read<Partial> {
    var s := l.server;
    if k == "id" then
      match String(ts) case Panic => Panic case Got(id, rest) => Got(l.(id := id), rest)
    else if k == "idm" then
      match Consumer(ts, Ids(s.ids.next, {}), IdsField)
      case Panic => Panic
      case Got(ids, rest) => Got(l.(server := s.(ids := if ids.Some? then ids.value else s.ids)), rest)
    else if k == "sm" then
      match Consumer(ts, s.sm, ManagerField)
      case Panic => Panic
      case Got(sm, rest) => Got(l.(server := s.(sm := if sm.Some? then sm.value else s.sm)), rest)
    else if k == "retained" then
      match Consumer(ts, Store(map[], []), RetainedField)
      case Panic => Panic
      case Got(r, rest) => Got(l.(server := s.(retained := if r.Some? then r.value else s.retained)), rest)
    else if k == "pubacks" then
      match PubAcksValue(ts) case Panic => Panic case Got(tracks, rest) => Got(l.(tracks := tracks), rest)
    else Got(l, ts)
  }

  function Finished(l: Partial): Server {
    var s := l.server;
    s.(own := if l.id == "" then s.own else if l.id in s.sm.m then Some(s.sm.m[l.id]) else None,
       pubAcks := if l.tracks == map[] then s.pubAcks else l.tracks)
  }

  function Load(ts: Tokens, base: Server): Read<Server> {
    match Consumer(ts, Partial(base, "", map[]), ServerField)
    case Panic => Panic
    case Got(None, rest) => Got(base, rest)
    case Got(Some(l), rest) => Got(Finished(l), rest)
  }

  /** What base becomes when the saved s is loaded into it: what was empty was not saved and is left as it is in base. */
  function LoadedInto(base: Server, s: Server): Server
    requires s.Valid()
  {
    Server(s.ids, Manager(s.sm.seed, base.sm.m + ReloadedSessions(s.sm.m)),
           if s.retained.order == [] then base.retained else Store(UnmarkedMsgs(s.retained.msgs), s.retained.order),
           if s.pubAcks == map[] then base.pubAcks else UnmarkedPubs(s.pubAcks),
           Some(UnmarkedSession(s.sm.m[s.own.value.clientID].Reloaded())))
  }

  predicate IsKey(k: string) { k in {"id", "idm", "sm", "retained", "pubacks"} }

  lemma NotAKey(k: string, l: Partial, more: Tokens)
    requires !IsKey(k)
    ensures ServerField(k, l, more) == Got(l, more)
  {
    hide Consumer, Pubs;
  }

  /** Both the key "ts" and its string value are read as keys, and skipped. */
  lemma TimestampSkipped(ts: string, l: Partial, more: Tokens)
    requires !IsKey(ts)
    ensures Fields([Str("ts")] + ([Str(ts)] + more), l, ServerField) == Fields(more, l, ServerField)
  {
    hide Fields, ServerField;
    NotAKey("ts", l, [Str(ts)] + more);
    OneField("ts", [Str(ts)] + more, l, ServerField, l, [Str(ts)] + more);
    NotAKey(ts, l, more);
    OneField(ts, more, l, ServerField, l, more);
  }

  lemma ServerIdKey(l: Partial, id: string, more: Tokens)
    ensures Fields([Str("id")] + ([Str(id)] + more), l, ServerField) == Fields(more, l.(id := id), ServerField)
  {
    hide Fields, Consumer, Pubs, String;
    Reads(id, 0, more);
    OneField("id", [Str(id)] + more, l, ServerField, l.(id := id), more);
  }

  lemma IdmKey(l: Partial, ids: Ids, order: seq<u16>, more: Tokens)
    requires Iterates(order, ids.inFlight)
    ensures Fields([Str("idm")] + IdsJson(ids.next, order, more), l, ServerField)
         == Fields(more, l.(server := l.server.(ids := ids)), ServerField)
  {
    hide Fields, Consumer, Pubs, IdsJson;
    var ts := IdsJson(ids.next, order, more);
    IdsRoundTrip(ids, order, l.server.ids.next, more);
    ConsumerShortens(ts, Ids(l.server.ids.next, {}), IdsField);
    OneField("idm", ts, l, ServerField, l.(server := l.server.(ids := ids)), more);
  }

  lemma SmKey(l: Partial, sm: Manager, order: seq<string>, orders: map<string, SessionOrder>, more: Tokens)
    requires sm.seed < SEEDS && Iterates(order, sm.m.Keys) && IteratesSessions(order, orders, sm.m)
    ensures Fields([Str("sm")] + ManagerJson(sm, order, orders, more), l, ServerField)
         == Fields(more, l.(server := l.server.(sm := Manager(sm.seed, l.server.sm.m + ReloadedSessions(sm.m)))), ServerField)
  {
    hide Fields, Consumer, Pubs, ManagerJson, ReloadedSessions, IteratesSessions;
    var ts := ManagerJson(sm, order, orders, more);
    var sm' := Manager(sm.seed, l.server.sm.m + ReloadedSessions(sm.m));
    ManagerRoundTrip(sm, l.server.sm, order, orders, more);
    ConsumerShortens(ts, l.server.sm, ManagerField);
    OneField("sm", ts, l, ServerField, l.(server := l.server.(sm := sm')), more);
  }

  lemma RetainedKeyed(l: Partial, s: Store, more: Tokens)
    requires s.Valid()
    ensures Fields(RetainedPart(s, more), l, ServerField)
         == Fields(more, if s.order == [] then l
                         else l.(server := l.server.(retained := Store(UnmarkedMsgs(s.msgs), s.order))), ServerField)
  {
    hide Fields, Consumer, Pubs, RetainedJson, UnmarkedMsgs;
    if s.order != [] {
      var ts := RetainedJson(s, more);
      RetainedRoundTrip(s, more);
      ConsumerShortens(ts, Store(map[], []), RetainedField);
      OneField("retained", ts, l, ServerField,
               l.(server := l.server.(retained := Store(UnmarkedMsgs(s.msgs), s.order))), more);
    }
  }

  lemma PubAcksAreRead(l: Partial, ts: Tokens, tracks: map<u16, NatsPub>, more: Tokens)
    requires Pubs(ts, map[]) == Got(tracks, more)
    ensures |more| <= |ts| && ServerField("pubacks", l, [BeginList] + ts) == Got(l.(tracks := tracks), more)
  {
    hide IsInverse, Fields, Consumer, Pubs, Delim, String;
    assert "pubacks" != "id" && "pubacks" != "idm" && "pubacks" != "sm" && "pubacks" != "retained";
    ReadsDelim(BeginList, ts);
    PubsShorten(ts);
  }

  lemma PubAcksKeyed(l: Partial, order: seq<u16>, pubs: map<u16, NatsPub>, more: Tokens)
    requires Tracked(pubs) && Iterates(order, pubs.Keys) && l.tracks == map[]
    ensures Fields(PubAcksPart(order, pubs, more), l, ServerField) == Fields(more, l.(tracks := UnmarkedPubs(pubs)), ServerField)
  {
    hide Fields, Consumer, Pubs, PubEntries, UnmarkedPub, ServerField;
    if order == [] {
      assert UnmarkedPubs(pubs) == map[];
    } else {
      var ts := PubEntries(order, pubs, [EndList] + more);
      PubEntriesRoundTrip(order, pubs, map[], more);
      PutIterated(map[], order, UnmarkedPubs(pubs));
      assert map[] + UnmarkedPubs(pubs) == UnmarkedPubs(pubs);
      PubAcksAreRead(l, ts, UnmarkedPubs(pubs), more);
      OneField("pubacks", [BeginList] + ts, l, ServerField, l.(tracks := UnmarkedPubs(pubs)), more);
    }
  }

  lemma PubsShorten(ts: Tokens)
    requires Pubs(ts, map[]).Got?
    ensures |Pubs(ts, map[]).rest| < |ts|
  {
  }

  /** Loading what was saved, whatever the iterations and whatever server loads it. */
  lemma ServerRoundTrip(s: Server, base: Server, ts: string, o: Iteration, more: Tokens)
    requires s.Valid() && IteratesServer(o, s) && !IsKey(ts)
    ensures Load(ServerJson(s, ts, o, more), base) == Got(LoadedInto(base, s), more)
  {
    hide Fields, Consumer, ServerField, IdsJson, ManagerJson, RetainedPart, PubAcksPart, IteratesSessions, Iterates,
      ReloadedSessions, UnmarkedMsgs, IsKey;
    var l0 := Partial(base, "", map[]);
    var l1 := l0.(id := s.own.value.clientID);
    var l2 := l1.(server := l1.server.(ids := s.ids));
    var l3 := l2.(server := l2.server.(sm := Manager(s.sm.seed, base.sm.m + ReloadedSessions(s.sm.m))));
    var l4 := if s.retained.order == [] then l3
              else l3.(server := l3.server.(retained := Store(UnmarkedMsgs(s.retained.msgs), s.retained.order)));
    var l5 := l4.(tracks := UnmarkedPubs(s.pubAcks));
    IterationsReach(o, s);
    var t5 := [End] + more;
    var t4 := PubAcksPart(o.pubAcks, s.pubAcks, t5);
    var t3 := RetainedPart(s.retained, t4);
    var t2 := [Str("sm")] + ManagerJson(s.sm, o.sessions, o.session, t3);
    var t1 := [Str("idm")] + IdsJson(s.ids.next, o.inFlight, t2);
    var t0 := [Str("id")] + ([Str(s.own.value.clientID)] + t1);
    TimestampSkipped(ts, l0, t0);
    ServerIdKey(l0, s.own.value.clientID, t1);
    IdmKey(l1, s.ids, o.inFlight, t2);
    SmKey(l2, s.sm, o.sessions, o.session, t3);
    RetainedKeyed(l3, s.retained, t4);
    PubAcksKeyed(l4, o.pubAcks, s.pubAcks, t5);
    NoField(more, l5, ServerField);
    OneObject([Str("ts")] + ([Str(ts)] + t0), l0, ServerField, l5, more);
    OwnIsLoaded(s, base);
    assert s.pubAcks == map[] <==> UnmarkedPubs(s.pubAcks) == map[] by {
      assert UnmarkedPubs(s.pubAcks).Keys == s.pubAcks.Keys;
      assert s.pubAcks == map[] <==> s.pubAcks.Keys == {};
    }
  }

  lemma IterationsReach(o: Iteration, s: Server)
    requires IteratesServer(o, s)
    ensures forall k :: k in o.pubAcks ==> k in s.pubAcks
  {
  }

  lemma OwnIsLoaded(s: Server, base: Server)
    requires s.Valid()
    ensures var m, id := base.sm.m + ReloadedSessions(s.sm.m), s.own.value.clientID;
            id in m && m[id] == UnmarkedSession(s.sm.m[id].Reloaded())
  {
  }

  // ---- what survives

  /** The acks a session awaits by subject, subscribed to or loaded and not yet subscribed to again. */
  function Waiting(s: SessionState): map<u16, string> { s.prelAwaitsAck + Subjects(s.awaitsAck) }

  predicate KnowsSame(a: SessionState, b: SessionState) {
    b.id == a.id && b.clientID == a.clientID && b.awaitsClientAck == a.awaitsClientAck && Waiting(b) == Waiting(a)
  }

  /** t knows everything s knew. */
  predicate Restored(s: Server, t: Server) {
    && t.ids == s.ids && t.sm.seed == s.sm.seed && t.retained == s.retained && t.pubAcks == s.pubAcks
    && s.own.Some? && t.own.Some? && KnowsSame(s.own.value, t.own.value)
    && forall k :: k in s.sm.m ==> k in t.sm.m && KnowsSame(s.sm.m[k], t.sm.m[k])
  }

  predicate NoneMarked<K>(msgs: map<K, Publish>) { forall k :: k in msgs ==> !msgs[k].sentByUs }

  /** Every loaded ack of a session was subscribed to again or superseded. */
  predicate Resumed(s: SessionState) { forall k :: k in s.prelAwaitsAck ==> k in s.awaitsAck }

  predicate Savable(s: Server) {
    && NoneMarked(s.retained.msgs)
    && (forall k :: k in s.pubAcks && s.pubAcks[k].pp.Some? ==> !s.pubAcks[k].pp.value.sentByUs)
    && (forall k :: k in s.sm.m ==> NoneMarked(s.sm.m[k].awaitsClientAck) && Resumed(s.sm.m[k]))
    && s.own.Some? && s.own.value.clientID in s.sm.m && KnowsSame(s.sm.m[s.own.value.clientID], s.own.value)
  }

  lemma UnmarkedIsSame<K>(msgs: map<K, Publish>)
    ensures UnmarkedMsgs(msgs) == msgs <==> NoneMarked(msgs)
  {
    if UnmarkedMsgs(msgs) == msgs {
      forall k | k in msgs ensures !msgs[k].sentByUs {
        assert UnmarkedMsgs(msgs)[k] == msgs[k];
      }
    }
    if NoneMarked(msgs) {
      assert forall k :: k in msgs ==> UnmarkedMsgs(msgs)[k] == msgs[k];
    }
  }

  lemma PubsAreSame(pubs: map<u16, NatsPub>)
    requires Tracked(pubs)
    ensures UnmarkedPubs(pubs) == pubs <==> forall k :: k in pubs ==> !pubs[k].pp.value.sentByUs
  {
    if UnmarkedPubs(pubs) == pubs {
      forall k | k in pubs ensures !pubs[k].pp.value.sentByUs {
        assert UnmarkedPubs(pubs)[k] == pubs[k];
      }
    }
    if forall k :: k in pubs ==> !pubs[k].pp.value.sentByUs {
      assert forall k :: k in pubs ==> UnmarkedPubs(pubs)[k] == pubs[k];
    }
  }

  lemma SessionIsSame(s: SessionState)
    ensures KnowsSame(s, UnmarkedSession(s.Reloaded())) <==> NoneMarked(s.awaitsClientAck) && Resumed(s)
  {
    hide UnmarkedMsgs, NoneMarked;
    var t := UnmarkedSession(s.Reloaded());
    UnmarkedIsSame(s.awaitsClientAck);
    assert Subjects(t.awaitsAck) == map[] && Waiting(t) == Subjects(s.awaitsAck);
    if Waiting(t) == Waiting(s) {
      forall k | k in s.prelAwaitsAck ensures k in s.awaitsAck {
        assert k in Waiting(s);
      }
    }
    if Resumed(s) {
      assert Waiting(s).Keys == Subjects(s.awaitsAck).Keys;
      assert forall k :: k in Waiting(s) ==> Waiting(s)[k] == Subjects(s.awaitsAck)[k];
    }
  }

  /**
   * A fresh server that loads the file knows everything again exactly when every session's loaded acks had been
   * subscribed to again before the save, no message carries the mark of this server (neither is saved), and the session
   * that is current for the server's client id is as good as the server's own, which is not saved unless it is that one.
   */
  lemma RestoredIffSavable(s: Server, base: Server, ts: string, o: Iteration)
    requires s.Valid() && IteratesServer(o, s) && !IsKey(ts)
    requires base.retained == Store(map[], []) && base.pubAcks == map[]
    ensures Load(ServerJson(s, ts, o, []), base) == Got(LoadedInto(base, s), [])
    ensures Restored(s, LoadedInto(base, s)) <==> Savable(s)
  {
    hide Fields, Consumer, ServerField, ServerJson, UnmarkedMsgs, UnmarkedPub, UnmarkedSession, NoneMarked, Resumed,
      KnowsSame, Iterates, IteratesSessions, Load;
    ServerRoundTrip(s, base, ts, o, []);
    UnmarkedIsSame(s.retained.msgs);
    PubsAreSame(s.pubAcks);
    EmptyStore(s.retained);
    var t := LoadedInto(base, s);
    forall k | k in s.sm.m
      ensures k in t.sm.m
      ensures KnowsSame(s.sm.m[k], t.sm.m[k]) <==> NoneMarked(s.sm.m[k].awaitsClientAck) && Resumed(s.sm.m[k])
    {
      SessionIsSame(s.sm.m[k]);
      assert t.sm.m[k] == UnmarkedSession(s.sm.m[k].Reloaded());
    }
    var id := s.own.value.clientID;
    SameIsTransitive(s.own.value, s.sm.m[id], t.own.value);
    assert t.own.value == t.sm.m[id];
  }

  lemma SameIsTransitive(a: SessionState, b: SessionState, c: SessionState)
    ensures KnowsSame(a, b) <==> KnowsSame(b, a)
    ensures KnowsSame(a, b) && KnowsSame(b, c) ==> KnowsSame(a, c)
    ensures KnowsSame(b, c) && KnowsSame(a, c) ==> KnowsSame(b, a)
  {
  }

  /** A server that was loaded and is saved again before the client of one of its sessions has come back. */
  lemma UnresumedAcksAreLost(subject: string, ts: string, o: Iteration)
    requires !IsKey(ts)
    requires o.inFlight == [] && o.pubAcks == [] && o.sessions == ["srv"] && o.session == map["srv" := SessionOrder([], [])]
    ensures var own := SessionState("s1", "srv", map[7 := subject], map[], map[]);
            var s := Server(Ids(1, {}), Manager(1, map["srv" := own]), Store(map[], []), map[], Some(own));
            var base := Server(Ids(1, {}), Manager(1, map[]), Store(map[], []), map[], None);
            && s.Valid() && IteratesServer(o, s) && !Savable(s)
            && Load(ServerJson(s, ts, o, []), base) == Got(LoadedInto(base, s), [])
            && !Restored(s, LoadedInto(base, s)) && 7 !in Waiting(LoadedInto(base, s).sm.m["srv"])
  {
    var own := SessionState("s1", "srv", map[7 := subject], map[], map[]);
    var s := Server(Ids(1, {}), Manager(1, map["srv" := own]), Store(map[], []), map[], Some(own));
    var base := Server(Ids(1, {}), Manager(1, map[]), Store(map[], []), map[], None);
    assert 7 in own.prelAwaitsAck && !Resumed(own);
    hide Load, ServerJson, IsKey;
    RestoredIffSavable(s, base, ts, o);
  }

  lemma EmptyStore(s: Store)
    requires s.Valid()
    ensures s.order == [] ==> s == Store(map[], []) && UnmarkedMsgs(s.msgs) == s.msgs
  {
    if s.order == [] {
      assert s.msgs.Keys == {};
    }
  }
}
