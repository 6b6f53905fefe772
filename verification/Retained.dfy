// bridge/retained.go and server.HandleRetain: the retained messages, in the order their topics were first retained.
module Retained {
  import opened Basics
  import opened Packets
  import opened CodecLaws
  import opened Sessions
  import opened Clients
  import opened WireFormat

  datatype Store = Store(msgs: map<string, Publish>, order: seq<string>) {
    /** The order lists every retained topic once, and each message is kept under its own topic. */
    ghost predicate Valid() {
      && (forall t :: t in order <==> t in msgs)
      && (forall i, j :: 0 <= i < j < |order| ==> order[i] != order[j])
      && (forall t :: t in msgs ==> msgs[t].name == t)
    }

    function Added(m: Publish): Store {
      Store(msgs[m.name := m], if m.name in msgs then order else order + [m.name])
    }

    function Dropped(t: string): Store { Store(msgs - {t}, Removed(order, t)) }

    function Handled(m: Publish): Store {
      if !Retain(m.flags) then this else if m.payload == [] then Dropped(m.name) else Added(m)
    }
  }

  /** The order without the first occurrence of t. */
  function Removed(order: seq<string>, t: string): seq<string> {
    if order == [] then [] else if order[0] == t then order[1..] else [order[0]] + Removed(order[1..], t)
  }

  lemma {:induction false} RemovedAt(order: seq<string>, t: string, i: nat)
    requires i < |order| && order[i] == t && t !in order[..i]
    ensures Removed(order, t) == order[..i] + order[i + 1..]
  {
    if i > 0 {
      assert order[0] in order[..i] && order[..i] == [order[0]] + order[1..][..i - 1];
      RemovedAt(order[1..], t, i - 1);
    }
  }

  lemma {:induction false} RemovedNone(order: seq<string>, t: string)
    requires t !in order
    ensures Removed(order, t) == order
  {
    if order != [] {
      RemovedNone(order[1..], t);
    }
  }

  function ResetRetain(m: Publish): Publish { m.(flags := m.flags - m.flags % 2) }

  class RetainedMessages {
    var msgs: map<string, Publish>
    var order: seq<string>

    function State(): Store
      reads this
    {
      Store(msgs, order)
    }

    constructor ()
      ensures State() == Store(map[], [])
    {
      msgs, order := map[], [];
    }

    method Empty() returns (empty: bool)
      ensures empty <==> State().order == []
    {
      empty := |order| == 0;
    }

    method Add(m: Publish) returns (added: bool)
      modifies this
      ensures State() == old(State()).Added(m)
      ensures added <==> m.name !in old(msgs)
    {
      var t := m.name;
      var present := t in msgs;
      msgs := msgs[t := m];
      if !present {
        order := order + [t];
      }
      added := !present;
    }

    /** The topics behind the dropped one move one place forward. */
    method Drop(t: string) returns (dropped: bool)
      requires State().Valid()
      modifies this
      ensures State() == old(State()).Dropped(t)
      ensures dropped <==> t in old(msgs)
    {
      dropped := false;
      if t in msgs {
        msgs := msgs - {t};
        var o := order;
        var i := 0;
        assert o[..|o|] == o;
        while i < |o|
          invariant 0 <= i <= |o| && t !in o[..i]
          invariant !dropped && order == o && msgs == old(msgs) - {t}
        {
          assert o[..i + 1] == o[..i] + [o[i]];
          if o[i] == t {
            RemovedAt(o, t, i);
            order := o[..i] + o[i + 1..];
            dropped := true;
            break;
          }
          i := i + 1;
        }
      } else {
        RemovedNone(order, t);
        assert msgs - {t} == msgs;
      }
    }

    /** server.HandleRetain: an empty payload deletes, any other replaces. The packet is then published as returned. */
    method HandleRetain(pp: Publish) returns (out: Publish)
      requires State().Valid()
      modifies this
      ensures State() == old(State()).Handled(pp)
      ensures out == if Retain(pp.flags) && pp.payload == [] then ResetRetain(pp) else pp
      ensures Retain(out.flags) ==> out.payload != [] && out.name in msgs && msgs[out.name] == out
    {
      out := pp;
      if Retain(pp.flags) {
        if |pp.payload| == 0 {
          var _ := Drop(pp.name);
          out := ResetRetain(out);
        } else {
          var _ := Add(pp);
        }
      }
    }

    /** The match of a filter against a topic is a parameter. */
    method MatchingMessages(tps: seq<Topic>, matches: (string, string) -> bool) returns (pps: seq<Publish>, qs: seq<u8>)
      requires State().Valid()
      ensures Answers(tps, State(), Picks(tps, order, matches), pps, qs)
    {
      hide Row, Picks, Answers;
      pps, qs := [], [];
      var i := 0;
      NoPicks(tps, State(), matches);
      while i < |tps|
        invariant i <= |tps|
        invariant Answers(tps, State(), Picks(tps[..i], order, matches), pps, qs)
      {
        var j := 0;
        ghost var before := Picks(tps[..i], order, matches);
        NoRow(tps[i], i, order, matches, before);
        while j < |order|
          invariant j <= |order|
          invariant Answers(tps, State(), before + Row(tps[i], i, order[..j], matches), pps, qs)
        {
          var t := order[j];
          MoreRow(tps, State(), i, j, matches, before, pps, qs);
          if matches(tps[i].name, t) {
            pps := pps + [msgs[t]];
            qs := qs + [tps[i].qos];
          }
          j := j + 1;
        }
        MorePicks(tps, i, order, matches);
        i := i + 1;
      }
      assert tps[..i] == tps;
    }

    /** Each message goes out at the QoS of the filter it matches, whatever its own. */
    method PublishMatching(tps: seq<Topic>, matches: (string, string) -> bool, c: Client)
      returns (pps: seq<Publish>, qs: seq<u8>)
      requires State().Valid() && c.session as object != this
      modifies c`writeQueue, c.session
      ensures Answers(tps, State(), Picks(tps, order, matches), pps, qs)
      ensures c.writeQueue == old(c.writeQueue) + if c.st == Connected then PublishPackets(pps) else []
      ensures c.session.State() == Requested(old(c.session.State()), pps, qs)
    {
      hide Row, Picks, Answers;
      pps, qs := MatchingMessages(tps, matches);
      AnswersAlign(tps, State(), Picks(tps, order, matches), pps, qs);
      var i := 0;
      while i < |pps|
        invariant i <= |pps|
        invariant c.writeQueue == old(c.writeQueue) + if c.st == Connected then PublishPackets(pps[..i]) else []
        invariant c.session.State() == Requested(old(c.session.State()), pps[..i], qs[..i])
        modifies c`writeQueue, c.session
      {
        assert pps[..i + 1][..i] == pps[..i] && qs[..i + 1][..i] == qs[..i];
        assert PublishPackets(pps[..i + 1]) == PublishPackets(pps[..i]) + [PublishPacket(pps[i])];
        c.PublishResponse(qs[i], pps[i]);
        i := i + 1;
      }
      assert pps[..i] == pps && qs[..i] == qs;
    }
  }

  // ---- matching

  function PublishPackets(pps: seq<Publish>): seq<Packet> { seq(|pps|, n requires 0 <= n < |pps| => PublishPacket(pps[n])) }

  /** A session after messages went to its client: those that go out at QoS > 0 await an ack. */
  function Requested(s: SessionState, pps: seq<Publish>, qs: seq<u8>): SessionState
    requires |pps| == |qs|
  {
    if pps == [] then s
    else
      var n := |pps| - 1;
      var t := Requested(s, pps[..n], qs[..n]);
      if qs[n] > 0 then t.ClientAckRequested(pps[n]) else t
  }

  /** The places in the order that filter number i matches. */
  function Row(tp: Topic, i: nat, order: seq<string>, matches: (string, string) -> bool): (ks: seq<(nat, nat)>)
    ensures forall k :: k in ks <==> k.0 == i && k.1 < |order| && matches(tp.name, order[k.1])
    ensures forall a, b :: 0 <= a < b < |ks| ==> ks[a].1 < ks[b].1
  {
    if order == [] then []
    else
      var j := |order| - 1;
      Row(tp, i, order[..j], matches) + if matches(tp.name, order[j]) then [(i, j)] else []
  }

  predicate Before(k: (nat, nat), l: (nat, nat)) { k.0 < l.0 || (k.0 == l.0 && k.1 < l.1) }

  /**
   * Which message answers which filter: every match, once, by filter first and then by the order in which the
   * topics were retained.
   */
  function Picks(tps: seq<Topic>, order: seq<string>, matches: (string, string) -> bool): (ks: seq<(nat, nat)>)
    ensures forall k :: k in ks <==> k.0 < |tps| && k.1 < |order| && matches(tps[k.0].name, order[k.1])
    ensures forall a, b :: 0 <= a < b < |ks| ==> Before(ks[a], ks[b])
  {
    if tps == [] then []
    else
      var i := |tps| - 1;
      Picks(tps[..i], order, matches) + Row(tps[i], i, order, matches)
  }

  /** Message n and its QoS are those of pick n. */
  predicate Answers(tps: seq<Topic>, s: Store, ks: seq<(nat, nat)>, pps: seq<Publish>, qs: seq<u8>) {
    && |pps| == |qs| == |ks|
    && forall n :: 0 <= n < |ks| ==>
         && ks[n].0 < |tps| && ks[n].1 < |s.order| && s.order[ks[n].1] in s.msgs
         && pps[n] == s.msgs[s.order[ks[n].1]] && qs[n] == tps[ks[n].0].qos
  }

  lemma AnswersAlign(tps: seq<Topic>, s: Store, ks: seq<(nat, nat)>, pps: seq<Publish>, qs: seq<u8>)
    requires Answers(tps, s, ks, pps, qs)
    ensures |pps| == |qs|
  {
  }

  lemma NoPicks(tps: seq<Topic>, s: Store, matches: (string, string) -> bool)
    ensures Answers(tps, s, Picks(tps[..0], s.order, matches), [], [])
  {
  }

  lemma NoRow(tp: Topic, i: nat, order: seq<string>, matches: (string, string) -> bool, before: seq<(nat, nat)>)
    ensures before + Row(tp, i, order[..0], matches) == before
  {
  }

  lemma MoreRow(tps: seq<Topic>, s: Store, i: nat, j: nat, matches: (string, string) -> bool, before: seq<(nat, nat)>,
                pps: seq<Publish>, qs: seq<u8>)
    requires i < |tps| && j < |s.order| && s.order[j] in s.msgs
    requires Answers(tps, s, before + Row(tps[i], i, s.order[..j], matches), pps, qs)
    ensures var ks := before + Row(tps[i], i, s.order[..j + 1], matches);
            if matches(tps[i].name, s.order[j])
            then Answers(tps, s, ks, pps + [s.msgs[s.order[j]]], qs + [tps[i].qos])
            else Answers(tps, s, ks, pps, qs)
  {
    var row := Row(tps[i], i, s.order[..j], matches);
    assert s.order[..j + 1][..j] == s.order[..j];
    assert (before + row) + [(i, j)] == before + (row + [(i, j)]);
    assert row + [] == row;
  }

  lemma MorePicks(tps: seq<Topic>, i: nat, order: seq<string>, matches: (string, string) -> bool)
    requires i < |tps|
    ensures Picks(tps[..i + 1], order, matches) == Picks(tps[..i], order, matches) + Row(tps[i], i, order[..|order|], matches)
  {
    assert tps[..i + 1][..i] == tps[..i] && order[..|order|] == order;
  }

  // ---- the store is a fold over what was published

  function Replay(history: seq<Publish>): Store {
    if history == [] then Store(map[], [])
    else Replay(history[..|history| - 1]).Handled(history[|history| - 1])
  }

  predicate Concerns(m: Publish, t: string) { Retain(m.flags) && m.name == t }

  /** The last message that was published with the retain flag to topic t, unless it was empty. */
  function LastRetained(history: seq<Publish>, t: string): Option<Publish> {
    if history == [] then None
    else
      var m := history[|history| - 1];
      if Concerns(m, t) then (if m.payload == [] then None else Some(m))
      else LastRetained(history[..|history| - 1], t)
  }

  /** When topic t was first retained after it was last dropped. */
  predicate Since(history: seq<Publish>, t: string, n: nat) {
    && n < |history| && Concerns(history[n], t)
    && (forall i :: n <= i < |history| && Concerns(history[i], t) ==> history[i].payload != [])
    && LastRetained(history[..n], t) == None
  }

  ghost predicate Older(history: seq<Publish>, t: string, u: string) {
    exists m, n :: 0 <= m < n && Since(history, t, m) && Since(history, u, n)
  }

  lemma SinceGrows(history: seq<Publish>, m: Publish, t: string, n: nat)
    requires Since(history, t, n) && (Concerns(m, t) ==> m.payload != [])
    ensures Since(history + [m], t, n)
  {
    assert (history + [m])[..n] == history[..n];
  }

  lemma SinceNow(history: seq<Publish>, m: Publish, t: string)
    requires Concerns(m, t) && m.payload != [] && LastRetained(history, t) == None
    ensures Since(history + [m], t, |history|)
  {
    assert (history + [m])[..|history|] == history;
  }

  /** What a publish does to a valid store: nothing, one more topic at the end, or one topic less. */
  lemma Shapes(s: Store, m: Publish)
    requires s.Valid()
    ensures var s' := s.Handled(m);
            || s'.order == s.order
            || (m.name !in s.order && s'.order == s.order + [m.name] && Concerns(m, m.name) && m.payload != [])
            || exists k :: 0 <= k < |s.order| && s.order[k] == m.name && s'.order == s.order[..k] + s.order[k + 1..]
    ensures Retain(m.flags) && m.payload == [] ==> m.name !in s.Handled(m).order
  {
    if Retain(m.flags) && m.payload == [] {
      if m.name in s.order {
        var k :| 0 <= k < |s.order| && s.order[k] == m.name;
        RemovedAt(s.order, m.name, k);
      } else {
        RemovedNone(s.order, m.name);
      }
    }
  }

  /** Dropping one element keeps the others in their order. */
  lemma CutKept<T>(o: seq<T>, k: nat, i: nat, j: nat) returns (a: nat, b: nat)
    requires k < |o| && i < j < |o| - 1
    ensures a < b < |o| && o[a] == (o[..k] + o[k + 1..])[i] && o[b] == (o[..k] + o[k + 1..])[j]
  {
    a := if i < k then i else i + 1;
    b := if j < k then j else j + 1;
  }

  /** A topic that was there keeps its place relative to the others. */
  lemma OrderKept(s: Store, m: Publish, i: nat, j: nat) returns (a: nat, b: nat)
    requires s.Valid() && i < j < |s.Handled(m).order| && (j < |s.order| || s.Handled(m).order[j] != m.name)
    ensures a < b < |s.order| && s.order[a] == s.Handled(m).order[i] && s.order[b] == s.Handled(m).order[j]
  {
    Shapes(s, m);
    var o := s.Handled(m).order;
    if o == s.order || o == s.order + [m.name] {
      a, b := i, j;
    } else {
      var k :| 0 <= k < |s.order| && s.order[k] == m.name && o == s.order[..k] + s.order[k + 1..];
      a, b := CutKept(s.order, k, i, j);
    }
  }

  lemma CutMembers(o: seq<string>, k: nat, t: string)
    requires k < |o| && forall i, j :: 0 <= i < j < |o| ==> o[i] != o[j]
    ensures t in o[..k] + o[k + 1..] <==> t in o && t != o[k]
  {
    var r := o[..k] + o[k + 1..];
    if t in r {
      var n :| 0 <= n < |r| && r[n] == t;
      assert t == o[if n < k then n else n + 1];
    }
    if t in o && t != o[k] {
      var n :| 0 <= n < |o| && o[n] == t;
      assert t == r[if n < k then n else n - 1];
    }
  }

  lemma DropKeepsValid(s: Store, k: nat)
    requires s.Valid() && k < |s.order|
    ensures Store(s.msgs - {s.order[k]}, s.order[..k] + s.order[k + 1..]).Valid()
  {
    var r := s.order[..k] + s.order[k + 1..];
    forall t ensures t in r <==> t in s.msgs - {s.order[k]} { CutMembers(s.order, k, t); }
    forall i, j | 0 <= i < j < |r| ensures r[i] != r[j] { var a, b := CutKept(s.order, k, i, j); }
  }

  lemma ValidStep(s: Store, m: Publish)
    requires s.Valid()
    ensures s.Handled(m).Valid()
  {
    if Retain(m.flags) && m.payload == [] {
      DropIsValid(s, m.name);
    } else if Retain(m.flags) {
      AddIsValid(s, m);
    }
  }

  lemma AddIsValid(s: Store, m: Publish)
    requires s.Valid()
    ensures s.Added(m).Valid()
  {
  }

  lemma DropIsValid(s: Store, t: string)
    requires s.Valid()
    ensures s.Dropped(t).Valid()
  {
    if t in s.order {
      var k :| 0 <= k < |s.order| && s.order[k] == t;
      assert t !in s.order[..k];
      RemovedAt(s.order, t, k);
      DropKeepsValid(s, k);
    } else {
      RemovedNone(s.order, t);
    }
  }

  /** One more publish keeps the order sorted by age. */
  lemma OrderStep(history: seq<Publish>, m: Publish, s: Store, i: nat, j: nat)
    requires s.Valid() && i < j < |s.Handled(m).order|
    requires forall t :: t in s.msgs <==> LastRetained(history, t).Some?
    requires forall t :: t in s.msgs ==> exists n :: Since(history, t, n)
    requires forall i, j :: 0 <= i < j < |s.order| ==> Older(history, s.order[i], s.order[j])
    ensures Older(history + [m], s.Handled(m).order[i], s.Handled(m).order[j])
  {
    hide Since, LastRetained;
    Shapes(s, m);
    var o := s.Handled(m).order;
    if j < |s.order| || o[j] != m.name {
      var a, b := OrderKept(s, m, i, j);
      assert Older(history, o[i], o[j]);
      var x, y :| 0 <= x < y && Since(history, o[i], x) && Since(history, o[j], y);
      SinceGrows(history, m, o[i], x);
      SinceGrows(history, m, o[j], y);
    } else {
      assert o == s.order + [m.name];
      assert o[i] == s.order[i] && o[i] in s.order;
      var x :| Since(history, o[i], x);
      SinceGrows(history, m, o[i], x);
      SinceBounds(history, o[i], x);
      SinceNow(history, m, m.name);
    }
  }

  lemma SinceBounds(history: seq<Publish>, t: string, n: nat)
    requires Since(history, t, n)
    ensures n < |history|
  {
  }

  lemma SinceStep(history: seq<Publish>, m: Publish, s: Store, t: string)
    requires s.Valid() && t in s.Handled(m).msgs
    requires forall t :: t in s.msgs <==> LastRetained(history, t).Some?
    requires forall t :: t in s.msgs ==> exists n :: Since(history, t, n)
    ensures exists n :: Since(history + [m], t, n)
  {
    hide Since, LastRetained;
    if t in s.msgs {
      var n :| Since(history, t, n);
      SinceGrows(history, m, t, n);
    } else {
      SinceNow(history, m, t);
    }
  }

  /**
   * After any history of publishes each topic holds its last message published with the retain flag, unless that
   * was empty, and the topics are listed once each in the order in which they were first retained since then.
   */
  lemma {:induction false} StoreIsFold(history: seq<Publish>)
    ensures var s := Replay(history);
            && s.Valid()
            && (forall t :: t in s.msgs <==> LastRetained(history, t).Some?)
            && (forall t :: t in s.msgs ==> LastRetained(history, t) == Some(s.msgs[t]) && s.msgs[t].payload != [])
            && (forall t :: t in s.msgs ==> exists n :: Since(history, t, n))
            && (forall i, j :: 0 <= i < j < |s.order| ==> Older(history, s.order[i], s.order[j]))
  {
    if history != [] {
      var n := |history| - 1;
      StoreIsFold(history[..n]);
      ValidStep(Replay(history[..n]), history[n]);
      var s := Replay(history[..n]);
      assert history == history[..n] + [history[n]];
      forall t | t in Replay(history).msgs ensures exists n :: Since(history, t, n) {
        SinceStep(history[..n], history[n], s, t);
      }
      forall i, j | 0 <= i < j < |Replay(history).order|
        ensures Older(history, Replay(history).order[i], Replay(history).order[j])
      {
        OrderStep(history[..n], history[n], s, i, j);
      }
    }
  }

  /** A topic has only one such time, so the order is the only one that is sorted by it. */
  lemma SinceUnique(history: seq<Publish>, t: string, m: nat, n: nat)
    requires Since(history, t, m) && Since(history, t, n)
    ensures m == n
  {
    if m < n {
      NotEmptyLast(history[..n], t, m);
    } else if n < m {
      NotEmptyLast(history[..m], t, n);
    }
  }

  lemma {:induction false} NotEmptyLast(h: seq<Publish>, t: string, m: nat)
    requires m < |h| && Concerns(h[m], t)
    requires forall i :: m <= i < |h| && Concerns(h[i], t) ==> h[i].payload != []
    ensures LastRetained(h, t).Some?
  {
    if !Concerns(h[|h| - 1], t) {
      NotEmptyLast(h[..|h| - 1], t, m);
    }
  }

  // ---- what goes out

  /** Resetting the retain flag clears bit 0 of the flags, keeps the other seven, and nothing else changes. */
  lemma ResetRetainClears(m: Publish)
    ensures var r := ResetRetain(m);
            && r == m.(flags := r.flags) && !Bit(r.flags, 0) && r.flags / 2 == m.flags / 2
            && forall n :: 1 <= n < 8 ==> (Bit(r.flags, n) <==> Bit(m.flags, n))
  {
    var f, g := m.flags, ResetRetain(m).flags;
    assert g / 2 == f / 2;
    forall n | 1 <= n < 8 ensures Bit(g, n) <==> Bit(f, n) { SameBit(f, g, n); }
  }

  lemma SameBit(f: u8, g: u8, n: nat)
    requires f / 2 == g / 2 && 1 <= n < 8
    ensures Bit(g, n) <==> Bit(f, n)
  {
    SameAbove(f, g);
  }

  lemma SameAbove(f: nat, g: nat)
    requires f / 2 == g / 2
    ensures f / 4 == g / 4 && f / 8 == g / 8 && f / 0x10 == g / 0x10
    ensures f / 0x20 == g / 0x20 && f / 0x40 == g / 0x40 && f / 0x80 == g / 0x80
  {
    assert f / 4 == f / 2 / 2 && g / 4 == g / 2 / 2;
    assert f / 8 == f / 4 / 2 && g / 8 == g / 4 / 2;
    assert f / 0x10 == f / 8 / 2 && g / 0x10 == g / 8 / 2;
    assert f / 0x20 == f / 0x10 / 2 && g / 0x20 == g / 0x10 / 2;
    assert f / 0x40 == f / 0x20 / 2 && g / 0x40 == g / 0x20 / 2;
    assert f / 0x80 == f / 0x40 / 2 && g / 0x80 == g / 0x40 / 2;
  }

  /** Message i is the last with its packet id that goes out at QoS > 0. */
  predicate LastAwaited(pps: seq<Publish>, qs: seq<u8>, i: nat)
    requires |pps| == |qs|
  {
    i < |pps| && qs[i] > 0 && forall j :: i < j < |pps| && qs[j] > 0 ==> pps[j].id != pps[i].id
  }

  /** A session then awaits the last message of an id that went out at QoS > 0. */
  lemma {:induction false} RequestedIsLast(s: SessionState, pps: seq<Publish>, qs: seq<u8>, i: nat)
    requires |pps| == |qs| && LastAwaited(pps, qs, i)
    ensures var t := Requested(s, pps, qs);
            && t == s.(awaitsClientAck := t.awaitsClientAck)
            && pps[i].id in t.awaitsClientAck && t.awaitsClientAck[pps[i].id] == pps[i]
  {
    var n := |pps| - 1;
    OnlyAwaitsChanges(s, pps, qs);
    if i < n {
      assert LastAwaited(pps[..n], qs[..n], i);
      hide LastAwaited;
      RequestedIsLast(s, pps[..n], qs[..n], i);
      LaterIsAnother(pps, qs, i);
    }
  }

  lemma LaterIsAnother(pps: seq<Publish>, qs: seq<u8>, i: nat)
    requires |pps| == |qs| && LastAwaited(pps, qs, i) && i < |pps| - 1
    ensures qs[|pps| - 1] > 0 ==> pps[|pps| - 1].id != pps[i].id
  {
  }

  lemma {:induction false} OnlyAwaitsChanges(s: SessionState, pps: seq<Publish>, qs: seq<u8>)
    requires |pps| == |qs|
    ensures var t := Requested(s, pps, qs); t == s.(awaitsClientAck := t.awaitsClientAck)
  {
    if pps != [] { OnlyAwaitsChanges(s, pps[..|pps| - 1], qs[..|pps| - 1]); }
  }

  /** Under an id that no such message has, it awaits what it did before. */
  lemma {:induction false} RequestedElsewhere(s: SessionState, pps: seq<Publish>, qs: seq<u8>, id: u16)
    requires |pps| == |qs| && forall i :: 0 <= i < |pps| && qs[i] > 0 ==> pps[i].id != id
    ensures var t := Requested(s, pps, qs);
            && (id in t.awaitsClientAck <==> id in s.awaitsClientAck)
            && (id in t.awaitsClientAck ==> t.awaitsClientAck[id] == s.awaitsClientAck[id])
  {
    if pps != [] { RequestedElsewhere(s, pps[..|pps| - 1], qs[..|pps| - 1], id); }
  }

  // ---- where retained messages come from

  /** readLoop hands over what it parsed. */
  ghost predicate FromClient(m: Publish) {
    exists s: bytes :: IsBytes(s) && ParsePacket(s).Got? && ParsePacket(s).value == PublishPacket(m)
  }

  /** PublishWill hands over a packet it made of a will. */
  ghost predicate FromWill(m: Publish) {
    exists id: u16, topic, payload, qos: u8, retain :: m == NewPublish2(id, topic, payload, qos, false, retain)
  }

  /** No retained message carries a reply subject, so none is ever acknowledged to a publisher. */
  lemma RetainedHaveNoReply(history: seq<Publish>)
    requires forall m :: m in history ==> FromClient(m) || FromWill(m)
    ensures forall t :: t in Replay(history).msgs ==> Replay(history).msgs[t].replyTo == ""
  {
    StoreIsFold(history);
    forall t | t in Replay(history).msgs ensures Replay(history).msgs[t].replyTo == "" {
      var m := Replay(history).msgs[t];
      LastIsMember(history, t);
      hide ParsePacket;
      if FromClient(m) {
        var s: bytes :| IsBytes(s) && ParsePacket(s).Got? && ParsePacket(s).value == PublishPacket(m);
        ParsedIsWellFormed(s);
      }
    }
  }

  lemma {:induction false} LastIsMember(history: seq<Publish>, t: string)
    ensures LastRetained(history, t).Some? ==> LastRetained(history, t).value in history
  {
    if history != [] {
      LastIsMember(history[..|history| - 1], t);
    }
  }
}
