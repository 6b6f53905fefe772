// client.writeLoop: packets are taken from the queue in bulk and written with one write per bulk.
module WriteLoop {
  import opened Basics
  import opened Wire
  import opened Packets
  import opened CodecLaws
  import Codec

  const BULK: nat := 1024

  /** The packets in front of the first disconnect sentinel. */
  function UpToSentinel(ps: seq<Packet>): (r: seq<Packet>)
    ensures r <= ps && Disconnect !in r
    ensures Disconnect !in ps ==> r == ps
    ensures Disconnect in ps ==> |r| < |ps| && ps[|r|] == Disconnect
  {
    if ps == [] || ps[0] == Disconnect then [] else [ps[0]] + UpToSentinel(ps[1..])
  }

  lemma {:induction false} UpToAppend(a: seq<Packet>, b: seq<Packet>)
    ensures UpToSentinel(a + b) == if Disconnect in a then UpToSentinel(a) else a + UpToSentinel(b)
  {
    if a == [] {
      assert a + b == b;
    } else {
      assert (a + b)[1..] == a[1..] + b;
      UpToAppend(a[1..], b);
      assert Disconnect in a <==> a[0] == Disconnect || Disconnect in a[1..];
    }
  }

  /** Writing in bulk or one at a time gives the same bytes. */
  lemma {:induction false} EncodeAllAppend(a: seq<Packet>, b: seq<Packet>)
    requires AllWritable(a) && AllWritable(b)
    ensures AllWritable(a + b) && EncodeAll(a + b) == EncodeAll(a) + EncodeAll(b)
  {
    hide Encode, Writable;
    if a == [] {
      assert a + b == b;
    } else {
      assert (a + b)[1..] == a[1..] + b;
      EncodeAllAppend(a[1..], b);
    }
  }

  lemma {:induction false} SentinelAt(ps: seq<Packet>, n: nat)
    requires n < |ps| && ps[n] == Disconnect && Disconnect !in ps[..n]
    ensures UpToSentinel(ps) == ps[..n]
  {
    if n > 0 {
      assert ps[0] in ps[..n] && ps[1..][..n - 1] == ps[..n][1..];
      SentinelAt(ps[1..], n - 1);
    }
  }

  class Connection {
    var sent: bytes

    /** A write that the network takes or refuses. */
    method Write(bs: bytes, ok: bool)
      modifies this
      ensures sent == if ok then old(sent) + bs else old(sent)
    {
      if ok { sent := sent + bs; }
    }
  }

  /** The body of one bulk: every packet up to a sentinel is written to the buffer. */
  method WriteBulk(bulk: array<Packet>, i: nat, w: Writer) returns (connected: bool)
    requires i <= bulk.Length && AllWritable(bulk[..i])
    modifies w
    ensures AllWritable(UpToSentinel(bulk[..i])) && w.buf == EncodeAll(UpToSentinel(bulk[..i]))
    ensures connected <==> Disconnect !in bulk[..i]
  {
    hide Encode, Writable, UpToSentinel;
    w.Reset();
    connected := true;
    var n := 0;
    while n < i
      invariant n <= i && AllWritable(bulk[..n]) && w.buf == EncodeAll(bulk[..n])
      invariant Disconnect !in bulk[..n]
      invariant connected
    {
      var p := bulk[n];
      assert p in bulk[..i];
      assert bulk[..n + 1] == bulk[..n] + [p];
      if p == Disconnect {
        SentinelAt(bulk[..i], n);
        assert bulk[..i][..n] == bulk[..n];
        connected := false;
        return;
      }
      Codec.WritePacket(p, w);
      assert [p][1..] == [] && EncodeAll([p]) == Encode(p);
      EncodeAllAppend(bulk[..n], [p]);
      n := n + 1;
    }
  }

  datatype Outcome = Waiting | Ended | Failed

  /** What one more bulk adds to the packets written so far. */
  lemma OneBulk(queue: seq<Packet>, from: nat, to: nat)
    requires from <= to <= |queue| && AllWritable(queue) && Disconnect !in queue[..from]
    ensures var items := queue[from..to];
            && AllWritable(queue[..from]) && AllWritable(UpToSentinel(queue[..to])) && AllWritable(UpToSentinel(items))
            && EncodeAll(UpToSentinel(queue[..to])) == EncodeAll(queue[..from]) + EncodeAll(UpToSentinel(items))
            && (Disconnect in queue[..to] <==> Disconnect in items)
            && (Disconnect in items ==> UpToSentinel(queue[..to]) == UpToSentinel(queue) && Disconnect in queue)
  {
    hide Encode, Writable, EncodeAll, UpToSentinel;
    BulkSplit(queue, from, to);
    SliceWritable(queue, 0, from);
    SliceWritable(queue, from, to);
    EncodeAllAppend(queue[..from], UpToSentinel(queue[from..to]));
  }

  lemma PartsSplit(a: seq<Packet>, b: seq<Packet>, c: seq<Packet>)
    requires Disconnect !in a
    ensures UpToSentinel(a + b) == a + UpToSentinel(b)
    ensures Disconnect in a + b <==> Disconnect in b
    ensures Disconnect in b ==> UpToSentinel(a + b) == UpToSentinel(a + b + c) && Disconnect in a + b + c
  {
    hide UpToSentinel;
    UpToAppend(a, b);
    UpToAppend(a + b, c);
  }

  lemma InThree<T>(s: seq<T>, from: nat, to: nat)
    requires from <= to <= |s|
    ensures s[..to] == s[..from] + s[from..to] && s == s[..from] + s[from..to] + s[to..]
  {
  }

  lemma BulkSplit(queue: seq<Packet>, from: nat, to: nat)
    requires from <= to <= |queue| && Disconnect !in queue[..from]
    ensures var items := queue[from..to];
            && UpToSentinel(queue[..to]) == queue[..from] + UpToSentinel(items)
            && (Disconnect in queue[..to] <==> Disconnect in items)
            && (Disconnect in items ==> UpToSentinel(queue[..to]) == UpToSentinel(queue) && Disconnect in queue)
  {
    hide UpToSentinel;
    InThree(queue, from, to);
    PartsSplit(queue[..from], queue[from..to], queue[to..]);
  }

  /** One packet, then as many more as are ready, as there are, and as the bulk has room for. */
  function BulkSize(left: nat, ready: nat): (n: nat)
    requires left > 0
    ensures 1 <= n <= left && n <= 1 + ready && n <= 1024 && (n == left || n == 1 + ready || n == 1024)
  {
    if 1 + ready <= left && 1 + ready <= BULK then 1 + ready else if left <= BULK then left else BULK
  }

  /** The writes so far end at cuts[1], cuts[2], and so on, each a whole bulk that the network took, if it was not empty. */
  predicate WholeBulks(queue: seq<Packet>, ready: seq<nat>, oks: seq<bool>, cuts: seq<nat>) {
    && |cuts| >= 1 && cuts[0] == 0 && |cuts| - 1 <= |ready| == |oks|
    && forall k :: 0 <= k < |cuts| - 1 ==>
         && cuts[k] < |queue| && cuts[k + 1] == cuts[k] + BulkSize(|queue| - cuts[k], ready[k])
         && (oks[k] || queue[cuts[k]] == Disconnect)
  }

  /** A bulk has something to be written exactly when it does not start with the sentinel. */
  lemma EmptyBulk(items: seq<Packet>)
    requires items != [] && AllWritable(UpToSentinel(items))
    ensures EncodeAll(UpToSentinel(items)) == [] <==> items[0] == Disconnect
  {
    hide Encode, Writable;
    if items[0] != Disconnect {
      NonEmpty(items[0]);
    }
  }

  /** The bytes of the first n packets, up to a sentinel among them. */
  ghost function BytesOf(queue: seq<Packet>, n: nat): bytes
    requires AllWritable(queue) && n <= |queue|
  {
    WritablePrefix(queue, n);
    EncodeAll(UpToSentinel(queue[..n]))
  }

  lemma WritablePrefix(queue: seq<Packet>, n: nat)
    requires AllWritable(queue) && n <= |queue|
    ensures AllWritable(UpToSentinel(queue[..n]))
  {
    var up := UpToSentinel(queue[..n]);
    assert forall i :: 0 <= i < |up| ==> up[i] == queue[i];
  }

  /** What the outcome says about the point that the writes have reached. */
  predicate Reached(queue: seq<Packet>, oks: seq<bool>, cuts: seq<nat>, outcome: Outcome) {
    |cuts| >= 1 &&
    var k := |cuts| - 1;
    var n := cuts[k];
    n <= |queue| &&
    match outcome
    case Waiting => Disconnect !in queue[..n] && (n == |queue| || k == |oks|)
    case Failed => Disconnect !in queue[..n] && n < |queue| && queue[n] != Disconnect && k < |oks| && !oks[k]
    case Ended => k > 0 && cuts[k - 1] <= n && Disconnect !in queue[..cuts[k - 1]] && Disconnect in queue[cuts[k - 1]..n]
  }

  /** Nothing behind the first sentinel is ever written, so a loop that ended has written all there was to write. */
  lemma EndedHasWrittenAll(queue: seq<Packet>, oks: seq<bool>, cuts: seq<nat>)
    requires AllWritable(queue) && Reached(queue, oks, cuts, Ended)
    ensures BytesOf(queue, cuts[|cuts| - 1]) == BytesOf(queue, |queue|)
  {
    hide EncodeAll, AllWritable, UpToSentinel;
    var k := |cuts| - 1;
    BulkSplit(queue, cuts[k - 1], cuts[k]);
    assert queue[..|queue|] == queue;
  }

  /**
   * queue is every packet ever queued, in order; ready[k] is how many more packets the k-th bulk finds without
   * waiting; oks[k] is whether its write succeeds. The loop waits where the queue or the schedule ends.
   */
  method Run(queue: seq<Packet>, ready: seq<nat>, oks: seq<bool>, conn: Connection)
    returns (outcome: Outcome, ghost cuts: seq<nat>)
    requires |ready| == |oks| && AllWritable(queue)
    modifies conn
    ensures WholeBulks(queue, ready, oks, cuts) && Reached(queue, oks, cuts, outcome)
    ensures conn.sent == old(conn.sent) + BytesOf(queue, cuts[|cuts| - 1])
  {
    hide Encode, Writable, AllWritable, EncodeAll, UpToSentinel, BulkSize, BytesOf, WholeBulks, Reached;
    var bulk := new Packet[BULK](_ => PingRequest);
    var w := new Writer();
    var written, k := 0, 0;
    outcome := Waiting;
    cuts := [0];
    NothingYet(queue, ready, oks);
    while written < |queue| && k < |ready|
      invariant k == |cuts| - 1 <= |ready| && cuts[k] == written <= |queue|
      invariant WholeBulks(queue, ready, oks, cuts) && Disconnect !in queue[..written]
      invariant outcome == Waiting
      invariant conn.sent == old(conn.sent) + BytesOf(queue, written)
      invariant bulk.Length == BULK && fresh(bulk) && fresh(w)
      decreases |ready| - k
    {
      var i := Fill(queue, written, ready[k], bulk);
      NextBulk(queue, written, written + i);
      var connected := WriteBulk(bulk, i, w);
      if |w.buf| > 0 {
        conn.Write(w.buf, oks[k]);
        if !oks[k] {
          outcome := Failed;
          FailedHere(queue, oks, cuts);
          return;
        }
      }
      MoreCuts(queue, ready, oks, cuts);
      written := written + i;
      cuts := cuts + [written];
      if !connected {
        outcome := Ended;
        EndedHere(queue, oks, cuts);
        return;
      }
      k := k + 1;
    }
    WaitingHere(queue, oks, cuts);
  }

  lemma FailedHere(queue: seq<Packet>, oks: seq<bool>, cuts: seq<nat>)
    requires |cuts| >= 1 && var k := |cuts| - 1; cuts[k] < |queue| && k < |oks| && !oks[k]
    requires var n := cuts[|cuts| - 1]; Disconnect !in queue[..n] && queue[n] != Disconnect
    ensures Reached(queue, oks, cuts, Failed)
  {
  }

  lemma EndedHere(queue: seq<Packet>, oks: seq<bool>, cuts: seq<nat>)
    requires |cuts| >= 2 && var k := |cuts| - 1; cuts[k - 1] <= cuts[k] <= |queue|
    requires var k := |cuts| - 1; Disconnect !in queue[..cuts[k - 1]] && Disconnect in queue[cuts[k - 1]..cuts[k]]
    ensures Reached(queue, oks, cuts, Ended)
  {
  }

  lemma WaitingHere(queue: seq<Packet>, oks: seq<bool>, cuts: seq<nat>)
    requires |cuts| >= 1 && cuts[|cuts| - 1] <= |queue| && Disconnect !in queue[..cuts[|cuts| - 1]]
    requires cuts[|cuts| - 1] == |queue| || |cuts| - 1 == |oks|
    ensures Reached(queue, oks, cuts, Waiting)
  {
  }

  lemma NothingYet(queue: seq<Packet>, ready: seq<nat>, oks: seq<bool>)
    requires AllWritable(queue) && |ready| == |oks|
    ensures BytesOf(queue, 0) == [] && WholeBulks(queue, ready, oks, [0])
  {
  }

  lemma MoreCuts(queue: seq<Packet>, ready: seq<nat>, oks: seq<bool>, cuts: seq<nat>)
    requires WholeBulks(queue, ready, oks, cuts)
    requires var k := |cuts| - 1; k < |ready| && cuts[k] < |queue| && (oks[k] || queue[cuts[k]] == Disconnect)
    ensures var k := |cuts| - 1; WholeBulks(queue, ready, oks, cuts + [cuts[k] + BulkSize(|queue| - cuts[k], ready[k])])
  {
    hide BulkSize;
  }

  /** What the next bulk adds to the bytes, and when it adds none. */
  lemma NextBulk(queue: seq<Packet>, from: nat, to: nat)
    requires from < to <= |queue| && AllWritable(queue) && Disconnect !in queue[..from]
    ensures var items := queue[from..to];
            && AllWritable(items) && AllWritable(UpToSentinel(items))
            && BytesOf(queue, to) == BytesOf(queue, from) + EncodeAll(UpToSentinel(items))
            && (EncodeAll(UpToSentinel(items)) == [] <==> queue[from] == Disconnect)
            && (Disconnect in queue[..to] <==> Disconnect in items)
  {
    hide Encode, Writable, AllWritable, EncodeAll, UpToSentinel;
    OneBulk(queue, from, to);
    NoSentinel(queue[..from]);
    SliceWritable(queue, from, to);
    EmptyBulk(queue[from..to]);
  }

  lemma NoSentinel(ps: seq<Packet>)
    requires Disconnect !in ps
    ensures UpToSentinel(ps) == ps
  {
  }

  lemma SliceWritable(queue: seq<Packet>, from: nat, to: nat)
    requires AllWritable(queue) && from <= to <= |queue|
    ensures AllWritable(queue[from..to])
  {
  }

  /** The bulk is the next packets of the queue. */
  method Fill(queue: seq<Packet>, from: nat, ready: nat, bulk: array<Packet>) returns (i: nat)
    requires from < |queue| && bulk.Length == BULK
    modifies bulk
    ensures i == BulkSize(|queue| - from, ready) && bulk[..i] == queue[from..from + i]
  {
    bulk[0] := queue[from];
    i := 1;
    while i < BULK && i <= ready && from + i < |queue|
      invariant 1 <= i <= BULK && from + i <= |queue| && i <= 1 + ready
      invariant bulk[..i] == queue[from..from + i]
    {
      bulk[i] := queue[from + i];
      i := i + 1;
    }
  }
}
