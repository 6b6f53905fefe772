// mqtt/pkg/idmanager.go: the packet id allocator.
module IdManager {
  import opened Basics

  const IDS := 65535

  /** The allocator's state: the cursor and the ids in flight. */
  datatype Ids = Ids(next: u16, inFlight: set<u16>)

  /** The id the cursor stands on after k increments from c that skip zero when the 16-bit counter flips over. */
  function At(c: u16, k: nat): (id: u16)
    requires c > 0 || k > 0
    ensures id != 0
  {
    (c - 1 + k) % IDS + 1
  }

  lemma AtNext(c: u16, k: nat)
    ensures var n := (c + 1) % 0x1_0000; At(c, 1) == if n == 0 then 1 else n
    ensures k > 0 ==> var n := (At(c, k) + 1) % 0x1_0000; At(c, k + 1) == if n == 0 then 1 else n
  {
  }

  ghost predicate HasFree(inFlight: set<u16>) {
    exists id: u16 :: id != 0 && id !in inFlight
  }

  /** The number of increments that take the cursor from c to id. */
  function Distance(c: u16, id: u16): (k: nat)
    requires id != 0
    ensures 1 <= k <= IDS && At(c, k) == id
  {
    var d := (id - c) % IDS;
    if d == 0 then IDS else d
  }

  lemma SomeFree(c: u16, inFlight: set<u16>)
    requires HasFree(inFlight)
    ensures exists k: nat :: 1 <= k <= IDS && At(c, k) !in inFlight
  {
    var id: u16 :| id != 0 && id !in inFlight;
    assert At(c, Distance(c, id)) !in inFlight;
  }

  /** The least k >= from whose id is free. */
  ghost function FreeFrom(c: u16, inFlight: set<u16>, from: nat): (k: nat)
    requires from >= 1 && exists j: nat :: from <= j <= IDS && At(c, j) !in inFlight
    ensures from <= k <= IDS && At(c, k) !in inFlight
    ensures forall j: nat :: from <= j < k ==> At(c, j) in inFlight
    decreases IDS - from
  {
    if At(c, from) !in inFlight then from else FreeFrom(c, inFlight, from + 1)
  }

  /** The cyclic distance from the cursor to the nearest free id. */
  ghost function Gap(s: Ids): (k: nat)
    requires HasFree(s.inFlight)
    ensures 1 <= k <= IDS && At(s.next, k) !in s.inFlight
    ensures forall j: nat :: 1 <= j < k ==> At(s.next, j) in s.inFlight
  {
    SomeFree(s.next, s.inFlight);
    FreeFrom(s.next, s.inFlight, 1)
  }

  ghost function Grant(s: Ids): u16
    requires HasFree(s.inFlight)
  {
    At(s.next, Gap(s))
  }

  class IDManager {
    var inFlight: set<u16>
    var nextFreePkgID: u16

    function State(): Ids
      reads this
    {
      Ids(nextFreePkgID, inFlight)
    }

    constructor ()
      ensures State() == Ids(1, {})
    {
      inFlight := {};
      nextFreePkgID := 1;
    }

    /** The search ends only if some id is free; the measure is the distance to the nearest one. */
    method NextFreePacketID() returns (id: u16)
      requires HasFree(inFlight)
      modifies this
      ensures id == Grant(old(State())) && id != 0 && id !in old(inFlight)
      ensures State() == Ids(id, old(inFlight) + {id})
    {
      ghost var start := State();
      ghost var k := 1;
      AtNext(start.next, 0);
      nextFreePkgID := (nextFreePkgID + 1) % 0x1_0000;
      if nextFreePkgID == 0 {
        nextFreePkgID := nextFreePkgID + 1;
      }
      while nextFreePkgID in inFlight
        invariant inFlight == start.inFlight
        invariant 1 <= k <= Gap(start) && nextFreePkgID == At(start.next, k)
        decreases Gap(start) - k
      {
        AtNext(start.next, k);
        nextFreePkgID := (nextFreePkgID + 1) % 0x1_0000;
        if nextFreePkgID == 0 {
          nextFreePkgID := nextFreePkgID + 1;
        }
        k := k + 1;
      }
      inFlight := inFlight + {nextFreePkgID};
      return nextFreePkgID;
    }

    method ReleasePacketID(id: u16)
      modifies this
      ensures State() == Ids(old(nextFreePkgID), old(inFlight) - {id})
    {
      inFlight := inFlight - {id};
    }
  }

  // ---- when the search ends

  function AllIds(n: u16): (ids: set<u16>)
    ensures forall id: u16 :: id in ids <==> 1 <= id <= n
    ensures |ids| == n
  {
    if n == 0 then {} else AllIds(n - 1) + {n}
  }

  lemma {:induction false} SubsetSize(a: set<u16>, b: set<u16>)
    requires a <= b
    ensures |a| <= |b| && (|a| == |b| ==> a == b)
  {
    if |a| > 0 {
      var x :| x in a;
      SubsetSize(a - {x}, b - {x});
      if |a| == |b| {
        assert a == (a - {x}) + {x} && b == (b - {x}) + {x};
      }
    }
  }

  lemma UsedAreAll(inFlight: set<u16>, all: set<u16>)
    requires forall id: u16 :: id in all <==> id != 0
    ensures HasFree(inFlight) <==> inFlight - {0} != all
  {
    if inFlight - {0} == all {
      forall id: u16 | id != 0 ensures id in inFlight { assert id in all; }
    } else {
      var id :| id in all && id !in inFlight - {0};
      assert id != 0 && id !in inFlight;
    }
  }

  lemma NotFull(inFlight: set<u16>, n: u16)
    requires n == IDS
    ensures HasFree(inFlight) <==> |inFlight - {0}| < n
  {
    UsedAreAll(inFlight, AllIds(n));
    SubsetSize(inFlight - {0}, AllIds(n));
  }

  /** An id is free exactly when fewer than 65535 non-zero ids are in flight. */
  lemma FreeIffNotFull(inFlight: set<u16>)
    ensures HasFree(inFlight) <==> |inFlight - {0}| < IDS
  {
    NotFull(inFlight, IDS);
  }

  // ---- runs

  datatype Op = Granted(id: u16) | Released(id: u16)

  ghost predicate Next(s: Ids, op: Op, t: Ids) {
    match op
    case Granted(id) => HasFree(s.inFlight) && id == Grant(s) && t == Ids(id, s.inFlight + {id})
    case Released(id) => t == Ids(s.next, s.inFlight - {id})
  }

  ghost predicate IsRun(ss: seq<Ids>, ops: seq<Op>) {
    |ss| == |ops| + 1 && forall i :: 0 <= i < |ops| ==> Next(ss[i], ops[i], ss[i + 1])
  }

  /** By the history alone: id was granted and not released since. */
  predicate Held(ops: seq<Op>, id: u16) {
    if ops == [] then false
    else
      var last := ops[|ops| - 1];
      if last.id == id then last.Granted? else Held(ops[..|ops| - 1], id)
  }

  lemma {:induction false} InFlightIsHeld(ss: seq<Ids>, ops: seq<Op>, n: nat)
    requires IsRun(ss, ops) && ss[0].inFlight == {} && n <= |ops|
    ensures forall id: u16 :: id in ss[n].inFlight <==> Held(ops[..n], id)
  {
    if n > 0 {
      InFlightIsHeld(ss, ops, n - 1);
      assert Next(ss[n - 1], ops[n - 1], ss[n]);
      assert ops[..n][..n - 1] == ops[..n - 1];
    }
  }

  /** Over any run that starts with nothing in flight: no granted id is zero or still held. */
  lemma GrantsAreFresh(ss: seq<Ids>, ops: seq<Op>, i: nat)
    requires IsRun(ss, ops) && ss[0].inFlight == {}
    requires i < |ops| && ops[i].Granted?
    ensures ops[i].id != 0 && !Held(ops[..i], ops[i].id)
  {
    InFlightIsHeld(ss, ops, i);
    assert Next(ss[i], ops[i], ss[i + 1]);
  }

  /** How far the cursor has moved when ops[i..k] are done. */
  ghost function Moved(ss: seq<Ids>, ops: seq<Op>, i: nat, k: nat): (d: nat)
    requires IsRun(ss, ops) && i <= k <= |ops|
    decreases k - i
  {
    if k == i then 0
    else
      assert Next(ss[k - 1], ops[k - 1], ss[k]);
      Moved(ss, ops, i, k - 1) + if ops[k - 1].Granted? then Gap(ss[k - 1]) else 0
  }

  lemma AtAt(c: u16, a: nat, b: nat)
    requires c > 0
    ensures At(At(c, a), b) == At(c, a + b)
  {
  }

  lemma {:induction false} CursorMoved(ss: seq<Ids>, ops: seq<Op>, i: nat, k: nat)
    requires IsRun(ss, ops) && i <= k <= |ops| && ss[i].next > 0
    ensures ss[k].next == At(ss[i].next, Moved(ss, ops, i, k))
    decreases k - i
  {
    if k > i {
      CursorMoved(ss, ops, i, k - 1);
      assert Next(ss[k - 1], ops[k - 1], ss[k]);
      if ops[k - 1].Granted? {
        AtAt(ss[i].next, Moved(ss, ops, i, k - 1), Gap(ss[k - 1]));
      }
    }
  }

  /** The cursor passed over x, which was in flight, on its way to the id granted by ops[k]. */
  ghost predicate PassedOver(ss: seq<Ids>, ops: seq<Op>, k: nat, x: u16)
    requires IsRun(ss, ops) && k < |ops|
  {
    ops[k].Granted? && x in ss[k].inFlight
    && HasFree(ss[k].inFlight) && exists d: nat :: 1 <= d < Gap(ss[k]) && At(ss[k].next, d) == x
  }

  lemma {:induction false} CursorCrosses(ss: seq<Ids>, ops: seq<Op>, i: nat, j: nat, d: nat) returns (k: nat)
    requires IsRun(ss, ops) && i <= j <= |ops| && ss[i].next > 0 && 1 <= d <= Moved(ss, ops, i, j)
    ensures i <= k < j
    ensures ops[k] == Granted(At(ss[i].next, d)) || PassedOver(ss, ops, k, At(ss[i].next, d))
    decreases j - i
  {
    var before := Moved(ss, ops, i, j - 1);
    if d <= before {
      k := CursorCrosses(ss, ops, i, j - 1, d);
    } else {
      k := j - 1;
      assert Next(ss[k], ops[k], ss[k + 1]);
      CursorMoved(ss, ops, i, k);
      AtAt(ss[i].next, before, d - before);
      assert At(ss[k].next, d - before) == At(ss[i].next, d);
    }
  }

  /**
   * Between two grants of one id, every other non-zero id was granted, or was in flight when the cursor
   * passed it (section 2.3.1 of MQTT 3.1.1: an id is reused as late as possible).
   */
  lemma ReuseIsLate(ss: seq<Ids>, ops: seq<Op>, i: nat, j: nat, x: u16) returns (k: nat)
    requires IsRun(ss, ops) && i < j < |ops|
    requires ops[i].Granted? && ops[j] == ops[i] && x != 0 && x != ops[i].id
    ensures i < k <= j
    ensures (ops[k] == Granted(x) && k < j) || PassedOver(ss, ops, k, x)
  {
    var id := ops[i].id;
    assert Next(ss[i], ops[i], ss[i + 1]) && Next(ss[j], ops[j], ss[j + 1]);
    CursorMoved(ss, ops, i + 1, j + 1);
    var d := Distance(id, x);
    k := CursorCrosses(ss, ops, i + 1, j + 1, d);
  }
}
