// Nothing that passed queueForWrite's check is lost on its way to the queue, and the ends of a connection are seen.
module Replies {
  import opened Basics
  import opened Packets
  import opened CodecLaws
  import opened Clients
  import opened WriteLoop
  import opened LifeCycle
  import opened LifeCycleLaws
  import Wills

  // ---- conservation

  /** What passes the check in this step: a handler's or a callback's packet, while the state is Connected. */
  function Passing(s: State, step: Step): seq<Packet> {
    if s.st != Connected then []
    else if step.OnLoop? && step.l.CheckReply? then [step.l.p]
    else if step.OnOther? && step.o.CallbackChecks? then [step.o.p]
    else []
  }

  /** Everything that passed the check in the first n steps. */
  function Passed(ss: seq<State>, steps: seq<Step>, n: nat): multiset<Packet>
    requires |ss| == |steps| + 1 && n <= |steps|
  {
    if n == 0 then multiset{} else Passed(ss, steps, n - 1) + multiset(Passing(ss[n - 1], steps[n - 1]))
  }

  /** The handlers' and callbacks' packets in a queue. */
  function RepliesIn(queue: seq<Packet>): multiset<Packet> {
    if queue == [] then multiset{}
    else
      var n := |queue| - 1;
      RepliesIn(queue[..n]) + Counted(queue[n..])
  }

  /** The first packet, if it is a reply. */
  function Counted(ps: seq<Packet>): multiset<Packet> { if ps != [] && IsReply(ps[0]) then multiset{ps[0]} else multiset{} }

  /** What the reader holds between the check and the send. */
  function Held(r: Reader): seq<Packet> {
    if (r.Resuming? || r.Handling?) && r.pending.Some? then [r.pending.value] else []
  }

  function InHand(s: State): multiset<Packet> { multiset(s.callbacks) + multiset(Held(s.reader)) }

  lemma RepliesGrow(queue: seq<Packet>, p: Packet)
    ensures RepliesIn(queue + [p]) == RepliesIn(queue) + Counted([p])
  {
    assert (queue + [p])[..|queue|] == queue && (queue + [p])[|queue|..] == [p];
  }

  /** From s to t, the packets of passing are new, and nothing else came or went. */
  predicate Keeps(s: State, t: State, passing: seq<Packet>) {
    RepliesIn(t.queue) + InHand(t) == RepliesIn(s.queue) + InHand(s) + multiset(passing)
  }

  /** How a step changes the three places where a packet can be. */
  predicate Moves(s: State, t: State, added: seq<Packet>, callbacks: seq<Packet>, held: seq<Packet>) {
    t.queue == s.queue + added && t.callbacks == callbacks && Held(t.reader) == held
  }

  lemma Regrouped<T>(x: multiset<T>, g: multiset<T>, a: multiset<T>, b: multiset<T>, c: multiset<T>, d: multiset<T>, e: multiset<T>)
    requires g + a + b == c + d + e
    ensures (x + g) + (a + b) == x + (c + d) + e
  {
    assert (x + g) + (a + b) == x + (g + a + b);
    assert x + (c + d + e) == x + (c + d) + e;
  }

  lemma MovedKeeps(s: State, t: State, added: seq<Packet>, callbacks: seq<Packet>, held: seq<Packet>, passing: seq<Packet>)
    requires Moves(s, t, added, callbacks, held) && |added| <= 1
    requires Counted(added) + multiset(callbacks) + multiset(held)
          == multiset(s.callbacks) + multiset(Held(s.reader)) + multiset(passing)
    ensures Keeps(s, t, passing)
  {
    hide RepliesIn, IsReply, Held;
    if added == [] {
      assert s.queue + added == s.queue;
    } else {
      assert added == [added[0]];
      RepliesGrow(s.queue, added[0]);
    }
    assert RepliesIn(t.queue) == RepliesIn(s.queue) + Counted(added);
    Regrouped(RepliesIn(s.queue), Counted(added), multiset(callbacks), multiset(held), multiset(s.callbacks), multiset(Held(s.reader)), multiset(passing));
  }

  function ConnectAdds(s: State, step: ConnectStep): seq<Packet> {
    if step.SendConnAck? then [ConnAck(step.flags, 0)]
    else if step.SendRefusal? && s.reader.Refusing? then [ConnAck(0, s.reader.code)] else []
  }

  lemma ConnectQueue(s: State, step: ConnectStep)
    requires ConnectEnabled(s, step)
    ensures ApplyConnect(s, step).queue == s.queue + ConnectAdds(s, step)
  {
    hide HasRoom;
    match step
    case SendConnAck(_) =>
    case SendRefusal =>
    case _ => assert s.queue + [] == s.queue;
  }

  lemma ConnectCallbacks(s: State, step: ConnectStep)
    requires ConnectEnabled(s, step)
    ensures ApplyConnect(s, step).callbacks == s.callbacks
  {
    hide HasRoom;
    match step
    case SendConnAck(_) =>
    case _ =>
  }

  lemma ConnectHolds(s: State, step: ConnectStep)
    requires ConnectEnabled(s, step)
    ensures Held(ApplyConnect(s, step).reader) == Held(s.reader)
  {
    hide HasRoom;
    match step
    case CheckConnAck =>
    case SendConnAck(_) =>
    case _ =>
  }

  lemma ConnectKeeps(s: State, step: ConnectStep)
    requires ConnectEnabled(s, step)
    ensures Keeps(s, ApplyConnect(s, step), [])
  {
    hide ApplyConnect, ConnectEnabled, Keeps, Held;
    ConnectQueue(s, step);
    ConnectCallbacks(s, step);
    ConnectHolds(s, step);
    MovedKeeps(s, ApplyConnect(s, step), ConnectAdds(s, step), s.callbacks, Held(s.reader), []);
  }

  function LoopAdds(s: State, step: LoopStep): seq<Packet> { if step.SendReply? then Held(s.reader) else [] }

  function LoopLeaves(s: State, step: LoopStep): seq<Packet> {
    if step.SendReply? then [] else if step.CheckReply? && s.st == Connected then [step.p] else Held(s.reader)
  }

  lemma LoopQueue(s: State, step: LoopStep)
    requires LoopEnabled(s, step)
    ensures ApplyLoop(s, step).queue == s.queue + LoopAdds(s, step)
  {
    hide HasRoom, IsReply;
    match step
    case SendReply =>
    case ReaderCloses =>
    case _ => assert s.queue + [] == s.queue;
  }

  lemma LoopCallbacks(s: State, step: LoopStep)
    requires LoopEnabled(s, step)
    ensures ApplyLoop(s, step).callbacks == s.callbacks
  {
    hide HasRoom, IsReply;
    match step
    case SendReply =>
    case ReaderCloses =>
    case _ =>
  }

  lemma OthersHold(s: State, step: LoopStep)
    requires LoopEnabled(s, step) && !step.SendReply? && !step.CheckReply?
    ensures Held(ApplyLoop(s, step).reader) == Held(s.reader)
  {
    hide HasRoom, IsReply, Claim;
    match step
    case LoopHead =>
    case ReaderCloses =>
    case HandlerReturns(_) =>
    case _ =>
  }

  lemma SendHolds(s: State)
    requires LoopEnabled(s, SendReply)
    ensures Held(ApplyLoop(s, SendReply).reader) == []
  {
    hide HasRoom, IsReply;
  }

  lemma CheckHolds(s: State, p: Packet)
    requires LoopEnabled(s, CheckReply(p))
    ensures Held(ApplyLoop(s, CheckReply(p)).reader) == if s.st == Connected then [p] else Held(s.reader)
  {
    hide HasRoom, IsReply;
  }

  lemma LoopHolds(s: State, step: LoopStep)
    requires LoopEnabled(s, step)
    ensures Held(ApplyLoop(s, step).reader) == LoopLeaves(s, step)
  {
    hide ApplyLoop, LoopEnabled, Held;
    match step
    case SendReply => SendHolds(s);
    case CheckReply(p) => CheckHolds(s, p);
    case _ => OthersHold(s, step);
  }

  lemma ReaderHolds(s: State)
    requires ReaderInv(s)
    ensures forall p :: p in Held(s.reader) ==> IsReply(p)
  {
    hide Quiet, Settled, Answered;
  }

  lemma OneHeld(s: State, step: LoopStep)
    requires LoopEnabled(s, step)
    ensures |Held(s.reader)| <= 1 && (step.CheckReply? ==> Held(s.reader) == [])
    ensures step.SendReply? ==> |Held(s.reader)| == 1
  {
    hide HasRoom, IsReply;
  }

  lemma LoopKeeps(s: State, step: LoopStep)
    requires ReaderInv(s) && LoopEnabled(s, step)
    ensures Keeps(s, ApplyLoop(s, step), Passing(s, OnLoop(step)))
  {
    hide ApplyLoop, LoopEnabled, Keeps, Held, ReaderInv, IsReply;
    ReaderHolds(s);
    OneHeld(s, step);
    LoopQueue(s, step);
    LoopCallbacks(s, step);
    LoopHolds(s, step);
    if step.SendReply? {
      assert Held(s.reader)[0] in Held(s.reader);
      assert Held(s.reader) == [Held(s.reader)[0]];
    }
    MovedKeeps(s, ApplyLoop(s, step), LoopAdds(s, step), s.callbacks, LoopLeaves(s, step), Passing(s, OnLoop(step)));
  }

  function OtherAdds(s: State, step: OtherStep): seq<Packet> {
    if step.CallbackSends? && step.i < |s.callbacks| then [s.callbacks[step.i]] else if step.SendSentinel? then [Disconnect] else []
  }

  function OtherLeaves(s: State, step: OtherStep): seq<Packet> {
    if step.CallbackSends? && step.i < |s.callbacks| then s.callbacks[..step.i] + s.callbacks[step.i + 1..]
    else if step.CallbackChecks? && s.st == Connected then s.callbacks + [step.p]
    else s.callbacks
  }

  lemma OtherQueue(s: State, step: OtherStep)
    requires OtherEnabled(s, step)
    ensures ApplyOther(s, step).queue == s.queue + OtherAdds(s, step)
  {
    hide HasRoom, IsReply;
    match step
    case Drain =>
    case CallbackSends(_) =>
    case SendSentinel =>
    case _ => assert s.queue + [] == s.queue;
  }

  lemma OtherCallbacks(s: State, step: OtherStep)
    requires OtherEnabled(s, step)
    ensures ApplyOther(s, step).callbacks == OtherLeaves(s, step)
  {
    hide HasRoom, IsReply;
    match step
    case Drain =>
    case CallbackSends(_) =>
    case CallbackChecks(_) =>
    case _ =>
  }

  lemma CutOne<T>(s: seq<T>, i: nat)
    requires i < |s|
    ensures multiset(s) == multiset(s[..i] + s[i + 1..]) + multiset{s[i]}
  {
    assert s == s[..i] + [s[i]] + s[i + 1..];
  }

  lemma CallbackIsReply(s: State, step: OtherStep)
    requires OthersInv(s) && OtherEnabled(s, step) && step.CallbackSends?
    ensures step.i < |s.callbacks| && IsReply(s.callbacks[step.i])
  {
    hide Settled, Answered, HasRoom;
  }

  lemma OneAdded(s: State, step: OtherStep)
    ensures |OtherAdds(s, step)| <= 1
  {
  }

  lemma SendBalance<T>(c: seq<T>, i: nat, held: multiset<T>)
    requires i < |c|
    ensures multiset{c[i]} + multiset(c[..i] + c[i + 1..]) + held == multiset(c) + held + multiset([])
  {
    CutOne(c, i);
  }

  lemma CheckBalance<T>(c: seq<T>, ps: seq<T>, held: multiset<T>)
    ensures multiset{} + multiset(c + ps) + held == multiset(c) + held + multiset(ps)
  {
  }

  lemma NoneCounted(s: State, step: OtherStep)
    requires !step.CallbackSends?
    ensures Counted(OtherAdds(s, step)) == multiset{}
  {
  }

  lemma CallbacksGrow(s: State, step: OtherStep)
    requires !step.CallbackSends?
    ensures OtherLeaves(s, step) == s.callbacks + Passing(s, OnOther(step))
  {
    assert s.callbacks + [] == s.callbacks;
  }

  lemma OneSent(s: State, step: OtherStep)
    requires step.CallbackSends? && step.i < |s.callbacks| && IsReply(s.callbacks[step.i])
    ensures Counted(OtherAdds(s, step)) == multiset{s.callbacks[step.i]} && Passing(s, OnOther(step)) == []
    ensures OtherLeaves(s, step) == s.callbacks[..step.i] + s.callbacks[step.i + 1..]
  {
    hide IsReply;
  }

  /** The queue gains what the callbacks lose, and they gain what passes the check. */
  lemma OthersBalance(s: State, step: OtherStep)
    requires step.CallbackSends? ==> step.i < |s.callbacks| && IsReply(s.callbacks[step.i])
    ensures Counted(OtherAdds(s, step)) + multiset(OtherLeaves(s, step)) + multiset(Held(s.reader))
         == multiset(s.callbacks) + multiset(Held(s.reader)) + multiset(Passing(s, OnOther(step)))
  {
    hide Held, Counted, OtherAdds, OtherLeaves, Passing, IsReply;
    if step.CallbackSends? {
      OneSent(s, step);
      SendBalance(s.callbacks, step.i, multiset(Held(s.reader)));
    } else {
      NoneCounted(s, step);
      CallbacksGrow(s, step);
      CheckBalance(s.callbacks, Passing(s, OnOther(step)), multiset(Held(s.reader)));
    }
  }

  lemma OtherKeeps(s: State, step: OtherStep)
    requires OthersInv(s) && OtherEnabled(s, step)
    ensures Keeps(s, ApplyOther(s, step), Passing(s, OnOther(step)))
  {
    hide ApplyOther, OtherEnabled, Keeps, Held, OthersInv, OtherAdds, OtherLeaves, IsReply, Passing;
    OtherQueue(s, step);
    OtherCallbacks(s, step);
    ReaderIsLeft(s, step);
    if step.CallbackSends? {
      CallbackIsReply(s, step);
    }
    OneAdded(s, step);
    OthersBalance(s, step);
    MovedKeeps(s, ApplyOther(s, step), OtherAdds(s, step), OtherLeaves(s, step), Held(s.reader), Passing(s, OnOther(step)));
  }

  lemma WriterKeeps(s: State, u: State)
    requires WriterOnly(s, u)
    ensures Keeps(s, u, []) && Keeps(s, Claim(u), [])
  {
    hide RepliesIn;
  }

  lemma StepKeeps(s: State, step: Step)
    requires ReaderInv(s) && OthersInv(s) && Enabled(s, step) && WritableBulk(s)
    ensures Keeps(s, Apply(s, step), Passing(s, step))
  {
    hide ReaderInv, OthersInv, ConnectEnabled, ApplyConnect, LoopEnabled, ApplyLoop, WriterEnabled, ApplyWriter, OtherEnabled, ApplyOther,
      Keeps, WriterOnly, WritableBulk;
    match step
    case OnConnect(c) => ConnectKeeps(s, c);
    case OnLoop(l) => LoopKeeps(s, l);
    case OnWrite(w) => var u := WriterTouches(s, w); WriterKeeps(s, u);
    case OnOther(o) => OtherKeeps(s, o);
  }

  /**
   * In every interleaving: what found the state Connected when it was to be queued, counted with repetitions, is what
   * handlers and callbacks have put on the queue, what the callbacks are about to send, and what the reader is about to send.
   */
  lemma {:induction false} RepliesAreKept(ss: seq<State>, steps: seq<Step>, n: nat)
    requires IsRun(ss, steps) && n < |ss|
    ensures |ss| == |steps| + 1
    ensures Passed(ss, steps, n) == RepliesIn(ss[n].queue) + multiset(ss[n].callbacks) + multiset(Held(ss[n].reader))
  {
    hide ReaderInv, OthersInv, CountsInv, WillInv, DoneInv, QueueInv, WriterInv, BytesInv, Enabled, Apply, WritableBulk, RepliesIn, Passing, Held;
    if n == 0 {
      NothingHeld();
    } else {
      RepliesAreKept(ss, steps, n - 1);
      RunKeepsInv(ss, steps, n - 1);
      StepKeeps(ss[n - 1], steps[n - 1]);
      var s, t := ss[n - 1], ss[n];
      Associated(RepliesIn(s.queue), multiset(s.callbacks), multiset(Held(s.reader)), multiset(Passing(s, steps[n - 1])));
      Associated(RepliesIn(t.queue), multiset(t.callbacks), multiset(Held(t.reader)), multiset{});
    }
  }

  lemma Associated<T>(x: multiset<T>, a: multiset<T>, b: multiset<T>, c: multiset<T>)
    ensures x + (a + b) + c == x + a + b + c && x + a + b + multiset{} == x + a + b
  {
  }

  lemma NothingHeld()
    ensures RepliesIn(Init().queue) == multiset{} && Init().callbacks == [] && Held(Init().reader) == []
  {
  }

  // ---- order

  /** The packets of the reader that passed the check, in order. */
  function ReaderPassed(ss: seq<State>, steps: seq<Step>, n: nat): seq<Packet>
    requires |ss| == |steps| + 1 && n <= |steps|
  {
    if n == 0 then [] else ReaderPassed(ss, steps, n - 1) + if steps[n - 1].OnLoop? then Passing(ss[n - 1], steps[n - 1]) else []
  }

  /** The packets stand in the queue at these places, one behind the other. */
  predicate StandAt(queue: seq<Packet>, places: seq<nat>, ps: seq<Packet>) {
    && |places| == |ps| && (forall k :: 0 <= k < |places| ==> places[k] < |queue| && queue[places[k]] == ps[k])
    && forall j, k :: 0 <= j < k < |places| ==> places[j] < places[k]
  }

  lemma StepQueues(s: State, step: Step) returns (added: seq<Packet>)
    requires Enabled(s, step) && WritableBulk(s)
    ensures Apply(s, step).queue == s.queue + added
    ensures step.OnLoop? ==> added == LoopAdds(s, step.l) && Held(Apply(s, step).reader) == LoopLeaves(s, step.l)
    ensures !step.OnLoop? ==> Held(Apply(s, step).reader) == Held(s.reader)
  {
    hide ConnectEnabled, ApplyConnect, LoopEnabled, ApplyLoop, WriterEnabled, ApplyWriter, OtherEnabled, ApplyOther, Held, WritableBulk;
    added := [];
    match step
    case OnConnect(c) =>
      ConnectQueue(s, c);
      ConnectHolds(s, c);
      added := ConnectAdds(s, c);
    case OnLoop(l) =>
      LoopQueue(s, l);
      LoopHolds(s, l);
      added := LoopAdds(s, l);
    case OnWrite(w) =>
      var u := WriterTouches(s, w);
      assert s.queue + [] == s.queue;
    case OnOther(o) =>
      OtherQueue(s, o);
      ReaderIsLeft(s, o);
      added := OtherAdds(s, o);
  }

  lemma StandLonger(queue: seq<Packet>, added: seq<Packet>, places: seq<nat>, ps: seq<Packet>)
    requires StandAt(queue, places, ps)
    ensures StandAt(queue + added, places, ps)
    ensures |added| == 1 ==> StandAt(queue + added, places + [|queue|], ps + added)
  {
  }

  /** The reader's own packets stand in the queue in the order in which they passed the check; one may still be held. */
  lemma {:induction false} ReaderKeepsOrder(ss: seq<State>, steps: seq<Step>, n: nat) returns (places: seq<nat>, sent: seq<Packet>)
    requires IsRun(ss, steps) && n < |ss|
    ensures |ss| == |steps| + 1 && StandAt(ss[n].queue, places, sent)
    ensures ReaderPassed(ss, steps, n) == sent + Held(ss[n].reader)
  {
    hide Enabled, Apply, WritableBulk, Passing, Held, StandAt, LoopAdds, LoopLeaves;
    if n == 0 {
      places, sent := [], [];
      NothingHeld();
      NoneStand(ss[0].queue);
    } else {
      places, sent := ReaderKeepsOrder(ss, steps, n - 1);
      var added := StepQueues(ss[n - 1], steps[n - 1]);
      StandLonger(ss[n - 1].queue, added, places, sent);
      if steps[n - 1].OnLoop? {
        StepOrders(ss[n - 1], steps[n - 1].l);
        InTurn(sent, Held(ss[n - 1].reader), Passing(ss[n - 1], steps[n - 1]), added, Held(ss[n].reader));
        if steps[n - 1].l.SendReply? {
          places, sent := places + [|ss[n - 1].queue|], sent + added;
        }
      } else {
        assert ReaderPassed(ss, steps, n - 1) + [] == ReaderPassed(ss, steps, n - 1);
      }
    }
  }

  lemma InTurn<T>(sent: seq<T>, held: seq<T>, passing: seq<T>, added: seq<T>, left: seq<T>)
    requires held + passing == added + left
    ensures (sent + held) + passing == (sent + added) + left && (added == [] ==> sent + added == sent)
  {
    assert (sent + held) + passing == sent + (held + passing);
    assert sent + (added + left) == (sent + added) + left;
  }

  lemma NoneStand(queue: seq<Packet>)
    ensures StandAt(queue, [], [])
  {
  }

  /** What the reader held and what passes now is what it sends now and what it holds then. */
  lemma StepOrders(s: State, step: LoopStep)
    requires Enabled(s, OnLoop(step))
    ensures Held(s.reader) + Passing(s, OnLoop(step)) == LoopAdds(s, step) + LoopLeaves(s, step)
    ensures |LoopAdds(s, step)| == if step.SendReply? then 1 else 0
  {
    hide ApplyLoop, HasRoom, IsReply;
  }

  // ---- a run that shows it

  /** A client that was accepted and has a subscription, with nothing written yet. */
  lemma Subscribed() returns (ss: seq<State>, steps: seq<Step>)
    ensures |ss| == |steps| + 1 && IsRun(ss, steps)
    ensures var s := ss[|steps|];
            && s.st == Connected && s.subscribed && s.queue == [ConnAck(0, 0)] && s.taken == 0 && s.writer == Idle && s.wire == []
            && s.callbacks == [] && !s.crashed
  {
    hide IsRun, WritableBulk, IsReply, ApplyWriter, WriterEnabled, ApplyOther, OtherEnabled;
    ss, steps := Wills.Begin();
    ss, steps := Wills.Extend(ss, steps, OnLoop(LoopHead));
    ss, steps := Wills.Extend(ss, steps, OnConnect(ParsedConnect(false)));
    ss, steps := Wills.Extend(ss, steps, OnConnect(NatsConnects));
    ss, steps := Wills.Extend(ss, steps, OnConnect(SessionFound));
    ss, steps := Wills.Extend(ss, steps, OnConnect(BecomeConnected));
    ss, steps := Wills.Extend(ss, steps, OnConnect(CheckConnAck));
    ss, steps := Wills.Extend(ss, steps, OnConnect(SendConnAck(0)));
    ss, steps := Wills.Extend(ss, steps, OnLoop(RestoreSubscriptions));
  }

  lemma Grown(ss: seq<State>, steps: seq<Step>, step: Step) returns (ss': seq<State>, steps': seq<Step>)
    requires |ss| == |steps| + 1 && IsRun(ss, steps) && Enabled(ss[|steps|], step)
    ensures steps' == steps + [step] && |ss'| == |steps'| + 1 && IsRun(ss', steps')
    ensures WritableBulk(ss[|steps|]) && ss'[|steps'|] == Apply(ss[|steps|], step)
  {
    hide Enabled, Apply, WritableBulk, ReaderInv, OthersInv, CountsInv, WillInv, DoneInv, QueueInv, WriterInv, BytesInv;
    RunKeepsInv(ss, steps, |steps|);
    BulkIsWritable(ss[|steps|]);
    ss', steps' := ss + [Apply(ss[|steps|], step)], steps + [step];
  }

  lemma NoSentinel(m: Publish)
    ensures UpToSentinel([ConnAck(0, 0), PublishPacket(m)]) == [ConnAck(0, 0), PublishPacket(m)]
  {
  }

  /** A delivery from a callback goes all the way to the wire, behind the CONNACK. */
  lemma DeliveryReachesWire(m: Publish) returns (ss: seq<State>, steps: seq<Step>)
    ensures |ss| == |steps| + 1 && IsRun(ss, steps) && ss[|steps|].wire == [ConnAck(0, 0), PublishPacket(m)]
  {
    hide IsRun, ApplyConnect, ConnectEnabled, ApplyLoop, LoopEnabled, EncodeAll, UpToSentinel, AllWritable, WritableBulk;
    ss, steps := Subscribed();
    ss, steps := Wills.Extend(ss, steps, OnOther(CallbackChecks(PublishPacket(m))));
    ss, steps := Wills.Extend(ss, steps, OnOther(CallbackSends(0)));
    ss, steps := Wills.Extend(ss, steps, OnWrite(TakeFirst));
    ss, steps := Grown(ss, steps, OnWrite(TakeMore));
    ss, steps := Grown(ss, steps, OnWrite(StopCollecting));
    ss, steps := Grown(ss, steps, OnWrite(WriteSucceeds));
    NoSentinel(m);
  }
}
