// What becomes of a client's will: deleted under whoever publishes it, or published for a client that was refused.
module Wills {
  import opened Basics
  import opened Packets
  import opened CodecLaws
  import opened Clients
  import opened WriteLoop
  import opened LifeCycle
  import opened LifeCycleLaws

  // ---- how one step touches the will

  /** Where the will was seen by CheckWill, or handed over by PublishWill. */
  predicate Sees(step: Step, phase: Closing) {
    || (phase == WillSeen && step == OnOther(CheckWill))
    || (phase == WillSent && step == OnOther(PublishWill(true)))
  }

  /** The next read of the will in that phase. */
  predicate Reads(step: Step, phase: Closing) {
    || (phase == WillSeen && step.OnOther? && step.o.PublishWill?)
    || (phase == WillSent && step == OnOther(LogWill))
  }

  /** With a connect packet only a DISCONNECT changes the will. */
  predicate KeepsWill(s: State, step: Step, t: State) {
    s.connectPacket ==> t.connectPacket && t.will == (s.will && step != OnLoop(GotDisconnect))
  }

  /** The process crashes where a will is read that is not there. */
  predicate CrashesOnRead(s: State, step: Step, t: State) {
    t.crashed <==> Reads(step, s.closing) && !s.will
  }

  /** SetDisconnected comes to have the will in hand by the step that sees it. */
  predicate EntersBySeeing(s: State, step: Step, t: State) {
    t.closing != s.closing && (t.closing == WillSeen || t.closing == WillSent) ==> Sees(step, t.closing) && s.connectPacket
  }

  predicate Touches(s: State, step: Step, t: State) {
    KeepsWill(s, step, t) && CrashesOnRead(s, step, t) && EntersBySeeing(s, step, t)
  }

  lemma ConnectTouches(s: State, step: ConnectStep)
    requires ReaderInv(s) && CountsInv(s) && ConnectEnabled(s, step) && !s.crashed
    ensures Touches(s, OnConnect(step), ApplyConnect(s, step))
  {
    hide Settled, Answered, Quiet, IsReply, HasRoom;
    match step
    case ParsedConnect(_) =>
    case _ =>
  }

  lemma LoopKeepsWill(s: State, step: LoopStep)
    requires LoopEnabled(s, step)
    ensures KeepsWill(s, OnLoop(step), ApplyLoop(s, step))
  {
    hide IsReply, HasRoom;
    match step
    case GotDisconnect =>
    case ReaderCloses =>
    case _ =>
  }

  lemma LoopKeepsPhase(s: State, step: LoopStep)
    requires LoopEnabled(s, step)
    ensures ApplyLoop(s, step).closing == s.closing || ApplyLoop(s, step).closing == Claimed
  {
    hide IsReply, HasRoom;
    match step
    case GotDisconnect =>
    case ReaderCloses =>
    case _ =>
  }

  lemma LoopKeepsGoing(s: State, step: LoopStep)
    requires LoopEnabled(s, step)
    ensures ApplyLoop(s, step).crashed == s.crashed
  {
    hide IsReply, HasRoom;
    match step
    case GotDisconnect =>
    case ReaderCloses =>
    case _ =>
  }

  lemma LoopTouches(s: State, step: LoopStep)
    requires LoopEnabled(s, step) && !s.crashed
    ensures Touches(s, OnLoop(step), ApplyLoop(s, step))
  {
    hide LoopEnabled, ApplyLoop, KeepsWill;
    LoopKeepsWill(s, step);
    LoopKeepsPhase(s, step);
    LoopKeepsGoing(s, step);
  }

  lemma WriterLeaves(s: State, step: WriterStep, u: State)
    requires WriterOnly(s, u) && !s.crashed
    ensures Touches(s, OnWrite(step), u) && Touches(s, OnWrite(step), Claim(u))
  {
  }

  lemma OtherKeepsWill(s: State, step: OtherStep)
    requires OtherEnabled(s, step)
    ensures KeepsWill(s, OnOther(step), ApplyOther(s, step))
  {
    hide IsReply, HasRoom;
    match step
    case Drain =>
    case _ =>
  }

  lemma OtherCrashes(s: State, step: OtherStep)
    requires OtherEnabled(s, step) && !s.crashed
    ensures CrashesOnRead(s, OnOther(step), ApplyOther(s, step))
  {
    hide IsReply, HasRoom;
    match step
    case Drain =>
    case PublishWill(_) =>
    case LogWill =>
    case _ =>
  }

  lemma OtherEnters(s: State, step: OtherStep)
    requires WillInv(s) && OtherEnabled(s, step)
    ensures EntersBySeeing(s, OnOther(step), ApplyOther(s, step))
  {
    hide IsReply, HasRoom;
    match step
    case Drain =>
    case CheckWill =>
    case PublishWill(_) =>
    case _ =>
  }

  lemma StepTouches(s: State, step: Step)
    requires ReaderInv(s) && CountsInv(s) && WillInv(s) && Enabled(s, step) && WritableBulk(s)
    ensures Touches(s, step, Apply(s, step))
  {
    hide ReaderInv, CountsInv, WillInv, ApplyWriter, WriterEnabled, ApplyConnect, ConnectEnabled, ApplyLoop, LoopEnabled,
      ApplyOther, OtherEnabled, KeepsWill, CrashesOnRead, EntersBySeeing, WriterOnly, WritableBulk;
    match step
    case OnConnect(c) => ConnectTouches(s, c);
    case OnLoop(l) => LoopTouches(s, l);
    case OnWrite(w) => var u := WriterTouches(s, w); WriterLeaves(s, w, u);
    case OnOther(o) => OtherKeepsWill(s, o); OtherCrashes(s, o); OtherEnters(s, o);
  }

  lemma RunTouches(ss: seq<State>, steps: seq<Step>, n: nat)
    requires IsRun(ss, steps) && n < |steps|
    ensures Touches(ss[n], steps[n], ss[n + 1])
  {
    hide ReaderInv, OthersInv, CountsInv, WillInv, DoneInv, QueueInv, WriterInv, BytesInv, Enabled, Apply, WritableBulk, Touches;
    RunKeepsInv(ss, steps, n);
    StepTouches(ss[n], steps[n]);
  }

  lemma RunShape(ss: seq<State>, steps: seq<Step>)
    requires IsRun(ss, steps)
    ensures |ss| == |steps| + 1 && ss[0].closing == Open && !ss[0].crashed
  {
    hide Enabled, Apply, WritableBulk;
  }

  // ---- a will that is deleted under whoever publishes it

  predicate Discarded(steps: seq<Step>, m: nat, n: nat)
    requires n <= |steps|
  {
    exists k :: m <= k < n && steps[k] == OnLoop(GotDisconnect)
  }

  lemma DiscardedLater(steps: seq<Step>, m: nat, n: nat)
    requires m < n <= |steps|
    ensures Discarded(steps, m, n) <==> Discarded(steps, m, n - 1) || steps[n - 1] == OnLoop(GotDisconnect)
  {
  }

  /** From any point where there is a connect packet, the will is there until a DISCONNECT is handled. */
  lemma {:induction false} WillStays(ss: seq<State>, steps: seq<Step>, m: nat, n: nat)
    requires IsRun(ss, steps) && m <= n < |ss| && ss[m].connectPacket
    ensures |ss| == |steps| + 1
    ensures ss[n].connectPacket && (ss[n].will <==> ss[m].will && !Discarded(steps, m, n))
    decreases n
  {
    hide IsRun, Discarded, Enabled, Apply, WritableBulk, CrashesOnRead, EntersBySeeing;
    RunShape(ss, steps);
    if m < n {
      WillStays(ss, steps, m, n - 1);
      RunTouches(ss, steps, n - 1);
      DiscardedLater(steps, m, n);
    } else {
      assert !Discarded(steps, m, n) by { NotYetDiscarded(steps, n); }
    }
  }

  lemma NotYetDiscarded(steps: seq<Step>, n: nat)
    requires n <= |steps|
    ensures !Discarded(steps, n, n)
  {
  }

  /** The step that brought SetDisconnected to where it stands with the will in hand. */
  lemma {:induction false} PhaseBegan(ss: seq<State>, steps: seq<Step>, n: nat) returns (i: nat)
    requires IsRun(ss, steps) && n < |ss| && (ss[n].closing == WillSeen || ss[n].closing == WillSent)
    ensures i < n <= |steps| && Sees(steps[i], ss[n].closing) && ss[i + 1].closing == ss[n].closing && ss[i].connectPacket
  {
    hide IsRun, Enabled, Apply, WritableBulk, KeepsWill, CrashesOnRead, Sees;
    RunShape(ss, steps);
    RunTouches(ss, steps, n - 1);
    if ss[n - 1].closing == ss[n].closing {
      i := PhaseBegan(ss, steps, n - 1);
    } else {
      i := n - 1;
    }
  }

  /** A DISCONNECT is handled after step i has seen the will and before step n reads it. */
  predicate Hits(ss: seq<State>, steps: seq<Step>, i: nat, n: nat)
    requires |ss| == |steps| + 1 && n < |steps|
  {
    && i < n && Sees(steps[i], ss[n].closing) && ss[i + 1].closing == ss[n].closing
    && Reads(steps[n], ss[n].closing) && Discarded(steps, i + 1, n)
  }

  /** A step that sees the will finds a connect packet. */
  lemma SeenWithPacket(ss: seq<State>, steps: seq<Step>, i: nat, c: Closing)
    requires IsRun(ss, steps) && i < |steps| && Sees(steps[i], c) && ss[i + 1].closing == c
    ensures ss[i + 1].connectPacket
  {
    hide ReaderInv, OthersInv, CountsInv, DoneInv, QueueInv, WriterInv, BytesInv, Enabled, Apply, WritableBulk, Settled, Answered;
    RunKeepsInv(ss, steps, i + 1);
  }

  /**
   * The process crashes exactly where a DISCONNECT deletes the will between two reads of it by whoever runs
   * SetDisconnected: between the one that finds it and the one that publishes it, or between that and the log.
   */
  lemma CrashExactly(ss: seq<State>, steps: seq<Step>, n: nat)
    requires IsRun(ss, steps) && n < |steps|
    ensures |ss| == |steps| + 1
    ensures ss[n + 1].crashed <==> exists i :: Hits(ss, steps, i, n)
  {
    hide IsRun, Enabled, Apply, WritableBulk, Discarded, Sees, EntersBySeeing, KeepsWill;
    RunShape(ss, steps);
    RunTouches(ss, steps, n);
    if Reads(steps[n], ss[n].closing) {
      var i := PhaseBegan(ss, steps, n);
      SeenWithPacket(ss, steps, i, ss[n].closing);
      WillStays(ss, steps, i + 1, n);
      WillWasThere(ss, steps, i);
      assert ss[n + 1].crashed <==> Hits(ss, steps, i, n);
      forall j: nat | Hits(ss, steps, j, n) ensures ss[n + 1].crashed {
        SeenWithPacket(ss, steps, j, ss[n].closing);
        WillStays(ss, steps, j + 1, n);
      }
    }
  }

  /** The step that sees the will leaves it there, where anything follows it. */
  lemma WillWasThere(ss: seq<State>, steps: seq<Step>, i: nat)
    requires IsRun(ss, steps) && i + 1 < |steps| && Sees(steps[i], ss[i + 1].closing)
    ensures ss[i + 1].will
  {
    assert Enabled(ss[i + 1], steps[i + 1]);
    hide ReaderInv, OthersInv, CountsInv, WillInv, DoneInv, QueueInv, WriterInv, BytesInv, WritableBulk, ApplyConnect, ApplyLoop, ApplyWriter,
      ConnectEnabled, LoopEnabled, WriterEnabled, HasRoom, IsReply;
    match steps[i].o
    case CheckWill =>
    case PublishWill(_) =>
    case _ =>
  }

  // ---- the will of a client that was refused

  /**
   * A will is published for a client that was never accepted exactly when NATS refused its connection; and when all
   * is over, a client that was not accepted has had its will published exactly if it has one.
   */
  lemma RefusedWill(ss: seq<State>, steps: seq<Step>, n: nat)
    requires IsRun(ss, steps) && n < |ss|
    ensures ss[n].wills == 1 ==> (Answered(ss[n]) <==> ss[n].natsConn)
    ensures ss[n].closing == Closed && !Answered(ss[n]) ==> (ss[n].wills == 1 <==> ss[n].will)
  {
    hide QueueInv, WriterInv, BytesInv, Answered, Enabled, Apply, WritableBulk, IsReply;
    RunKeepsInv(ss, steps, n);
  }

  // ---- runs that show both

  lemma Begin() returns (ss: seq<State>, steps: seq<Step>)
    ensures IsRun(ss, steps) && |ss| == |steps| + 1 && ss[|steps|] == Init()
  {
    ss, steps := [Init()], [];
  }

  lemma Extend(ss: seq<State>, steps: seq<Step>, step: Step) returns (ss': seq<State>, steps': seq<Step>)
    requires |ss| == |steps| + 1 && IsRun(ss, steps)
    requires Enabled(ss[|steps|], step) && ss[|steps|].writer == Idle
    ensures steps' == steps + [step] && |ss'| == |steps'| + 1 && IsRun(ss', steps')
    ensures WritableBulk(ss[|steps|]) && ss'[|steps'|] == Apply(ss[|steps|], step)
  {
    hide Enabled, Apply;
    ss', steps' := ss + [Apply(ss[|steps|], step)], steps + [step];
  }

  /** NATS refuses the client, and its will is published nevertheless. */
  lemma RefusedWillIsPublished() returns (ss: seq<State>, steps: seq<Step>)
    ensures |ss| == |steps| + 1 && IsRun(ss, steps)
    ensures ss[|steps|].wills == 1 && ss[|steps|].queue == [ConnAck(0, 3)]
  {
    hide IsRun, WritableBulk, IsReply, ApplyWriter, WriterEnabled;
    ss, steps := Begin();
    ss, steps := Extend(ss, steps, OnLoop(LoopHead));
    ss, steps := Extend(ss, steps, OnConnect(ParsedConnect(true)));
    ss, steps := Extend(ss, steps, OnConnect(NatsFails));
    ss, steps := Extend(ss, steps, OnConnect(SetRefused));
    ss, steps := Extend(ss, steps, OnConnect(CheckRefusal));
    ss, steps := Extend(ss, steps, OnConnect(SendRefusal));
    ss, steps := Extend(ss, steps, OnLoop(ReaderCloses));
    ss, steps := Extend(ss, steps, OnOther(CheckWill));
    ss, steps := Extend(ss, steps, OnOther(PublishWill(true)));
  }

  /** The server is drained while the client sends its DISCONNECT, and the will that was seen is gone when it is published. */
  lemma DisconnectCrashes() returns (ss: seq<State>, steps: seq<Step>)
    ensures |ss| == |steps| + 1 && IsRun(ss, steps) && ss[|steps|].crashed
  {
    hide IsRun, WritableBulk, IsReply, ApplyWriter, WriterEnabled;
    ss, steps := Begin();
    ss, steps := Extend(ss, steps, OnLoop(LoopHead));
    ss, steps := Extend(ss, steps, OnConnect(ParsedConnect(true)));
    ss, steps := Extend(ss, steps, OnConnect(NatsConnects));
    ss, steps := Extend(ss, steps, OnConnect(SessionFound));
    ss, steps := Extend(ss, steps, OnConnect(BecomeConnected));
    ss, steps := Extend(ss, steps, OnConnect(CheckConnAck));
    ss, steps := Extend(ss, steps, OnConnect(SendConnAck(0)));
    ss, steps := Extend(ss, steps, OnLoop(Manage));
    ss, steps := Extend(ss, steps, OnLoop(LoopHead));
    ss, steps := Extend(ss, steps, OnOther(Drain));
    ss, steps := Extend(ss, steps, OnOther(CheckWill));
    ss, steps := Extend(ss, steps, OnLoop(GotDisconnect));
    ss, steps := Extend(ss, steps, OnOther(PublishWill(true)));
  }
}
