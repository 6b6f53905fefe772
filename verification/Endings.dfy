// How a connection is answered and how it ends: the return code, what makes the reader stop, and who disconnects.
module Endings {
  import opened Basics
  import opened Packets
  import opened CodecLaws
  import opened Clients
  import opened WriteLoop
  import opened LifeCycle
  import opened LifeCycleLaws

  // ---- the return code

  /** The return code of section 3.2.2.3 for what is known of the client: 1 for its protocol level, 3 for NATS, 0. */
  function CodeFor(understood: bool, natsConn: bool): u8 { if !understood then 1 else if !natsConn then 3 else 0 }

  predicate CodeInv(s: State) {
    && (s.reader.Failing? || s.reader.Refusing? ==> s.reader.code == CodeFor(s.connectPacket, s.natsConn))
    && (s.reader.Accepting? ==> s.connectPacket && s.natsConn)
    && (s.queue != [] && s.queue[0].ConnAck? ==> s.queue[0].returnCode == CodeFor(s.connectPacket, s.natsConn))
  }

  lemma ConnectCode(s: State, step: ConnectStep)
    requires ReaderInv(s) && CountsInv(s) && DoneInv(s) && CodeInv(s) && ConnectEnabled(s, step)
    ensures CodeInv(ApplyConnect(s, step))
  {
    hide Answered, IsReply, HasRoom;
    match step
    case ParsedConnect(_) =>
    case BadVersion =>
    case NatsFails =>
    case NatsConnects =>
    case SetRefused =>
    case SendConnAck(_) =>
    case SendRefusal =>
    case _ =>
  }

  predicate FieldsStay(s: State, t: State) { t.connectPacket == s.connectPacket && t.natsConn == s.natsConn }

  /** A step that is none of handleConnect's: what the code is decided by stays as it is. */
  predicate LeavesCode(s: State, t: State) {
    FieldsStay(s, t) && (t.reader == s.reader || !(t.reader.Failing? || t.reader.Refusing? || t.reader.Accepting?))
  }

  lemma LeftCode(s: State, t: State, q: Option<Packet>)
    requires CodeInv(s) && LeavesCode(s, t) && t.queue == (if q.Some? then s.queue + [q.value] else s.queue)
    requires q.Some? ==> !q.value.ConnAck?
    ensures CodeInv(t)
  {
    hide CodeFor;
  }

  lemma LoopPacket(s: State, step: LoopStep)
    requires LoopEnabled(s, step)
    ensures ApplyLoop(s, step).connectPacket == s.connectPacket
  {
    hide IsReply, HasRoom;
    match step
    case SendReply =>
    case ReaderCloses =>
    case _ =>
  }

  lemma LoopNatsConn(s: State, step: LoopStep)
    requires LoopEnabled(s, step)
    ensures ApplyLoop(s, step).natsConn == s.natsConn
  {
    hide IsReply, HasRoom;
    match step
    case SendReply =>
    case ReaderCloses =>
    case _ =>
  }

  lemma LoopFields(s: State, step: LoopStep)
    requires LoopEnabled(s, step)
    ensures FieldsStay(s, ApplyLoop(s, step))
  {
    hide LoopEnabled, ApplyLoop;
    LoopPacket(s, step);
    LoopNatsConn(s, step);
  }

  lemma LoopLeavesCode(s: State, step: LoopStep)
    requires LoopEnabled(s, step)
    ensures LeavesCode(s, ApplyLoop(s, step))
  {
    LoopFields(s, step);
    hide IsReply, HasRoom, FieldsStay;
    match step
    case LoopHead =>
    case SendReply =>
    case CheckReply(_) =>
    case HandlerReturns(_) =>
    case ReaderCloses =>
    case _ =>
  }

  lemma OtherPacket(s: State, step: OtherStep)
    requires OtherEnabled(s, step)
    ensures ApplyOther(s, step).connectPacket == s.connectPacket
  {
    hide IsReply, HasRoom;
    match step
    case Drain =>
    case _ =>
  }

  lemma OtherNatsConn(s: State, step: OtherStep)
    requires OtherEnabled(s, step)
    ensures ApplyOther(s, step).natsConn == s.natsConn
  {
    hide IsReply, HasRoom;
    match step
    case Drain =>
    case _ =>
  }

  lemma OtherFields(s: State, step: OtherStep)
    requires OtherEnabled(s, step)
    ensures FieldsStay(s, ApplyOther(s, step))
  {
    hide OtherEnabled, ApplyOther;
    OtherPacket(s, step);
    OtherNatsConn(s, step);
  }

  lemma OtherLeavesCode(s: State, step: OtherStep)
    requires OtherEnabled(s, step)
    ensures LeavesCode(s, ApplyOther(s, step))
  {
    hide ApplyOther, OtherEnabled;
    OtherFields(s, step);
    ReaderIsLeft(s, step);
  }

  lemma ClaimLeavesCode(s: State)
    ensures LeavesCode(s, Claim(s))
  {
  }

  lemma WriterLeavesCode(s: State, u: State)
    requires WriterOnly(s, u)
    ensures LeavesCode(s, u) && u.queue == s.queue
  {
  }

  lemma QueueGrew(s: State, t: State, q: Option<Packet>)
    requires Grows(s, t, q)
    ensures t.queue == if q.Some? then s.queue + [q.value] else s.queue
  {
  }

  lemma StepKeepsCode(s: State, step: Step)
    requires ReaderInv(s) && OthersInv(s) && CountsInv(s) && DoneInv(s) && CodeInv(s) && Enabled(s, step) && WritableBulk(s)
    ensures CodeInv(Apply(s, step))
  {
    hide ReaderInv, OthersInv, CountsInv, DoneInv, CodeInv, ConnectEnabled, ApplyConnect, LoopEnabled, ApplyLoop, WriterEnabled, ApplyWriter,
      OtherEnabled, ApplyOther, Grows, LeavesCode, WriterOnly, WritableBulk;
    match step
    case OnConnect(c) => ConnectCode(s, c);
    case OnLoop(l) =>
      var q := LoopGrows(s, l);
      QueueGrew(s, ApplyLoop(s, l), q);
      LoopLeavesCode(s, l);
      LeftCode(s, ApplyLoop(s, l), q);
    case OnWrite(w) =>
      var u := WriterTouches(s, w);
      WriterLeavesCode(s, u);
      LeftCode(s, u, None);
      ClaimLeavesCode(u);
      ClaimLeavesQueue(u);
      LeftCode(u, Claim(u), None);
    case OnOther(o) =>
      var q := OtherGrows(s, o);
      QueueGrew(s, ApplyOther(s, o), q);
      OtherLeavesCode(s, o);
      LeftCode(s, ApplyOther(s, o), q);
  }

  /** The step that sets the connect packet, or the one that sets the NATS connection. */
  predicate Sets(step: Step, packet: bool) {
    if packet then step.OnConnect? && step.c.ParsedConnect? else step == OnConnect(NatsConnects)
  }

  predicate Took(steps: seq<Step>, n: nat, packet: bool)
    requires n <= |steps|
  {
    exists k :: 0 <= k < n && Sets(steps[k], packet)
  }

  lemma TookMore(steps: seq<Step>, n: nat, packet: bool)
    requires n < |steps|
    ensures Took(steps, n + 1, packet) <==> Took(steps, n, packet) || Sets(steps[n], packet)
  {
  }

  lemma ConnectTells(s: State, step: ConnectStep)
    requires ConnectEnabled(s, step)
    ensures ApplyConnect(s, step).connectPacket == (s.connectPacket || step.ParsedConnect?)
    ensures ApplyConnect(s, step).natsConn == (s.natsConn || step.NatsConnects?)
  {
    hide HasRoom;
    match step
    case ParsedConnect(_) =>
    case NatsConnects =>
    case SendConnAck(_) =>
    case _ =>
  }

  lemma StepTells(s: State, step: Step)
    requires Enabled(s, step) && WritableBulk(s)
    ensures Apply(s, step).connectPacket == (s.connectPacket || (step.OnConnect? && step.c.ParsedConnect?))
    ensures Apply(s, step).natsConn == (s.natsConn || step == OnConnect(NatsConnects))
  {
    hide ConnectEnabled, ApplyConnect, LoopEnabled, ApplyLoop, WriterEnabled, ApplyWriter, OtherEnabled, ApplyOther, WriterOnly, WritableBulk;
    match step
    case OnConnect(c) => ConnectTells(s, c);
    case OnLoop(l) => LoopLeavesCode(s, l);
    case OnWrite(w) => var u := WriterTouches(s, w); WriterLeavesCode(s, u); ClaimLeavesCode(u);
    case OnOther(o) => OtherLeavesCode(s, o);
  }

  lemma {:induction false} RunTells(ss: seq<State>, steps: seq<Step>, n: nat)
    requires IsRun(ss, steps) && n < |ss|
    ensures |ss| == |steps| + 1 && CodeInv(ss[n])
    ensures ss[n].connectPacket == Took(steps, n, true) && ss[n].natsConn == Took(steps, n, false)
  {
    hide ReaderInv, OthersInv, CountsInv, WillInv, DoneInv, QueueInv, WriterInv, BytesInv, Enabled, Apply, WritableBulk, Took, CodeInv;
    if n == 0 {
      NothingTaken(steps);
    } else {
      RunTells(ss, steps, n - 1);
      RunKeepsInv(ss, steps, n - 1);
      StepKeepsCode(ss[n - 1], steps[n - 1]);
      StepTells(ss[n - 1], steps[n - 1]);
      TookMore(steps, n - 1, true);
      TookMore(steps, n - 1, false);
    }
  }

  lemma NothingTaken(steps: seq<Step>)
    ensures CodeInv(Init()) && !Took(steps, 0, true) && !Took(steps, 0, false)
  {
  }

  /**
   * The CONNACK tells the client what became of its CONNECT: 1 if its protocol level was refused, 3 if NATS refused its
   * connection, and 0 if neither.
   */
  lemma ReturnCodeTells(ss: seq<State>, steps: seq<Step>, n: nat)
    requires IsRun(ss, steps) && n < |ss| && ss[n].queue != [] && ss[n].queue[0].ConnAck?
    ensures |ss| == |steps| + 1
    ensures ss[n].queue[0].returnCode
         == if !(exists k :: 0 <= k < n && steps[k].OnConnect? && steps[k].c.ParsedConnect?) then 1
            else if !(exists k :: 0 <= k < n && steps[k] == OnConnect(NatsConnects)) then 3 else 0
  {
    hide IsRun;
    RunTells(ss, steps, n);
  }

  // ---- the end

  /** After these the reader is done: no packet is read or handled any more. */
  predicate EndsReader(step: Step) {
    || (step.OnConnect? && (step.c.BadConnect? || step.c.SendRefusal?))
    || (step.OnLoop? && (step.l.ReadFails? || step.l.GotDisconnect? || step.l == HandlerReturns(true)))
  }

  predicate ReaderDone(s: State) { s.reader.Exit? || s.reader.Gone? }

  lemma EndsDone(s: State, step: Step)
    requires EndsReader(step) && Enabled(s, step) && WritableBulk(s)
    ensures ReaderDone(Apply(s, step))
  {
    hide HasRoom, IsReply, WriterEnabled, ApplyWriter, OtherEnabled, ApplyOther, WritableBulk;
    match step
    case OnConnect(c) => hide ApplyLoop, LoopEnabled;
    case OnLoop(l) => hide ApplyConnect, ConnectEnabled;
    case _ =>
  }

  lemma DoneIsIdle(s: State, step: Step)
    requires ReaderDone(s) && Enabled(s, step)
    ensures !step.OnConnect? && (step.OnLoop? ==> step.l.ReaderCloses?)
  {
    hide HasRoom, IsReply, WriterEnabled, OtherEnabled;
  }

  lemma DoneStays(s: State, step: Step)
    requires ReaderDone(s) && Enabled(s, step) && WritableBulk(s)
    ensures ReaderDone(Apply(s, step))
  {
    DoneIsIdle(s, step);
    hide HasRoom, IsReply, ConnectEnabled, ApplyConnect, WriterEnabled, ApplyWriter, OtherEnabled, ApplyOther, WritableBulk;
    match step
    case OnLoop(l) => ClosesReader(s, l);
    case OnWrite(w) => var u := WriterTouches(s, w); WriterLeavesReader(s, u);
    case OnOther(o) => ReaderIsLeft(s, o);
  }

  lemma ClosesReader(s: State, step: LoopStep)
    requires LoopEnabled(s, step) && step.ReaderCloses?
    ensures ApplyLoop(s, step).reader == Gone
  {
  }

  lemma WriterLeavesReader(s: State, u: State)
    requires WriterOnly(s, u)
    ensures u.reader == s.reader && Claim(u).reader == s.reader
  {
  }

  lemma {:induction false} ReaderStaysDone(ss: seq<State>, steps: seq<Step>, m: nat, n: nat)
    requires IsRun(ss, steps) && m <= n < |ss| && ReaderDone(ss[m])
    ensures ReaderDone(ss[n])
    decreases n
  {
    hide Enabled, Apply, WritableBulk, ReaderDone;
    if m < n {
      ReaderStaysDone(ss, steps, m, n - 1);
      DoneStays(ss[n - 1], steps[n - 1]);
    }
  }

  /** After a failed read, a failed handler, a refusal or a DISCONNECT the reader does nothing but disconnect. */
  lemma NothingAfterTheEnd(ss: seq<State>, steps: seq<Step>, i: nat, j: nat)
    requires IsRun(ss, steps) && i < j < |steps| && EndsReader(steps[i])
    ensures !steps[j].OnConnect? && (steps[j].OnLoop? ==> steps[j].l == ReaderCloses)
  {
    hide Enabled, Apply, WritableBulk, ReaderDone;
    EndsDone(ss[i], steps[i]);
    ReaderStaysDone(ss, steps, i + 1, j);
    DoneIsIdle(ss[j], steps[j]);
  }

  /** Who disconnects: the reader when it is done, the drain, and a writer whose write failed with more to come. */
  predicate Disconnects(s: State, step: Step) {
    || step == OnLoop(ReaderCloses) || step == OnOther(Drain)
    || (step == OnWrite(WriteFails) && s.writer.Writing? && Disconnect !in s.writer.bulk)
  }

  lemma DisconnectingStep(s: State, step: Step)
    requires Disconnects(s, step) && Enabled(s, step) && WritableBulk(s)
    ensures Apply(s, step).st == Disconnected
  {
    hide ConnectEnabled, ApplyConnect, HasRoom, IsReply, UpToSentinel, EncodeAll, AllWritable;
  }

  lemma EndsAreSeen(ss: seq<State>, steps: seq<Step>, i: nat, j: nat)
    requires IsRun(ss, steps) && i < j < |ss| && Disconnects(ss[i], steps[i])
    ensures ss[j].st == Disconnected
  {
    hide Enabled, Apply, WritableBulk;
    DisconnectingStep(ss[i], steps[i]);
    StateNeverGoesBack(ss, steps, i + 1, j);
  }

  // ---- a writer that has stopped

  predicate StopSeen(s: State) { s.writer.Stopped? ==> s.st == Disconnected }

  lemma SentinelIsLate(s: State)
    requires OthersInv(s) && QueueInv(s) && Disconnect in s.queue
    ensures s.st == Disconnected
  {
    hide Settled, Answered, IsReply;
  }

  lemma BulkOfQueue(s: State)
    requires WriterInv(s) && s.writer.Writing? && Disconnect in s.writer.bulk
    ensures Disconnect in s.queue
  {
    assert Disconnect in s.wire + s.writer.bulk;
    assert Disconnect in s.queue[..s.taken];
  }

  lemma StopsWriter(s: State, step: WriterStep)
    requires WriterEnabled(s, step) && WritableBulk(s)
    ensures ApplyWriter(s, step).writer.Stopped? ==> s.writer.Writing? && (Disconnect in s.writer.bulk || step.WriteFails?)
  {
    hide EncodeAll, UpToSentinel, WritableBulk, Claim;
    match step
    case WriteFails =>
    case WriteSucceeds =>
    case _ =>
  }

  lemma FailureDisconnects(s: State)
    requires WriterEnabled(s, WriteFails) && WritableBulk(s) && Disconnect !in s.writer.bulk
    ensures ApplyWriter(s, WriteFails).st == Disconnected
  {
    hide EncodeAll, UpToSentinel, WritableBulk;
  }

  lemma WriterSeen(s: State, step: WriterStep)
    requires OthersInv(s) && QueueInv(s) && WriterInv(s) && WritableBulk(s) && WriterEnabled(s, step)
    ensures s.st == Disconnected ==> ApplyWriter(s, step).st == Disconnected
    ensures StopSeen(ApplyWriter(s, step))
  {
    hide OthersInv, QueueInv, WriterInv, WritableBulk, ApplyWriter, WriterEnabled, WriterOnly;
    var u := WriterTouches(s, step);
    WriterForward(s, u);
    StopsWriter(s, step);
    if ApplyWriter(s, step).writer.Stopped? {
      if Disconnect in s.writer.bulk {
        BulkOfQueue(s);
        SentinelIsLate(s);
      } else {
        FailureDisconnects(s);
      }
    }
  }

  lemma ConnectWriter(s: State, step: ConnectStep)
    requires ReaderInv(s) && ConnectEnabled(s, step)
    ensures ApplyConnect(s, step).writer == s.writer && (s.st == Disconnected ==> ApplyConnect(s, step).st == Disconnected)
  {
    var q := ConnectGrows(s, step);
    ConnectForward(s, step);
    hide ApplyConnect, ConnectEnabled, ReaderInv;
  }

  lemma StepSeen(s: State, step: Step)
    requires ReaderInv(s) && OthersInv(s) && WillInv(s) && QueueInv(s) && WriterInv(s) && Enabled(s, step) && WritableBulk(s)
    requires StopSeen(s)
    ensures StopSeen(Apply(s, step))
  {
    hide ReaderInv, OthersInv, WillInv, QueueInv, WriterInv, ConnectEnabled, ApplyConnect, LoopEnabled, ApplyLoop, WriterEnabled, ApplyWriter,
      OtherEnabled, ApplyOther, WritableBulk;
    match step
    case OnConnect(c) => ConnectWriter(s, c);
    case OnLoop(l) => var q := LoopGrows(s, l); LoopForward(s, l);
    case OnWrite(w) => WriterSeen(s, w);
    case OnOther(o) => var q := OtherGrows(s, o); OtherForward(s, o);
  }

  /** The writer never stops, after the sentinel or a failed write, while the state is not Disconnected. */
  lemma {:induction false} StoppedIsSeen(ss: seq<State>, steps: seq<Step>, n: nat)
    requires IsRun(ss, steps) && n < |ss|
    ensures ss[n].writer.Stopped? ==> ss[n].st == Disconnected
  {
    hide ReaderInv, OthersInv, CountsInv, WillInv, DoneInv, QueueInv, WriterInv, BytesInv, Enabled, Apply, WritableBulk;
    if n > 0 {
      StoppedIsSeen(ss, steps, n - 1);
      RunKeepsInv(ss, steps, n - 1);
      StepSeen(ss[n - 1], steps[n - 1]);
    }
  }
}
