// Safety of one client connection over every interleaving.
module LifeCycleLaws {
  import opened Basics
  import opened Packets
  import opened CodecLaws
  import opened Clients
  import opened WriteLoop
  import opened LifeCycle

  // ---- the queue

  /** A CONNACK is only queued first, a reply only behind one, a sentinel only while there is none. */
  predicate MayQueue(queue: seq<Packet>, closing: Closing, p: Packet) {
    || (p.ConnAck? && queue == [] && closing == Open)
    || (IsReply(p) && queue != [] && queue[0].ConnAck? && queue[0].returnCode == 0)
    || (p == Disconnect && closing == WillHandled)
  }

  /** t is s with q at the end of the queue and nothing else the writer looks at changed. */
  predicate Grows(s: State, t: State, q: Option<Packet>) {
    && t.taken == s.taken && t.writer == s.writer && t.wire == s.wire && t.sent == s.sent
    && t.queue == (if q.Some? then s.queue + [q.value] else s.queue)
    && (q.Some? ==> MayQueue(s.queue, s.closing, q.value))
    && (t.closing == Closed <==> s.closing == Closed || q == Some(Disconnect))
  }

  lemma ConnectGrows(s: State, step: ConnectStep) returns (q: Option<Packet>)
    requires ReaderInv(s) && ConnectEnabled(s, step)
    ensures Grows(s, ApplyConnect(s, step), q)
  {
    q := if step.SendConnAck? then Some(ConnAck(step.flags, 0))
         else if step.SendRefusal? then Some(ConnAck(0, s.reader.code))
         else None;
  }

  lemma LoopGrows(s: State, step: LoopStep) returns (q: Option<Packet>)
    requires ReaderInv(s) && OthersInv(s) && LoopEnabled(s, step)
    ensures Grows(s, ApplyLoop(s, step), q) && (q.Some? ==> !q.value.ConnAck?)
  {
    q := if step.SendReply? then s.reader.pending else None;
  }

  lemma OtherGrows(s: State, step: OtherStep) returns (q: Option<Packet>)
    requires OthersInv(s) && OtherEnabled(s, step)
    ensures Grows(s, ApplyOther(s, step), q) && (q.Some? ==> !q.value.ConnAck?)
  {
    q := if step.CallbackSends? then Some(s.callbacks[step.i]) else if step.SendSentinel? then Some(Disconnect) else None;
  }

  lemma QueueStep(queue: seq<Packet>, closing: Closing, p: Packet)
    requires QueueOk(queue, closing == Closed) && MayQueue(queue, closing, p)
    ensures QueueOk(queue + [p], p == Disconnect || closing == Closed)
  {
    assert Disconnect in queue + [p] <==> Disconnect in queue || p == Disconnect;
  }

  lemma GrowthKeepsWriter(queue: seq<Packet>, taken: nat, writer: Writer, wire: seq<Packet>, p: Packet)
    requires WriterOk(queue, taken, writer, wire)
    ensures WriterOk(queue + [p], taken, writer, wire)
  {
    assert (queue + [p])[..taken] == queue[..taken];
    UpToAppend(queue, [p]);
  }

  lemma GrowthKeeps(s: State, t: State, q: Option<Packet>)
    requires QueueInv(s) && WriterInv(s) && BytesInv(s) && Grows(s, t, q)
    ensures QueueInv(t) && WriterInv(t) && BytesInv(t)
  {
    hide QueueOk, WriterOk, MayQueue, EncodeAll, AllWritable;
    if q.Some? {
      QueueStep(s.queue, s.closing, q.value);
      GrowthKeepsWriter(s.queue, s.taken, s.writer, s.wire, q.value);
    }
  }

  // ---- the writer

  /** What a written bulk adds. */
  lemma WrittenKeepsWriter(queue: seq<Packet>, taken: nat, bulk: seq<Packet>, wire: seq<Packet>)
    requires WriterOk(queue, taken, Writing(bulk), wire)
    ensures WriterOk(queue, taken, if Disconnect in bulk then Stopped(true) else Idle, wire + UpToSentinel(bulk))
  {
    assert queue[..taken][..|wire|] == queue[..|wire|] == wire;
    assert queue[..taken][|wire|..] == queue[|wire|..taken] == bulk;
    BulkSplit(queue, |wire|, taken);
  }

  lemma TakenKeepsWriter(queue: seq<Packet>, taken: nat, bulk: seq<Packet>, wire: seq<Packet>)
    requires WriterOk(queue, taken, Collecting(bulk), wire) && taken < |queue|
    ensures WriterOk(queue, taken + 1, Collecting(bulk + [queue[taken]]), wire)
  {
    assert queue[..taken + 1] == queue[..taken] + [queue[taken]];
    assert wire + (bulk + [queue[taken]]) == (wire + bulk) + [queue[taken]];
  }

  lemma StartKeepsWriter(queue: seq<Packet>, taken: nat, wire: seq<Packet>)
    requires WriterOk(queue, taken, Idle, wire) && taken < |queue|
    ensures WriterOk(queue, taken + 1, Collecting([queue[taken]]), wire)
  {
    assert wire + [] == wire && [] + [queue[taken]] == [queue[taken]];
    TakenKeepsWriter(queue, taken, [], wire);
  }

  lemma FailureKeepsWriter(queue: seq<Packet>, taken: nat, bulk: seq<Packet>, wire: seq<Packet>)
    requires WriterOk(queue, taken, Writing(bulk), wire)
    ensures WriterOk(queue, taken, Stopped(false), wire)
  {
    assert wire <= wire + bulk == queue[..taken] <= queue;
  }

  lemma StopKeepsWriter(queue: seq<Packet>, taken: nat, bulk: seq<Packet>, wire: seq<Packet>)
    requires WriterOk(queue, taken, Collecting(bulk), wire)
    ensures WriterOk(queue, taken, Writing(bulk), wire)
  {
  }

  lemma ClaimLeavesQueue(s: State)
    ensures Claim(s).queue == s.queue && Claim(s).taken == s.taken && Claim(s).writer == s.writer && Claim(s).wire == s.wire
  {
  }

  lemma TakesOk(s: State, step: WriterStep)
    requires WriterInv(s) && WritableBulk(s) && WriterEnabled(s, step) && !step.WriteSucceeds? && !step.WriteFails?
    ensures WriterInv(ApplyWriter(s, step))
  {
    hide AllWritable, UpToSentinel, WriterOk, WritableBulk;
    match step
    case TakeFirst => StartKeepsWriter(s.queue, s.taken, s.wire);
    case TakeMore => TakenKeepsWriter(s.queue, s.taken, s.writer.bulk, s.wire);
    case StopCollecting => StopKeepsWriter(s.queue, s.taken, s.writer.bulk, s.wire);
  }

  lemma SucceedsOk(s: State)
    requires WriterInv(s) && WritableBulk(s) && WriterEnabled(s, WriteSucceeds)
    ensures WriterInv(ApplyWriter(s, WriteSucceeds))
  {
    hide EncodeAll, AllWritable, UpToSentinel, WriterOk, WritableBulk;
    WrittenKeepsWriter(s.queue, s.taken, s.writer.bulk, s.wire);
  }

  lemma FailsOk(s: State)
    requires WriterInv(s) && WritableBulk(s) && WriterEnabled(s, WriteFails)
    ensures WriterInv(ApplyWriter(s, WriteFails))
  {
    hide EncodeAll, AllWritable, UpToSentinel, WriterOk, WritableBulk, Claim;
    FailureKeepsWriter(s.queue, s.taken, s.writer.bulk, s.wire);
    ClaimLeavesQueue(s.(writer := Stopped(false)));
  }

  lemma WriterStepOk(s: State, step: WriterStep)
    requires WriterInv(s) && WritableBulk(s) && WriterEnabled(s, step)
    ensures WriterInv(ApplyWriter(s, step))
  {
    hide WriterInv, WritableBulk, WriterEnabled, ApplyWriter;
    match step
    case WriteSucceeds => SucceedsOk(s);
    case WriteFails => FailsOk(s);
    case _ => TakesOk(s, step);
  }

  lemma QueueIsWritable(queue: seq<Packet>, closed: bool)
    requires QueueOk(queue, closed)
    ensures AllWritable(queue)
  {
  }

  /** A bulk in hand is part of the queue. */
  lemma BulkIsWritable(s: State)
    requires QueueInv(s) && WriterInv(s)
    ensures WritableBulk(s) && (s.writer.Writing? ==> AllWritable(UpToSentinel(s.writer.bulk)))
  {
    hide QueueOk, AllWritable, UpToSentinel;
    if s.writer.Writing? {
      QueueIsWritable(s.queue, s.closing == Closed);
      var bulk := s.writer.bulk;
      SliceWritable(s.queue, |s.wire|, s.taken);
      assert bulk == s.queue[..s.taken][|s.wire|..] == s.queue[|s.wire|..s.taken];
      SliceWritable(bulk, 0, |UpToSentinel(bulk)|);
      assert UpToSentinel(bulk) == bulk[0..|UpToSentinel(bulk)|];
    }
  }

  /** What the writer does to a queue with a sentinel, and to what is written, but for the write itself. */
  lemma WriterLeavesQueue(s: State, u: State)
    requires OthersInv(s) && QueueInv(s) && WriterOnly(s, u)
    ensures QueueInv(u) && QueueInv(Claim(u))
  {
    hide QueueOk, Settled, Answered, IsReply;
  }

  lemma ClaimLeavesBytes(s: State)
    ensures Claim(s).sent == s.sent
  {
  }

  lemma FailureKeepsBytes(s: State)
    requires BytesInv(s) && WritableBulk(s) && WriterEnabled(s, WriteFails)
    ensures BytesInv(ApplyWriter(s, WriteFails))
  {
    hide EncodeAll, UpToSentinel, AllWritable, WritableBulk, Claim;
    ClaimLeavesQueue(s.(writer := Stopped(false)));
    ClaimLeavesBytes(s.(writer := Stopped(false)));
  }

  lemma TakingKeepsBytes(s: State, step: WriterStep)
    requires BytesInv(s) && WritableBulk(s) && WriterEnabled(s, step) && !step.WriteSucceeds? && !step.WriteFails?
    ensures BytesInv(ApplyWriter(s, step))
  {
    hide EncodeAll, UpToSentinel, AllWritable, WritableBulk;
    match step
    case TakeFirst =>
    case TakeMore =>
    case StopCollecting =>
  }

  lemma WriteKeepsBytes(s: State)
    requires QueueInv(s) && WriterInv(s) && BytesInv(s) && WritableBulk(s) && WriterEnabled(s, WriteSucceeds)
    ensures BytesInv(ApplyWriter(s, WriteSucceeds))
  {
    hide EncodeAll, UpToSentinel, AllWritable, WriterOk, QueueOk, WritableBulk;
    BulkIsWritable(s);
    EncodeAllAppend(s.wire, UpToSentinel(s.writer.bulk));
  }

  lemma WriterStepBytes(s: State, step: WriterStep)
    requires OthersInv(s) && QueueInv(s) && WriterInv(s) && BytesInv(s) && WritableBulk(s) && WriterEnabled(s, step)
    ensures QueueInv(ApplyWriter(s, step)) && BytesInv(ApplyWriter(s, step))
  {
    hide OthersInv, QueueInv, WriterInv, BytesInv, WritableBulk, WriterEnabled, ApplyWriter, WriterOnly;
    var u := WriterTouches(s, step);
    WriterLeavesQueue(s, u);
    match step
    case WriteSucceeds => WriteKeepsBytes(s);
    case WriteFails => FailureKeepsBytes(s);
    case _ => TakingKeepsBytes(s, step);
  }

  // ---- the state byte, the counters and the reader

  lemma ConnectReader(s: State, step: ConnectStep)
    requires ReaderInv(s) && OthersInv(s) && CountsInv(s) && ConnectEnabled(s, step)
    ensures var t := ApplyConnect(s, step); ReaderInv(t) && OthersInv(t) && CountsInv(t)
  {
  }

  lemma ConnectDone(s: State, step: ConnectStep)
    requires ReaderInv(s) && CountsInv(s) && DoneInv(s) && ConnectEnabled(s, step)
    ensures DoneInv(ApplyConnect(s, step))
  {
  }

  lemma ConnectWill(s: State, step: ConnectStep)
    requires ReaderInv(s) && WillInv(s) && ConnectEnabled(s, step)
    ensures WillInv(ApplyConnect(s, step))
  {
    hide Answered, Settled;
  }

  lemma ConnectSteps(s: State, step: ConnectStep)
    requires CoreInv(s) && ConnectEnabled(s, step)
    ensures CoreInv(ApplyConnect(s, step))
  {
    hide ReaderInv, OthersInv, CountsInv, WillInv, DoneInv, ApplyConnect, ConnectEnabled;
    ConnectReader(s, step);
    ConnectWill(s, step);
    ConnectDone(s, step);
  }

  lemma GrowthKeepsAnswer(s: State, t: State, q: Option<Packet>)
    requires Grows(s, t, q) && (q.Some? ==> !q.value.ConnAck?)
    ensures Answered(s) <==> Answered(t)
  {
  }

  lemma AnsweredIsLate(s: State)
    requires OthersInv(s)
    ensures Answered(s) ==> s.st != Infant
  {
  }

  lemma LoopReader(s: State, step: LoopStep)
    requires ReaderInv(s) && OthersInv(s) && CountsInv(s) && LoopEnabled(s, step)
    requires Answered(s) ==> Answered(ApplyLoop(s, step)) && s.st != Infant
    ensures ReaderInv(ApplyLoop(s, step))
  {
    hide Answered, IsReply;
  }

  lemma LoopOthers(s: State, step: LoopStep)
    requires ReaderInv(s) && OthersInv(s) && LoopEnabled(s, step)
    requires Answered(s) ==> Answered(ApplyLoop(s, step)) && s.st != Infant
    ensures OthersInv(ApplyLoop(s, step))
  {
    hide Answered, IsReply, Quiet, HasRoom;
    match step
    case ReaderCloses =>
    case _ =>
  }

  lemma LoopCounts(s: State, step: LoopStep)
    requires ReaderInv(s) && OthersInv(s) && CountsInv(s) && LoopEnabled(s, step)
    ensures CountsInv(ApplyLoop(s, step))
  {
    hide Quiet, Answered, Settled, IsReply, HasRoom;
    match step
    case SendReply =>
    case _ =>
  }

  lemma LoopWill(s: State, step: LoopStep)
    requires ReaderInv(s) && OthersInv(s) && WillInv(s) && LoopEnabled(s, step)
    ensures WillInv(ApplyLoop(s, step))
  {
    hide Quiet, Answered, IsReply, HasRoom;
    match step
    case GotDisconnect =>
    case ReaderCloses =>
    case _ =>
  }

  lemma LoopDone(s: State, step: LoopStep)
    requires ReaderInv(s) && CountsInv(s) && DoneInv(s) && LoopEnabled(s, step)
    requires Answered(s) <==> Answered(ApplyLoop(s, step))
    ensures DoneInv(ApplyLoop(s, step))
  {
    hide Answered, Quiet, IsReply;
  }

  lemma LoopSteps(s: State, step: LoopStep)
    requires CoreInv(s) && LoopEnabled(s, step)
    ensures CoreInv(ApplyLoop(s, step))
  {
    hide ReaderInv, OthersInv, CountsInv, WillInv, DoneInv, LoopEnabled, ApplyLoop, Grows, IsReply, Answered;
    var q := LoopGrows(s, step);
    GrowthKeepsAnswer(s, ApplyLoop(s, step), q);
    AnsweredIsLate(s);
    LoopReader(s, step);
    LoopOthers(s, step);
    LoopCounts(s, step);
    LoopWill(s, step);
    LoopDone(s, step);
  }

  /** t is s but for what the writer keeps to itself. */
  predicate WriterOnly(s: State, t: State) {
    t == s.(taken := t.taken, writer := t.writer, wire := t.wire, sent := t.sent)
  }

  /** What the others do where the reader is past its quiet phase does not concern it. */
  lemma ReaderUnmoved(s: State, t: State)
    requires ReaderInv(s) && !Quiet(s) && t.reader == s.reader && t.connects == s.connects
    requires (Settled(s) ==> Settled(t)) && (Answered(s) ==> Answered(t)) && (s.st == Disconnected ==> t.st == Disconnected)
    ensures ReaderInv(t)
  {
    hide Quiet, Settled, Answered, IsReply;
  }

  /** The writer never starts on a quiet connection, and touches the rest of it only through SetDisconnected. */
  lemma WriterTouches(s: State, step: WriterStep) returns (u: State)
    requires WritableBulk(s) && WriterEnabled(s, step)
    ensures (s.queue != [] || s.writer != Idle) && WriterOnly(s, u)
    ensures ApplyWriter(s, step) == u || (u.writer != Idle && ApplyWriter(s, step) == Claim(u))
  {
    hide EncodeAll, UpToSentinel, AllWritable, Claim;
    u := if step.WriteFails? then s.(writer := Stopped(false)) else ApplyWriter(s, step);
  }

  lemma ClaimKeeps(s: State)
    requires CoreInv(s) && (s.queue != [] || s.writer != Idle)
    ensures CoreInv(Claim(s))
  {
    hide IsReply;
  }

  /** Nothing but the writer itself looks at the writer's fields once it has something to do. */
  lemma WriterFieldsKeep(s: State, t: State)
    requires CoreInv(s) && (s.queue != [] || s.writer != Idle) && WriterOnly(s, t)
    ensures CoreInv(t)
  {
    hide IsReply;
  }

  lemma WriterSteps(s: State, step: WriterStep)
    requires CoreInv(s) && WritableBulk(s) && WriterEnabled(s, step)
    ensures CoreInv(ApplyWriter(s, step))
  {
    hide WritableBulk, ApplyWriter, WriterEnabled, CoreInv, Claim, WriterOnly;
    var u := WriterTouches(s, step);
    WriterFieldsKeep(s, u);
    if ApplyWriter(s, step) != u { ClaimKeeps(u); }
  }

  /** On a quiet connection nothing but the reader can move. */
  lemma OthersWait(s: State, step: OtherStep)
    requires OtherEnabled(s, step)
    ensures !Quiet(s)
  {
    hide IsReply, HasRoom;
  }

  lemma OtherReader(s: State, step: OtherStep)
    requires ReaderInv(s) && OthersInv(s) && OtherEnabled(s, step)
    requires Answered(s) ==> Answered(ApplyOther(s, step)) && s.st != Infant
    ensures ReaderInv(ApplyOther(s, step))
  {
    OthersWait(s, step);
    ReaderIsLeft(s, step);
    SettledIsLeft(s, step);
    DisconnectedIsLeft(s, step);
    hide Answered, ReaderInv, ApplyOther, OtherEnabled, Quiet, Settled;
    ReaderUnmoved(s, ApplyOther(s, step));
  }

  lemma ReaderIsLeft(s: State, step: OtherStep)
    requires OtherEnabled(s, step)
    ensures ApplyOther(s, step).reader == s.reader && ApplyOther(s, step).connects == s.connects
  {
    hide HasRoom, IsReply;
    match step
    case Drain =>
    case _ =>
  }

  lemma SettledIsLeft(s: State, step: OtherStep)
    requires OtherEnabled(s, step)
    ensures Settled(s) ==> Settled(ApplyOther(s, step))
  {
    hide HasRoom, IsReply;
    match step
    case Drain =>
    case _ =>
  }

  lemma DisconnectedIsLeft(s: State, step: OtherStep)
    requires OtherEnabled(s, step)
    ensures s.st == Disconnected ==> ApplyOther(s, step).st == Disconnected
  {
    hide HasRoom, IsReply;
    match step
    case Drain =>
    case _ =>
  }

  lemma OtherOthers(s: State, step: OtherStep)
    requires OthersInv(s) && OtherEnabled(s, step)
    requires Answered(s) ==> Answered(ApplyOther(s, step)) && s.st != Infant
    ensures OthersInv(ApplyOther(s, step))
  {
    hide Answered, IsReply;
  }

  lemma OtherCounts(s: State, step: OtherStep)
    requires OthersInv(s) && CountsInv(s) && OtherEnabled(s, step)
    ensures CountsInv(ApplyOther(s, step))
  {
    hide Answered, IsReply, Settled;
  }

  lemma OtherWill(s: State, step: OtherStep)
    requires OthersInv(s) && WillInv(s) && OtherEnabled(s, step)
    ensures WillInv(ApplyOther(s, step))
  {
    hide Answered, IsReply, Settled, HasRoom;
  }

  lemma OtherDone(s: State, step: OtherStep)
    requires DoneInv(s) && OtherEnabled(s, step)
    requires Answered(s) <==> Answered(ApplyOther(s, step))
    ensures DoneInv(ApplyOther(s, step))
  {
    hide Answered, IsReply;
  }

  lemma OtherSteps(s: State, step: OtherStep)
    requires CoreInv(s) && OtherEnabled(s, step)
    ensures CoreInv(ApplyOther(s, step))
  {
    hide ReaderInv, OthersInv, CountsInv, WillInv, DoneInv, OtherEnabled, ApplyOther, Grows, IsReply, Answered;
    var q := OtherGrows(s, step);
    GrowthKeepsAnswer(s, ApplyOther(s, step), q);
    AnsweredIsLate(s);
    OtherReader(s, step);
    OtherOthers(s, step);
    OtherCounts(s, step);
    OtherWill(s, step);
    OtherDone(s, step);
  }

  lemma StepKeepsInv(s: State, step: Step)
    requires Inv(s) && Enabled(s, step)
    ensures WritableBulk(s) && Inv(Apply(s, step))
  {
    hide ReaderInv, OthersInv, CountsInv, WillInv, DoneInv, QueueInv, WriterInv, BytesInv, WritableBulk, Grows,
      ApplyConnect, ApplyLoop, ApplyWriter, ApplyOther, ConnectEnabled, LoopEnabled, WriterEnabled, OtherEnabled;
    BulkIsWritable(s);
    match step
    case OnConnect(c) =>
      ConnectSteps(s, c);
      var q := ConnectGrows(s, c);
      GrowthKeeps(s, ApplyConnect(s, c), q);
    case OnLoop(l) =>
      LoopSteps(s, l);
      var q := LoopGrows(s, l);
      GrowthKeeps(s, ApplyLoop(s, l), q);
    case OnWrite(w) =>
      WriterSteps(s, w);
      WriterStepOk(s, w);
      WriterStepBytes(s, w);
    case OnOther(o) =>
      OtherSteps(s, o);
      var q := OtherGrows(s, o);
      GrowthKeeps(s, ApplyOther(s, o), q);
  }

  lemma InitInv()
    ensures Inv(Init())
  {
  }

  lemma {:induction false} RunKeepsInv(ss: seq<State>, steps: seq<Step>, n: nat)
    requires IsRun(ss, steps) && n < |ss|
    ensures Inv(ss[n])
  {
    hide Inv, Enabled, Apply, WritableBulk;
    if n == 0 {
      InitInv();
    } else {
      RunKeepsInv(ss, steps, n - 1);
      StepKeepsInv(ss[n - 1], steps[n - 1]);
    }
  }

  // ---- what every run keeps

  function Rank(st: ClientState): nat {
    match st
    case Infant => 0
    case Connected => 1
    case Disconnected => 2
  }

  predicate Forward(s: State, t: State) {
    Rank(s.st) <= Rank(t.st) && s.connects <= t.connects && (s.graceful ==> t.graceful)
  }

  lemma ConnectForward(s: State, step: ConnectStep)
    requires ReaderInv(s) && ConnectEnabled(s, step)
    ensures Forward(s, ApplyConnect(s, step))
  {
    hide Settled, Answered, Quiet;
    if step.BecomeConnected? || step.SetRefused? {
      assert s.st == Infant;
    }
  }

  lemma LoopForward(s: State, step: LoopStep)
    requires WillInv(s) && LoopEnabled(s, step)
    ensures Forward(s, ApplyLoop(s, step))
  {
  }

  lemma OtherForward(s: State, step: OtherStep)
    requires OtherEnabled(s, step)
    ensures Forward(s, ApplyOther(s, step))
  {
  }

  lemma WriterForward(s: State, u: State)
    requires WriterOnly(s, u)
    ensures Forward(s, u) && Forward(s, Claim(u))
  {
  }

  lemma StepForward(s: State, step: Step)
    requires ReaderInv(s) && WillInv(s) && Enabled(s, step) && WritableBulk(s)
    ensures Forward(s, Apply(s, step))
  {
    hide ReaderInv, WillInv, ApplyWriter, WriterEnabled, ApplyConnect, ConnectEnabled, ApplyLoop, LoopEnabled,
      ApplyOther, OtherEnabled;
    match step
    case OnConnect(c) => ConnectForward(s, c);
    case OnLoop(l) => LoopForward(s, l);
    case OnWrite(w) => var u := WriterTouches(s, w); WriterForward(s, u);
    case OnOther(o) => OtherForward(s, o);
  }

  /** The state byte never goes back: not from Connected to Infant, and from Disconnected nowhere. */
  lemma {:induction false} StateNeverGoesBack(ss: seq<State>, steps: seq<Step>, m: nat, n: nat)
    requires IsRun(ss, steps) && m <= n < |ss|
    ensures Rank(ss[m].st) <= Rank(ss[n].st) && Forward(ss[m], ss[n])
    decreases n
  {
    hide ReaderInv, OthersInv, CountsInv, WillInv, DoneInv, QueueInv, WriterInv, BytesInv, Enabled, Apply, WritableBulk, Rank;
    if m < n {
      StateNeverGoesBack(ss, steps, m, n - 1);
      RunKeepsInv(ss, steps, n - 1);
      StepForward(ss[n - 1], steps[n - 1]);
    }
  }

  predicate IsConnect(step: Step) {
    step.OnConnect? && (step.c.ParsedConnect? || step.c.BadVersion? || step.c.BadConnect?)
  }

  lemma ConnectCounts(s: State, step: ConnectStep)
    requires ReaderInv(s) && ConnectEnabled(s, step) && IsConnect(OnConnect(step))
    ensures s.connects == 0 && ApplyConnect(s, step).connects == 1
  {
    hide Settled, Answered, Quiet, IsReply, HasRoom;
    match step
    case ParsedConnect(_) =>
    case BadVersion =>
    case BadConnect =>
  }

  /** A second CONNECT is never let through, whatever became of the first. */
  lemma OneConnect(ss: seq<State>, steps: seq<Step>, i: nat, j: nat)
    requires IsRun(ss, steps) && i < j < |steps| && IsConnect(steps[i])
    ensures !IsConnect(steps[j])
  {
    hide ReaderInv, OthersInv, CountsInv, WillInv, DoneInv, QueueInv, WriterInv, BytesInv, WritableBulk, Rank,
      ConnectEnabled, ApplyConnect, LoopEnabled, ApplyLoop, WriterEnabled, ApplyWriter, OtherEnabled, ApplyOther;
    RunKeepsInv(ss, steps, i);
    RunKeepsInv(ss, steps, j);
    ConnectCounts(ss[i], steps[i].c);
    StateNeverGoesBack(ss, steps, i + 1, j);
    if IsConnect(steps[j]) {
      ConnectCounts(ss[j], steps[j].c);
    }
  }

  /** SetDisconnected claims the state once and queues one sentinel, however many threads call it. */
  lemma OneSentinel(ss: seq<State>, steps: seq<Step>, n: nat)
    requires IsRun(ss, steps) && n < |ss|
    ensures multiset(ss[n].queue)[Disconnect] == if ss[n].closing == Closed then 1 else 0
    ensures ss[n].closing == Open <==> ss[n].st != Disconnected
  {
    hide ReaderInv, CountsInv, WriterInv, BytesInv, Enabled, Apply, WritableBulk, UpToSentinel;
    RunKeepsInv(ss, steps, n);
    OneOccurrence(ss[n].queue, ss[n].closing == Closed);
  }

  lemma OneOccurrence(queue: seq<Packet>, closed: bool)
    requires QueueOk(queue, closed)
    ensures multiset(queue)[Disconnect] == if closed then 1 else 0
  {
    if closed {
      var i :| 0 <= i < |queue| && queue[i] == Disconnect;
      assert queue == queue[..i] + [Disconnect] + queue[i + 1..];
      assert Disconnect !in queue[..i] && Disconnect !in queue[i + 1..];
    }
  }

  /**
   * The CONNACK is queued once, before every other packet. Behind one that refuses there is nothing but the
   * sentinel, and nothing is handled, resent or called back unless one that accepts is there.
   */
  lemma ConnAckComesFirst(ss: seq<State>, steps: seq<Step>, n: nat)
    requires IsRun(ss, steps) && n < |ss|
    ensures var s := ss[n];
            && (forall i :: 0 < i < |s.queue| ==> !s.queue[i].ConnAck?)
            && (s.queue != [] ==> s.queue[0].ConnAck? || s.queue == [Disconnect])
            && (s.queue != [] && s.queue[0].ConnAck? && s.queue[0].returnCode != 0 ==> s.queue[1..] <= [Disconnect])
            && (s.managed || s.callbacks != [] || s.reader.Resuming? || s.reader.Handling? ==> Answered(s))
  {
    hide CountsInv, WillInv, WriterInv, BytesInv, Enabled, Apply, WritableBulk, UpToSentinel;
    RunKeepsInv(ss, steps, n);
  }

  /** The check of the state before a CONNACK never holds it back. */
  lemma ConnAckIsNotSkipped(ss: seq<State>, steps: seq<Step>, n: nat)
    requires IsRun(ss, steps) && n < |steps|
    ensures steps[n] == OnConnect(CheckConnAck) ==> ss[n + 1].reader == Accepting(true)
    ensures steps[n] == OnConnect(CheckRefusal) ==> ss[n + 1].reader == Refusing(ss[n].reader.code, true)
  {
    hide CountsInv, WriterInv, QueueInv, BytesInv, OthersInv, WritableBulk, UpToSentinel, Quiet, Settled, Answered,
      ApplyLoop, ApplyWriter, ApplyOther, LoopEnabled, WriterEnabled, OtherEnabled;
    RunKeepsInv(ss, steps, n);
  }

  /** A step of a handler other than the one for CONNECT, of a callback, or of the drain. */
  predicate NeedsSession(s: State, step: Step) {
    || (step.OnLoop? && (step.l.GotDisconnect? || step.l.GotOther? || step.l.HandlerSubscribes? || step.l.HandlerReturns?
                      || step.l.CheckReply? || step.l.RestoreSubscriptions? || step.l.Manage?))
    || (step.OnOther? && (step.o.Drain? || step.o.CallbackChecks? || step.o.CallbackSends?))
  }

  /** No handler finds the connect packet, the session or the NATS connection unset. */
  lemma HandlersFindTheirFields(ss: seq<State>, steps: seq<Step>, n: nat)
    requires IsRun(ss, steps) && n < |steps| && NeedsSession(ss[n], steps[n])
    ensures ss[n].connectPacket && ss[n].session && ss[n].natsConn
  {
    hide WriterInv, QueueInv, BytesInv, WritableBulk, UpToSentinel, Quiet, Answered, Apply;
    RunKeepsInv(ss, steps, n);
  }

  /** What is on the wire is a prefix of the queue up to the sentinel, all of it once the writer has seen the sentinel. */
  lemma WireFollowsQueue(ss: seq<State>, steps: seq<Step>, n: nat)
    requires IsRun(ss, steps) && n < |ss|
    ensures var s := ss[n];
            && s.wire <= UpToSentinel(s.queue)
            && AllWritable(s.wire) && s.sent == EncodeAll(s.wire)
            && (s.writer == Stopped(true) ==> s.wire == UpToSentinel(s.queue) && s.closing == Closed)
  {
    hide ReaderInv, OthersInv, CountsInv, Enabled, Apply, WritableBulk;
    RunKeepsInv(ss, steps, n);
    PrefixStopsAtSentinel(ss[n]);
  }

  lemma PrefixStopsAtSentinel(s: State)
    requires WriterInv(s)
    ensures s.wire <= UpToSentinel(s.queue)
  {
    if s.writer != Stopped(true) {
      assert s.queue[..s.taken] <= s.queue;
      assert s.wire <= s.queue;
      assert s.queue == s.wire + s.queue[|s.wire|..];
      UpToAppend(s.wire, s.queue[|s.wire|..]);
    }
  }

  /** The will is handed over at most once; never after a DISCONNECT that came first; and always when it was not discarded. */
  lemma WillIsPublishedUnlessDiscarded(ss: seq<State>, steps: seq<Step>, i: nat, n: nat)
    requires IsRun(ss, steps) && i < n < |ss|
    ensures ss[n].wills <= 1
    ensures steps[i] == OnLoop(GotDisconnect) && ss[i].st != Disconnected ==> ss[n].wills == 0
    ensures ss[n].closing == Closed && ss[n].will ==> ss[n].wills == 1
  {
    hide ReaderInv, QueueInv, WriterInv, BytesInv, Settled, Answered, Quiet, WritableBulk, Enabled, Apply;
    RunKeepsInv(ss, steps, n);
    if steps[i] == OnLoop(GotDisconnect) && ss[i].st != Disconnected {
      RunKeepsInv(ss, steps, i);
      GraceBegins(ss[i]);
      StateNeverGoesBack(ss, steps, i + 1, n);
    }
  }

  lemma GraceBegins(s: State)
    requires OthersInv(s) && Enabled(s, OnLoop(GotDisconnect)) && WritableBulk(s) && s.st != Disconnected
    ensures Apply(s, OnLoop(GotDisconnect)).graceful
  {
    hide AllWritable;
  }
}
