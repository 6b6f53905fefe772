/**
 * One client connection of bridge/client.go under every interleaving of its reader, its writer, the server's
 * drain and the NATS callbacks. A step is one locked section, one queue operation, or one read or write of a field
 * without a lock: the will is read three times by whoever runs SetDisconnected, and deleted by the reader. DeleteWill's
 * two writes, of the flags and of the will, are one step: the first decides for CheckWill, the second for the others.
 */
module LifeCycle {
  import opened Basics
  import opened Packets
  import opened CodecLaws
  import opened Clients
  import opened WriteLoop

  /** Where readLoop stands. A pending packet has passed queueForWrite's check of the state. */
  datatype Reader =
    | Top
    | Header(seen: ClientState)                       // the loop head saw this state; a header byte is awaited
    | Connecting                                      // handleConnect: the connect packet is set
    | HasNats
    | HasSession
    | Accepting(checked: bool)                        // connected, CONNACK not yet queued
    | Failing(code: u8)                               // a return code is the error, the state is not yet set
    | Refusing(code: u8, checked: bool)
    | Resuming(pending: Option<Packet>)               // acks are restored and resent, then the server manages the client
    | Handling(pending: Option<Packet>)               // any other packet is handled
    | Exit                                            // SetDisconnected is due
    | Gone

  datatype Writer =
    | Idle
    | Collecting(bulk: seq<Packet>)
    | Writing(bulk: seq<Packet>)
    | Stopped(drained: bool)

  /** How far the one SetDisconnected that found the client not yet disconnected has come. */
  datatype Closing =
    | Open
    | Claimed
    | WillSeen                                        // HasWill was true; Will is about to be handed to PublishWill
    | WillSent                                        // PublishWill succeeded; Will is about to be read for the log
    | WillHandled
    | Closed

  datatype State = State(
    st: ClientState,
    connectPacket: bool, will: bool, natsConn: bool, session: bool,
    managed: bool, subscribed: bool,
    queue: seq<Packet>, taken: nat,                   // everything ever queued; how much of it the writer has taken
    reader: Reader, writer: Writer, callbacks: seq<Packet>, closing: Closing,
    connects: nat, wills: nat, graceful: bool,        // CONNECTs let through, wills handed over, DISCONNECT came first
    crashed: bool,                                    // a will was read that had been deleted
    wire: seq<Packet>, sent: bytes)                   // packets and bytes that were written

  function Init(): State {
    State(Infant, false, false, false, false, false, false, [], 0, Top, Idle, [], Open, 0, 0, false, false, [], [])
  }

  /** What handlers and callbacks queue. */
  predicate IsReply(p: Packet) {
    p.PublishPacket? || p.PubAck? || p.SubAck? || p.UnsubAck? || p.PingResponse?
  }

  /** The queue and the writer's bulk have the same size. */
  const CAPACITY: nat := BULK

  predicate HasRoom(s: State) { |s.queue| < s.taken + CAPACITY }

  function Enqueue(s: State, p: Packet): State { s.(queue := s.queue + [p]) }

  /** The locked section of SetDisconnected. */
  function Claim(s: State): State {
    if s.st == Disconnected then s else s.(st := Disconnected, closing := Claimed)
  }

  /** readLoop up to the end of handleConnect. */
  datatype ConnectStep =
    | ParsedConnect(will: bool)
    | BadVersion
    | BadConnect
    | NatsFails
    | NatsConnects
    | SessionFound
    | BecomeConnected
    | CheckConnAck
    | SendConnAck(flags: u8)
    | SetRefused
    | CheckRefusal
    | SendRefusal

  /** readLoop around and after handleConnect. */
  datatype LoopStep =
    | LoopHead
    | ReadFails
    | RestoreSubscriptions
    | CheckReply(p: Packet)
    | SendReply
    | Manage
    | GotDisconnect
    | GotOther
    | HandlerSubscribes
    | HandlerReturns(failed: bool)
    | ReaderCloses

  datatype WriterStep = TakeFirst | TakeMore | StopCollecting | WriteSucceeds | WriteFails

  /** The drain, the NATS callbacks, and what is left of SetDisconnected after its locked section. */
  datatype OtherStep =
    | Drain
    | CallbackChecks(p: Packet)
    | CallbackSends(i: nat)
    | CheckWill
    | PublishWill(ok: bool)
    | LogWill
    | SendSentinel

  datatype Step = OnConnect(c: ConnectStep) | OnLoop(l: LoopStep) | OnWrite(w: WriterStep) | OnOther(o: OtherStep)

  predicate ConnectEnabled(s: State, step: ConnectStep) {
    match step
    case ParsedConnect(_) => s.reader == Header(Infant)
    case BadVersion => s.reader == Header(Infant)
    case BadConnect => s.reader == Header(Infant)
    case NatsFails => s.reader == Connecting
    case NatsConnects => s.reader == Connecting
    case SessionFound => s.reader == HasNats
    case BecomeConnected => s.reader == HasSession
    case CheckConnAck => s.reader == Accepting(false)
    case SendConnAck(_) => s.reader == Accepting(true) && HasRoom(s)
    case SetRefused => s.reader.Failing?
    case CheckRefusal => s.reader.Refusing? && !s.reader.checked
    case SendRefusal => s.reader.Refusing? && s.reader.checked && HasRoom(s)
  }

  function ApplyConnect(s: State, step: ConnectStep): State
    requires ConnectEnabled(s, step)
  {
    match step
    case ParsedConnect(will) => s.(reader := Connecting, connects := s.connects + 1, connectPacket := true, will := will)
    case BadVersion => s.(reader := Failing(1), connects := s.connects + 1)
    case BadConnect => s.(reader := Exit, connects := s.connects + 1)
    case NatsFails => s.(reader := Failing(3))
    case NatsConnects => s.(reader := HasNats, natsConn := true)
    case SessionFound => s.(reader := HasSession, session := true)
    case BecomeConnected => s.(reader := Accepting(false), st := Connected)   // whatever the state was
    case CheckConnAck => s.(reader := if s.st == Connected then Accepting(true) else Resuming(None))
    case SendConnAck(flags) => Enqueue(s, ConnAck(flags, 0)).(reader := Resuming(None))
    case SetRefused => s.(reader := Refusing(s.reader.code, false), st := Connected)
    case CheckRefusal => s.(reader := if s.st == Connected then Refusing(s.reader.code, true) else Exit)
    case SendRefusal => Enqueue(s, ConnAck(0, s.reader.code)).(reader := Exit)
  }

  predicate LoopEnabled(s: State, step: LoopStep) {
    match step
    case LoopHead => s.reader == Top
    case ReadFails => s.reader.Header?
    case RestoreSubscriptions => s.reader == Resuming(None)
    case CheckReply(p) => (s.reader == Resuming(None) || s.reader == Handling(None)) && IsReply(p)
    case SendReply => (s.reader.Resuming? || s.reader.Handling?) && s.reader.pending.Some? && HasRoom(s)
    case Manage => s.reader == Resuming(None)
    case GotDisconnect => s.reader == Header(Connected)
    case GotOther => s.reader == Header(Connected)
    case HandlerSubscribes => s.reader == Handling(None)
    case HandlerReturns(_) => s.reader == Handling(None)
    case ReaderCloses => s.reader == Exit
  }

  /** The reader with another packet, or none, between queueForWrite's check and its send. */
  function WithPending(r: Reader, p: Option<Packet>): Reader {
    if r.Resuming? then Resuming(p) else Handling(p)
  }

  function ApplyLoop(s: State, step: LoopStep): State
    requires LoopEnabled(s, step)
  {
    match step
    case LoopHead => s.(reader := if s.st == Disconnected then Exit else Header(s.st))
    case ReadFails => s.(reader := Exit)
    case RestoreSubscriptions => s.(subscribed := true)
    case CheckReply(p) => if s.st != Connected then s else s.(reader := WithPending(s.reader, Some(p)))
    case SendReply => Enqueue(s, s.reader.pending.value).(reader := WithPending(s.reader, None))
    case Manage => s.(reader := Top, managed := true)
    case GotDisconnect => s.(reader := Exit, will := false, graceful := s.closing == Open)
    case GotOther => s.(reader := Handling(None))
    case HandlerSubscribes => s.(subscribed := true)
    case HandlerReturns(failed) => s.(reader := if failed then Exit else Top)
    case ReaderCloses => Claim(s).(reader := Gone)
  }

  predicate WriterEnabled(s: State, step: WriterStep) {
    match step
    case TakeFirst => s.writer == Idle && s.taken < |s.queue|
    case TakeMore => s.writer.Collecting? && |s.writer.bulk| < BULK && s.taken < |s.queue|
    case StopCollecting => s.writer.Collecting? && (|s.writer.bulk| == BULK || s.taken == |s.queue|)
    case WriteSucceeds => s.writer.Writing?
    case WriteFails => s.writer.Writing? && UpToSentinel(s.writer.bulk) != []
  }

  predicate WritableBulk(s: State) { s.writer.Writing? ==> AllWritable(s.writer.bulk) }

  function ApplyWriter(s: State, step: WriterStep): State
    requires WriterEnabled(s, step) && WritableBulk(s)
  {
    match step
    case TakeFirst => s.(writer := Collecting([s.queue[s.taken]]), taken := s.taken + 1)
    case TakeMore => s.(writer := Collecting(s.writer.bulk + [s.queue[s.taken]]), taken := s.taken + 1)
    case StopCollecting => s.(writer := Writing(s.writer.bulk))
    case WriteSucceeds =>
      var out := UpToSentinel(s.writer.bulk);
      s.(wire := s.wire + out, sent := s.sent + EncodeAll(out),
         writer := if Disconnect in s.writer.bulk then Stopped(true) else Idle)
    case WriteFails =>
      var stopped := s.(writer := Stopped(false));
      if Disconnect in s.writer.bulk then stopped else Claim(stopped)
  }

  predicate OtherEnabled(s: State, step: OtherStep) {
    match step
    case Drain => s.managed
    case CallbackChecks(p) => s.subscribed && IsReply(p)
    case CallbackSends(i) => i < |s.callbacks| && HasRoom(s)
    case CheckWill => s.closing == Claimed
    case PublishWill(_) => s.closing == WillSeen
    case LogWill => s.closing == WillSent
    case SendSentinel => s.closing == WillHandled && HasRoom(s)
  }

  function ApplyOther(s: State, step: OtherStep): State
    requires OtherEnabled(s, step)
  {
    match step
    case Drain => Claim(s)
    case CallbackChecks(p) => if s.st == Connected then s.(callbacks := s.callbacks + [p]) else s
    case CallbackSends(i) => Enqueue(s, s.callbacks[i]).(callbacks := s.callbacks[..i] + s.callbacks[i + 1..])
    case CheckWill => s.(closing := if s.connectPacket && s.will then WillSeen else WillHandled)
    case PublishWill(ok) =>
      if !s.will then s.(crashed := true)
      else s.(closing := if ok then WillSent else WillHandled, wills := s.wills + 1)
    case LogWill => if !s.will then s.(crashed := true) else s.(closing := WillHandled)
    case SendSentinel => Enqueue(s, Disconnect).(closing := Closed)
  }

  /** Nothing happens any more once the process has crashed. */
  predicate Enabled(s: State, step: Step) {
    !s.crashed &&
    match step
    case OnConnect(c) => ConnectEnabled(s, c)
    case OnLoop(l) => LoopEnabled(s, l)
    case OnWrite(w) => WriterEnabled(s, w)
    case OnOther(o) => OtherEnabled(s, o)
  }

  function Apply(s: State, step: Step): State
    requires Enabled(s, step) && WritableBulk(s)
  {
    match step
    case OnConnect(c) => ApplyConnect(s, c)
    case OnLoop(l) => ApplyLoop(s, l)
    case OnWrite(w) => ApplyWriter(s, w)
    case OnOther(o) => ApplyOther(s, o)
  }

  ghost predicate IsRun(ss: seq<State>, steps: seq<Step>) {
    && |ss| == |steps| + 1 && ss[0] == Init()
    && forall i :: 0 <= i < |steps| ==> Enabled(ss[i], steps[i]) && WritableBulk(ss[i]) && ss[i + 1] == Apply(ss[i], steps[i])
  }

  // ---- the invariant

  /** Nothing but the reader has anything to do yet. */
  predicate Quiet(s: State) {
    s.closing == Open && s.queue == [] && !s.managed && !s.subscribed && s.callbacks == [] && s.writer == Idle && s.wills == 0
  }

  predicate Settled(s: State) { s.connectPacket && s.natsConn && s.session }

  predicate Answered(s: State) { s.queue != [] && s.queue[0].ConnAck? && s.queue[0].returnCode == 0 }

  predicate ReaderInv(s: State) {
    match s.reader
    case Top => if s.connects == 0 then Quiet(s) && s.st == Infant else Settled(s) && Answered(s)
    case Header(seen) =>
      if s.connects == 0 then Quiet(s) && s.st == Infant && seen == Infant
      else Settled(s) && Answered(s) && seen == Connected
    case Connecting => Quiet(s) && s.st == Infant && s.connectPacket
    case HasNats => Quiet(s) && s.st == Infant && s.connectPacket && s.natsConn
    case HasSession => Quiet(s) && s.st == Infant && Settled(s)
    case Accepting(_) => Quiet(s) && s.st == Connected && Settled(s)
    case Failing(code) => Quiet(s) && s.st == Infant && code != 0
    case Refusing(code, _) => Quiet(s) && s.st == Connected && code != 0
    case Resuming(p) => Settled(s) && Answered(s) && (p.Some? ==> IsReply(p.value))
    case Handling(p) => Settled(s) && Answered(s) && (p.Some? ==> IsReply(p.value))
    case Exit => true
    case Gone => s.st == Disconnected
  }

  /** Once the reader is done, a client that sent a CONNECT was accepted exactly when NATS accepted it. */
  predicate DoneInv(s: State) {
    && (s.reader.Connecting? || s.reader.Failing? || s.reader.Refusing? ==> !s.natsConn)
    && (s.reader.Exit? || s.reader.Gone? ==> s.connectPacket ==> (s.natsConn <==> Answered(s)))
  }

  predicate OthersInv(s: State) {
    && (s.managed || s.subscribed || s.callbacks != [] ==> Settled(s) && Answered(s))
    && (forall i :: 0 <= i < |s.callbacks| ==> IsReply(s.callbacks[i]))
    && (s.closing == Open <==> s.st != Disconnected)
    && (s.st == Infant ==> s.queue == [])
  }

  predicate CountsInv(s: State) {
    && s.connects <= 1
    && (s.connects == 0 ==> (s.reader.Top? || s.reader.Header? || s.reader.Exit? || s.reader.Gone?))
    && (s.connects == 0 ==> !s.will && !s.connectPacket && !s.natsConn)
    && (s.st == Connected ==> s.connects == 1)
  }

  /** The will is handed over at most once, and is only looked at once SetDisconnected has begun. */
  predicate WillInv(s: State) {
    && (s.will || s.wills > 0 || s.closing == WillSeen || s.closing == WillSent ==> s.connectPacket)
    && s.wills <= 1 && (s.closing == Open || s.closing == Claimed || s.closing == WillSeen ==> s.wills == 0)
    && (s.will && (s.closing == WillSent || s.closing == WillHandled || s.closing == Closed) ==> s.wills == 1)
    && (s.wills > 0 && !s.will ==> s.natsConn)
    && (s.graceful ==> !s.will && s.wills == 0 && s.closing != WillSeen && s.closing != WillSent)
    && (s.graceful ==> s.reader.Exit? || s.reader.Gone?)
  }

  /** One CONNACK at most, and in front; one sentinel at most; nothing a server does not send. */
  predicate QueueOk(queue: seq<Packet>, closed: bool) {
    && (forall i :: 0 < i < |queue| ==> !queue[i].ConnAck?)
    && (forall i :: 0 <= i < |queue| ==> !queue[i].ConnectPacket?)
    && (queue != [] ==> queue[0].ConnAck? || queue == [Disconnect])
    && (queue != [] && queue[0].ConnAck? && queue[0].returnCode != 0 ==> |queue| == 1 || queue[1..] == [Disconnect])
    && (Disconnect in queue <==> closed)
    && (forall i, j :: 0 <= i < j < |queue| ==> queue[i] != Disconnect || queue[j] != Disconnect)
  }

  /** What was taken is what was written followed by the bulk in hand. */
  predicate WriterOk(queue: seq<Packet>, taken: nat, writer: Writer, wire: seq<Packet>) {
    && taken <= |queue|
    && match writer
       case Idle => wire == queue[..taken] && Disconnect !in wire
       case Collecting(bulk) => wire + bulk == queue[..taken] && Disconnect !in wire
       case Writing(bulk) => wire + bulk == queue[..taken] && Disconnect !in wire
       case Stopped(drained) =>
         if drained then wire == UpToSentinel(queue) && Disconnect in queue
         else wire <= queue && Disconnect !in wire
  }

  predicate BytesInv(s: State) { AllWritable(s.wire) && s.sent == EncodeAll(s.wire) }

  predicate QueueInv(s: State) { QueueOk(s.queue, s.closing == Closed) }

  predicate WriterInv(s: State) { WriterOk(s.queue, s.taken, s.writer, s.wire) }

  /** The reader, the state byte, the counters and the will. */
  predicate CoreInv(s: State) { ReaderInv(s) && OthersInv(s) && CountsInv(s) && WillInv(s) && DoneInv(s) }

  predicate Inv(s: State) {
    CoreInv(s) && QueueInv(s) && WriterInv(s) && BytesInv(s)
  }
}
