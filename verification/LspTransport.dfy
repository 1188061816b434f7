/** The client side of a language server connection: callers that register a pending call, queue
    one frame and wait; one writer goroutine; and the ways the client comes to its end. */
module LspTransport {

  const QUEUE := 64

  /** The atomic state of a queued frame; `NoFrame` before there is one. */
  datatype Outbound = NoFrame | Queued | Active | Canceled | Complete

  datatype Pc =
    | Registered | Checked | Ready | Waiting
    | LoadA | LoadB | MustReceive | RunsFail
    | Failing | Await | Finished

  /** A call (or a notification, which has no pending entry): where it stands, its place in the
      pending table, the message on its way or sent to its channel, its frame, and the writer's
      replies about that frame. */
  datatype Caller = Caller(
    call: bool, pc: Pc, pending: bool, flight: bool, sent: nat, out: Outbound, replies: nat, good: bool)

  datatype Once = Unset | Making(owner: nat) | Set

  /** The body of `failWriter`, which runs once. */
  datatype Stop = Open | Exiting | Drained | Closed

  /** The process waiter, which also cleans up. */
  datatype Waiter = Watching | Reaping | Reaped

  /** How far the client is from its end: `closes` counts closes of the writer's channel, and
      `bySetup` and `byStop` remember who closed it. */
  datatype Life = Life(
    exited: bool, drained: bool, once: Once, stop: Stop, waiter: Waiter, closes: nat, bySetup: bool, byStop: bool)

  datatype Writer =
    | Off | Idle
    | Picked(c: nat) | Writing(c: nat) | Broken(c: nat) | Written(c: nat) | Replying(c: nat, good: bool)
    | Left

  /** A frame put on the wire, whole or broken off. */
  datatype Chunk = Chunk(c: nat, whole: bool)

  /** The writer's side: its queue, where it is, its sticky error, and what it has written. */
  datatype Pipe = Pipe(queue: seq<nat>, writer: Writer, stopped: bool, wire: seq<Chunk>)

  datatype State = State(life: Life, callers: map<nat, Caller>, pipe: Pipe)

  const BOOT := State(Life(false, false, Unset, Open, Watching, 0, false, false), map[], Pipe([], Off, false, []))

  /** Until the frame is queued. */
  datatype SetupAct = Register(call: bool) | CheckExit | EnsureMake | EnsureCheck | Proceed | Enqueue | GiveUp

  /** Until the writer's word. */
  datatype WaitAct = TakeReply | SeeClosed | CancelFrame | LoadFirst | LoadSecond | FailReturns

  /** The response: the caller's part, and the reader routing it. */
  datatype SettleAct = Remove | TakeResponse | CancelAwait | ResponseTake | ResponseSend

  /** The end of the client: the stop, and the process waiter. */
  datatype EndAct = StopBegin | StopDrain | StopClose | WaiterExit | WaiterDrain

  datatype WriterAct =
    WriterNext | WriterLeave | WriterStart | WriterWrite(ok: bool) | WriterFailed | WriterFinish | WriterReply

  datatype Step =
    | Setup(c: nat, setup: SetupAct)
    | Wait(c: nat, wait: WaitAct)
    | Settle(c: nat, settle: SettleAct)
    | End(end: EndAct)
    | Write(write: WriterAct)

  predicate At(s: State, c: nat, pc: Pc) { c in s.callers && s.callers[c].pc == pc }

  predicate SetupEnabled(s: State, c: nat, a: SetupAct) {
    match a
    case Register(_) => c !in s.callers
    case CheckExit => At(s, c, Registered)
    case EnsureMake => At(s, c, Checked) && s.life.once == Unset
    case EnsureCheck => At(s, c, Checked) && s.life.once == Making(c)
    case Proceed => At(s, c, Checked) && s.life.once == Set
    case Enqueue => At(s, c, Ready) && |s.pipe.queue| < QUEUE
    case GiveUp => At(s, c, Ready)
  }

  predicate WaitEnabled(l: Life, k: Caller, a: WaitAct) {
    match a
    case TakeReply => (k.pc == Waiting || k.pc == MustReceive) && k.replies > 0
    case SeeClosed => k.pc == Waiting && l.closes > 0
    case CancelFrame => k.pc == Waiting
    case LoadFirst => k.pc == LoadA
    case LoadSecond => k.pc == LoadB
    case FailReturns => k.pc == RunsFail && l.stop == Closed
  }

  predicate SettleEnabled(k: Caller, a: SettleAct) {
    match a
    case Remove => k.pc == Failing
    case TakeResponse => k.pc == Await && k.sent > 0
    case CancelAwait => k.pc == Await
    case ResponseTake => k.pending
    case ResponseSend => k.flight
  }

  predicate EndEnabled(l: Life, a: EndAct) {
    match a
    case StopBegin => l.stop == Open
    case StopDrain => l.stop == Exiting
    case StopClose => l.stop == Drained
    case WaiterExit => l.waiter == Watching
    case WaiterDrain => l.waiter == Reaping
  }

  predicate WriterEnabled(s: State, a: WriterAct) {
    var w := s.pipe.writer;
    match a
    case WriterNext => w == Idle && s.pipe.queue != []
    case WriterLeave => w == Idle && s.life.closes > 0
    case WriterStart => w.Picked? && w.c in s.callers
    case WriterWrite(_) => w.Writing?
    case WriterFailed => w.Broken? && s.life.stop == Closed
    case WriterFinish => w.Written? && w.c in s.callers
    case WriterReply => w.Replying? && w.c in s.callers
  }

  /** A second close of the same channel is a crash, after which nothing happens. */
  predicate Enabled(s: State, e: Step) {
    s.life.closes < 2 &&
    match e
    case Setup(c, a) => SetupEnabled(s, c, a)
    case Wait(c, a) => c in s.callers && WaitEnabled(s.life, s.callers[c], a)
    case Settle(c, a) => c in s.callers && SettleEnabled(s.callers[c], a)
    case End(a) => EndEnabled(s.life, a)
    case Write(a) => WriterEnabled(s, a)
  }

  function Put(s: State, c: nat, k: Caller): State { s.(callers := s.callers[c := k]) }

  function Move(s: State, c: nat, pc: Pc): State
    requires c in s.callers
  {
    Put(s, c, s.callers[c].(pc := pc))
  }

  function TakeSetup(s: State, c: nat, a: SetupAct): State
    requires SetupEnabled(s, c, a)
  {
    match a
    case Register(call) => Put(s, c, Caller(call, Registered, call, false, 0, NoFrame, 0, false))
    case CheckExit => Move(s, c, if s.life.exited then Failing else Checked)
    case EnsureMake => s.(life := s.life.(once := Making(c)))
    case EnsureCheck =>
      if s.life.exited then s.(life := s.life.(once := Set, closes := s.life.closes + 1, bySetup := true))
      else s.(life := s.life.(once := Set), pipe := s.pipe.(writer := Idle))
    case Proceed => Move(s, c, Ready)
    case Enqueue => Put(s, c,
      s.callers[c].(pc := Waiting, out := Queued)).(pipe := s.pipe.(queue := s.pipe.queue + [c]))
    case GiveUp => Move(s, c, Failing)
  }

  /** A caller that got the writer's word goes on to its response, or fails. */
  function AfterReply(k: Caller): Pc { if !k.good then Failing else if k.call then Await else Finished }

  function AfterWait(k: Caller, a: WaitAct): Caller {
    match a
    case TakeReply => k.(pc := AfterReply(k))
    case SeeClosed => k.(pc := Failing)
    case CancelFrame => if k.out == Queued then k.(pc := Failing, out := Canceled) else k.(pc := LoadA)
    case LoadFirst => k.(pc := if k.out == Complete then MustReceive else LoadB)
    case LoadSecond => k.(pc := if k.out == Active then RunsFail else Failing)
    case FailReturns => k.(pc := Failing)
  }

  function AfterSettle(k: Caller, a: SettleAct): Caller {
    match a
    case Remove => k.(pc := Finished, pending := false)
    case TakeResponse => k.(pc := Finished)
    case CancelAwait => k.(pc := Finished, pending := false)
    case ResponseTake => k.(pending := false, flight := true)
    case ResponseSend => k.(flight := false, sent := k.sent + 1)
  }

  function DrainOne(k: Caller): Caller { if k.pending then k.(pending := false, sent := k.sent + 1) else k }

  /** Every pending call gets the exit error and leaves the table, under the table's lock. */
  function DrainAll(callers: map<nat, Caller>): map<nat, Caller> { map c | c in callers :: DrainOne(callers[c]) }

  function AfterEnd(l: Life, a: EndAct): Life {
    match a
    case StopBegin => l.(stop := Exiting, exited := true)
    case StopDrain => l.(stop := Drained, drained := true)
    case StopClose =>
      if l.once == Unset then l.(stop := Closed) else l.(stop := Closed, closes := l.closes + 1, byStop := true)
    case WaiterExit => l.(waiter := Reaping, exited := true)
    case WaiterDrain => l.(waiter := Reaped, drained := true)
  }

  function TakeEnd(s: State, a: EndAct): State {
    s.(life := AfterEnd(s.life, a),
      callers := if a.StopDrain? || a.WaiterDrain? then DrainAll(s.callers) else s.callers)
  }

  function TakeWrite(s: State, a: WriterAct): State
    requires WriterEnabled(s, a)
  {
    var p := s.pipe;
    match a
    case WriterNext => s.(pipe := p.(writer := Picked(p.queue[0]), queue := p.queue[1..]))
    case WriterLeave => s.(pipe := p.(writer := Left))
    case WriterStart =>
      var c := p.writer.c;
      if !p.stopped && s.callers[c].out == Queued
      then Put(s, c, s.callers[c].(out := Active)).(pipe := p.(writer := Writing(c)))
      else s.(pipe := p.(writer := Replying(c, false)))
    case WriterWrite(ok) =>
      var c := p.writer.c;
      s.(pipe := p.(wire := p.wire + [Chunk(c, ok)], stopped := p.stopped || !ok,
        writer := if ok then Written(c) else Broken(c)))
    case WriterFailed => s.(pipe := p.(writer := Written(p.writer.c)))
    case WriterFinish =>
      var c := p.writer.c;
      Put(s, c, s.callers[c].(out := Complete)).(pipe := p.(writer := Replying(c, !p.stopped)))
    case WriterReply =>
      var c, k := p.writer.c, s.callers[p.writer.c];
      Put(s, c, k.(replies := k.replies + 1, good := p.writer.good)).(pipe := p.(writer := Idle))
  }

  function Take(s: State, e: Step): State
    requires Enabled(s, e)
  {
    match e
    case Setup(c, a) => TakeSetup(s, c, a)
    case Wait(c, a) => Put(s, c, AfterWait(s.callers[c], a))
    case Settle(c, a) => Put(s, c, AfterSettle(s.callers[c], a))
    case End(a) => TakeEnd(s, a)
    case Write(a) => TakeWrite(s, a)
  }

  ghost predicate ReachedIn(n: nat, s: State) {
    if n == 0 then s == BOOT
    else exists b: State, e: Step :: ReachedIn(n - 1, b) && Enabled(b, e) && s == Take(b, e)
  }

  ghost predicate Reachable(s: State) { exists n: nat :: ReachedIn(n, s) }

  // ----- one message a channel, and nobody left without one -----

  function Bit(b: bool): nat { if b then 1 else 0 }

  /** A call's single message: still to be sent by whoever finds it pending, on its way, or sent. */
  function Message(k: Caller): nat { Bit(k.pending) + Bit(k.flight) + k.sent }

  predicate TokenOk(drained: bool, k: Caller) {
    && Message(k) <= 1
    && (!k.call ==> Message(k) == 0 && k.pc != Await)
    && (k.call && k.pc != Finished ==> Message(k) == 1)
    && (drained && k.pending ==> k.pc == Registered || k.pc == Failing)
  }

  predicate Flags(l: Life) { l.drained || l.stop != Open || l.waiter != Watching ==> l.exited }

  predicate Tokens(s: State) { Flags(s.life) && forall c | c in s.callers :: TokenOk(s.life.drained, s.callers[c]) }

  lemma WaitKeepsToken(l: Life, k: Caller, a: WaitAct)
    requires WaitEnabled(l, k, a) && TokenOk(l.drained, k)
    ensures TokenOk(l.drained, AfterWait(k, a))
  {}

  lemma SettleKeepsToken(drained: bool, k: Caller, a: SettleAct)
    requires SettleEnabled(k, a) && TokenOk(drained, k)
    ensures TokenOk(drained, AfterSettle(k, a))
  {}

  lemma DrainKeepsToken(drained: bool, k: Caller)
    requires TokenOk(drained, k)
    ensures TokenOk(true, DrainOne(k))
  {}

  lemma SetupKeepsTokens(s: State, c: nat, a: SetupAct)
    requires SetupEnabled(s, c, a) && Tokens(s)
    ensures Tokens(TakeSetup(s, c, a))
  {}

  lemma EndKeepsTokens(s: State, a: EndAct)
    requires EndEnabled(s.life, a) && Tokens(s)
    ensures Tokens(TakeEnd(s, a))
  {
    if a.StopDrain? || a.WaiterDrain? {
      forall c | c in s.callers
        ensures TokenOk(true, DrainOne(s.callers[c])) { DrainKeepsToken(s.life.drained, s.callers[c]); }
    }
  }

  lemma WriterKeepsTokens(s: State, a: WriterAct)
    requires WriterEnabled(s, a) && Tokens(s)
    ensures Tokens(TakeWrite(s, a))
  {}

  lemma StepKeepsTokens(s: State, e: Step)
    requires Enabled(s, e) && Tokens(s)
    ensures Tokens(Take(s, e))
  {
    match e
    case Setup(c, a) => SetupKeepsTokens(s, c, a);
    case Wait(c, a) => WaitKeepsToken(s.life, s.callers[c], a);
    case Settle(c, a) => SettleKeepsToken(s.life.drained, s.callers[c], a);
    case End(a) => EndKeepsTokens(s, a);
    case Write(a) => WriterKeepsTokens(s, a);
  }

  // ----- the writer -----

  predicate Holds(w: Writer, c: nat) { (w.Writing? || w.Broken? || w.Written?) && w.c == c }

  predicate Busy(w: Writer, c: nat) {
    (w.Picked? || w.Writing? || w.Broken? || w.Written? || w.Replying?) && w.c == c
  }

  /** A frame and the writer agree about who has it. */
  predicate FrameOk(p: Pipe, c: nat, k: Caller) {
    && (k.out == Active <==> Holds(p.writer, c))
    && k.replies <= 1
    && (k.out == Complete && k.replies == 0 ==> p.writer.Replying? && p.writer.c == c)
    && (k.out == NoFrame ==> k.replies == 0 && !Busy(p.writer, c) && c !in p.queue)
    && (Busy(p.writer, c) ==> k.replies == 0 && c !in p.queue)
    && (c in p.queue ==> k.replies == 0 && (k.out == Queued || k.out == Canceled))
    && (p.writer.Picked? && p.writer.c == c ==> k.out == Queued || k.out == Canceled)
    && (k.pc == MustReceive ==> k.out == Complete)
    && (k.pc == Registered || k.pc == Checked || k.pc == Ready ==> k.out == NoFrame)
  }

  predicate Distinct(q: seq<nat>) { forall i, j | 0 <= i < j < |q| :: q[i] != q[j] }

  predicate FramesOf(s: State, c: nat) {
    if c in s.callers then FrameOk(s.pipe, c, s.callers[c]) else c !in s.pipe.queue && !Busy(s.pipe.writer, c)
  }

  predicate WriterAfterSetup(s: State) { s.life.once == Set || s.pipe.writer == Off }

  ghost predicate Frames(s: State) { Distinct(s.pipe.queue) && WriterAfterSetup(s) && forall c :: FramesOf(s, c) }

  lemma WaitKeepsFrame(p: Pipe, c: nat, l: Life, k: Caller, a: WaitAct)
    requires WaitEnabled(l, k, a) && FrameOk(p, c, k)
    ensures FrameOk(p, c, AfterWait(k, a))
  {}

  lemma SettleKeepsFrame(p: Pipe, c: nat, k: Caller, a: SettleAct)
    requires SettleEnabled(k, a) && FrameOk(p, c, k)
    ensures FrameOk(p, c, AfterSettle(k, a))
  {}

  lemma SetupKeepsFrame(s: State, c: nat, a: SetupAct, x: nat)
    requires SetupEnabled(s, c, a) && FramesOf(s, x) && WriterAfterSetup(s)
    ensures FramesOf(TakeSetup(s, c, a), x)
  {}

  lemma NextKeepsFrame(s: State, x: nat)
    requires WriterEnabled(s, WriterNext) && FramesOf(s, x) && Distinct(s.pipe.queue)
    ensures FramesOf(TakeWrite(s, WriterNext), x)
  {
    var q := s.pipe.queue;
    assert q == [q[0]] + q[1..];
  }

  lemma WriterKeepsFrame(s: State, a: WriterAct, x: nat)
    requires WriterEnabled(s, a) && !a.WriterNext? && FramesOf(s, x)
    ensures FramesOf(TakeWrite(s, a), x)
  {}

  lemma StepKeepsFrame(s: State, e: Step, x: nat)
    requires Enabled(s, e) && FramesOf(s, x) && WriterAfterSetup(s) && Distinct(s.pipe.queue)
    ensures FramesOf(Take(s, e), x)
  {
    match e
    case Setup(c, a) => SetupKeepsFrame(s, c, a, x);
    case Wait(c, a) => if x == c { WaitKeepsFrame(s.pipe, c, s.life, s.callers[c], a); }
    case Settle(c, a) => if x == c { SettleKeepsFrame(s.pipe, c, s.callers[c], a); }
    case End(a) =>
    case Write(a) => if a.WriterNext? { NextKeepsFrame(s, x); } else { WriterKeepsFrame(s, a, x); }
  }

  lemma StepKeepsQueue(s: State, e: Step)
    requires Enabled(s, e) && Distinct(s.pipe.queue) && WriterAfterSetup(s) && (e.Setup? ==> FramesOf(s, e.c))
    ensures Distinct(Take(s, e).pipe.queue) && WriterAfterSetup(Take(s, e))
  {}

  lemma StepKeepsFrames(s: State, e: Step)
    requires Enabled(s, e) && Frames(s)
    ensures Frames(Take(s, e))
  {
    StepKeepsQueue(s, e);
    forall x ensures FramesOf(Take(s, e), x) { StepKeepsFrame(s, e, x); }
  }

  // ----- the wire -----

  predicate ChunkOk(s: State, i: nat)
    requires i < |s.pipe.wire|
  {
    var c := s.pipe.wire[i].c;
    && c in s.callers && (s.callers[c].out == Active || s.callers[c].out == Complete)
    && !(s.pipe.writer.Writing? && s.pipe.writer.c == c)
    && (!s.pipe.wire[i].whole ==> s.pipe.stopped && i == |s.pipe.wire| - 1)
  }

  predicate Quiet(p: Pipe) { p.stopped ==> !p.writer.Writing? }

  predicate Wire(s: State) {
    && Quiet(s.pipe)
    && (forall i | 0 <= i < |s.pipe.wire| :: ChunkOk(s, i))
    && (forall i, j | 0 <= i < j < |s.pipe.wire| :: s.pipe.wire[i].c != s.pipe.wire[j].c)
  }

  lemma SetupKeepsChunk(s: State, c: nat, a: SetupAct, i: nat)
    requires SetupEnabled(s, c, a) && i < |s.pipe.wire| && ChunkOk(s, i) && FramesOf(s, s.pipe.wire[i].c)
      && WriterAfterSetup(s)
    ensures ChunkOk(TakeSetup(s, c, a), i)
  {}

  lemma WriterKeepsChunk(s: State, a: WriterAct, i: nat)
    requires WriterEnabled(s, a) && i < |s.pipe.wire| && ChunkOk(s, i) && FramesOf(s, s.pipe.wire[i].c) && Quiet(s.pipe)
    ensures ChunkOk(TakeWrite(s, a), i)
  {}

  lemma WriterAddsChunk(s: State, ok: bool)
    requires WriterEnabled(s, WriterWrite(ok)) && FramesOf(s, s.pipe.writer.c)
    ensures ChunkOk(TakeWrite(s, WriterWrite(ok)), |s.pipe.wire|)
  {}

  lemma StepKeepsChunk(s: State, e: Step, i: nat)
    requires Enabled(s, e) && i < |s.pipe.wire| && ChunkOk(s, i) && FramesOf(s, s.pipe.wire[i].c)
    requires WriterAfterSetup(s) && Quiet(s.pipe)
    ensures i < |Take(s, e).pipe.wire| && ChunkOk(Take(s, e), i)
  {
    match e
    case Setup(c, a) => SetupKeepsChunk(s, c, a, i);
    case Wait(c, a) =>
    case Settle(c, a) =>
    case End(a) =>
    case Write(a) => WriterKeepsChunk(s, a, i);
  }

  lemma WireGrows(s: State, e: Step)
    requires Enabled(s, e) && Quiet(s.pipe)
    ensures Quiet(Take(s, e).pipe)
    ensures Take(s, e).pipe.wire ==
      if e.Write? && e.write.WriterWrite? then s.pipe.wire + [Chunk(s.pipe.writer.c, e.write.ok)] else s.pipe.wire
  {}

  lemma StepKeepsWire(s: State, e: Step)
    requires Enabled(s, e) && Frames(s) && Wire(s)
    ensures Wire(Take(s, e))
  {
    var t := Take(s, e);
    WireGrows(s, e);
    forall i | 0 <= i < |t.pipe.wire| ensures ChunkOk(t, i) {
      if i < |s.pipe.wire| {
        assert ChunkOk(s, i) && FramesOf(s, s.pipe.wire[i].c);
        StepKeepsChunk(s, e, i);
      } else {
        assert FramesOf(s, s.pipe.writer.c);
        WriterAddsChunk(s, e.write.ok);
      }
    }
    forall i, j | 0 <= i < j < |t.pipe.wire| ensures t.pipe.wire[i].c != t.pipe.wire[j].c {
      assert ChunkOk(s, i);
    }
  }

  // ----- setting the writer up -----

  predicate NeedsWriter(pc: Pc) {
    pc == Ready || pc == Waiting || pc == LoadA || pc == LoadB || pc == MustReceive || pc == RunsFail
  }

  predicate SetUp(s: State) {
    && (s.life.once.Making? ==> At(s, s.life.once.owner, Checked))
    && (forall c | c in s.callers && NeedsWriter(s.callers[c].pc) :: s.life.once == Set)
  }

  lemma SetupKeepsSetUp(s: State, c: nat, a: SetupAct)
    requires SetupEnabled(s, c, a) && SetUp(s)
    ensures SetUp(TakeSetup(s, c, a))
  {}

  lemma EndKeepsSetUp(s: State, a: EndAct)
    requires SetUp(s)
    ensures SetUp(TakeEnd(s, a))
  {}

  lemma WriterKeepsSetUp(s: State, a: WriterAct)
    requires WriterEnabled(s, a) && SetUp(s)
    ensures SetUp(TakeWrite(s, a))
  {}

  lemma StepKeepsSetUp(s: State, e: Step)
    requires Enabled(s, e) && SetUp(s)
    ensures SetUp(Take(s, e))
  {
    match e
    case Setup(c, a) => SetupKeepsSetUp(s, c, a);
    case Wait(c, a) =>
    case Settle(c, a) =>
    case End(a) => EndKeepsSetUp(s, a);
    case Write(a) => WriterKeepsSetUp(s, a);
  }

  // ----- closing the writer's channel -----

  /** Two places close it: setting the writer up, when that finds the client exited, and the stop,
      when that finds the channel made. */
  predicate ClosesCounted(s: State) {
    && s.life.closes == Bit(s.life.bySetup) + Bit(s.life.byStop)
    && (s.life.byStop ==> s.life.stop == Closed)
    && (s.life.bySetup ==> s.life.once == Set && s.pipe.writer == Off)
  }

  lemma StepKeepsCount(s: State, e: Step)
    requires Enabled(s, e) && ClosesCounted(s) && WriterAfterSetup(s)
    ensures ClosesCounted(Take(s, e))
  {}

  // ----- the invariant -----

  ghost predicate Inv(s: State) { Tokens(s) && Frames(s) && Wire(s) && SetUp(s) && ClosesCounted(s) }

  lemma BootInv()
    ensures Inv(BOOT)
  {}

  lemma StepKeepsInv(s: State, e: Step)
    requires Enabled(s, e) && Inv(s)
    ensures Inv(Take(s, e))
  {
    StepKeepsTokens(s, e);
    StepKeepsFrames(s, e);
    StepKeepsWire(s, e);
    StepKeepsSetUp(s, e);
    StepKeepsCount(s, e);
  }

  lemma LastStep(n: nat, s: State) returns (b: State, e: Step)
    requires n > 0 && ReachedIn(n, s)
    ensures ReachedIn(n - 1, b) && Enabled(b, e) && s == Take(b, e)
  {
    b, e :| ReachedIn(n - 1, b) && Enabled(b, e) && s == Take(b, e);
  }

  lemma {:induction false} OverRuns(n: nat, s: State)
    requires ReachedIn(n, s)
    ensures Inv(s)
  {
    if n == 0 {
      BootInv();
    } else {
      var b, e := LastStep(n, s);
      OverRuns(n - 1, b);
      StepKeepsInv(b, e);
    }
  }

  lemma ReachableInv(s: State)
    requires Reachable(s)
    ensures Inv(s)
  {
    var n: nat :| ReachedIn(n, s);
    OverRuns(n, s);
  }

  /** The part of the invariant that concerns one caller. */
  lemma ReachableCaller(s: State, c: nat)
    requires Reachable(s) && c in s.callers
    ensures TokenOk(s.life.drained, s.callers[c]) && FrameOk(s.pipe, c, s.callers[c])
    ensures s.life.once.Making? ==> At(s, s.life.once.owner, Checked)
  {
    ReachableInv(s);
    assert FramesOf(s, c);
  }

  lemma NextReachable(s: State, e: Step)
    requires Reachable(s) && Enabled(s, e)
    ensures Reachable(Take(s, e))
  {
    var n: nat :| ReachedIn(n, s);
    assert ReachedIn(n + 1, Take(s, e));
  }

  // ----- what holds over every run -----

  /** A response channel gets at most one message, and whoever is about to send finds it empty. */
  lemma OneMessageAChannel(s: State, c: nat)
    requires Reachable(s) && c in s.callers
    ensures s.callers[c].sent <= 1
    ensures s.callers[c].pending || s.callers[c].flight ==> s.callers[c].sent == 0
    ensures !(s.callers[c].pending && s.callers[c].flight)
  {
    ReachableCaller(s, c);
  }

  /** A call that waits for its response has it, or someone is sending it, or it is in the table;
      and once the table was drained at exit it is not left in the table. */
  lemma NoCallStranded(s: State, c: nat)
    requires Reachable(s) && At(s, c, Await)
    ensures s.callers[c].sent == 1 || s.callers[c].flight || (s.callers[c].pending && !s.life.drained)
  {
    ReachableCaller(s, c);
  }

  /** A frame whose cancellation won is on the wire in no run, and stays cancelled. */
  lemma CanceledIsNeverWritten(s: State, c: nat, e: Step)
    requires Reachable(s) && c in s.callers && s.callers[c].out == Canceled
    ensures forall i | 0 <= i < |s.pipe.wire| :: s.pipe.wire[i].c != c
    ensures Enabled(s, e) ==> c in Take(s, e).callers && Take(s, e).callers[c].out == Canceled
  {
    ReachableInv(s);
    assert FramesOf(s, c);
    forall i | 0 <= i < |s.pipe.wire| ensures s.pipe.wire[i].c != c { assert ChunkOk(s, i); }
    if Enabled(s, e) { StepKeepsCanceled(s, e, c); }
  }

  lemma WriterKeepsCanceled(s: State, a: WriterAct, c: nat)
    requires WriterEnabled(s, a) && c in s.callers && s.callers[c].out == Canceled && FramesOf(s, c)
    ensures c in TakeWrite(s, a).callers && TakeWrite(s, a).callers[c].out == Canceled
  {}

  lemma SetupKeepsCanceled(s: State, c: nat, a: SetupAct, x: nat)
    requires SetupEnabled(s, c, a) && x in s.callers && s.callers[x].out == Canceled && FramesOf(s, x)
    ensures x in TakeSetup(s, c, a).callers && TakeSetup(s, c, a).callers[x].out == Canceled
  {}

  lemma StepKeepsCanceled(s: State, e: Step, c: nat)
    requires Enabled(s, e) && c in s.callers && s.callers[c].out == Canceled && FramesOf(s, c)
    ensures c in Take(s, e).callers && Take(s, e).callers[c].out == Canceled
  {
    match e
    case Setup(d, a) => SetupKeepsCanceled(s, d, a, c);
    case Wait(d, a) =>
    case Settle(d, a) =>
    case End(a) =>
    case Write(a) => WriterKeepsCanceled(s, a, c);
  }

  /** A broken frame is the last thing on the wire, for good, and no frame is written twice. */
  lemma NothingAfterAFailedWrite(s: State, e: Step)
    requires Reachable(s)
    ensures forall i | 0 <= i < |s.pipe.wire| && !s.pipe.wire[i].whole :: i == |s.pipe.wire| - 1
    ensures forall i, j | 0 <= i < j < |s.pipe.wire| :: s.pipe.wire[i].c != s.pipe.wire[j].c
    ensures Enabled(s, e) && (exists i :: 0 <= i < |s.pipe.wire| && !s.pipe.wire[i].whole)
      ==> Take(s, e).pipe.wire == s.pipe.wire
  {
    ReachableInv(s);
    forall i | 0 <= i < |s.pipe.wire| && !s.pipe.wire[i].whole ensures i == |s.pipe.wire| - 1 && s.pipe.stopped {
      assert ChunkOk(s, i);
    }
    if Enabled(s, e) { WireGrows(s, e); }
  }

  /** In every run the channel is closed at most twice, and twice exactly when setting the writer up
      found the client already exited and the stop found the channel already made. A client whose
      writer got started is never among them. */
  lemma ClosedTwiceExactlyWhenSetUpDuringTheEnd(s: State)
    requires Reachable(s)
    ensures s.life.closes <= 2 && (s.life.closes == 2 <==> s.life.bySetup && s.life.byStop)
    ensures s.life.closes == 0 <==> !s.life.bySetup && !s.life.byStop
    ensures s.pipe.writer != Off ==> s.life.closes <= 1
  {
    ReachableInv(s);
  }

  /** Who closes is decided where it happens: setup closes exactly when its own look at the client
      finds it exited, and the stop exactly when it finds the channel made. */
  lemma WhoCloses(s: State, e: Step)
    requires Enabled(s, e)
    ensures !s.life.bySetup ==> (Take(s, e).life.bySetup <==> e.Setup? && e.setup.EnsureCheck? && s.life.exited)
    ensures !s.life.byStop ==> (Take(s, e).life.byStop <==> e == End(StopClose) && s.life.once != Unset)
    ensures Take(s, e).life.closes > s.life.closes <==>
      (e.Setup? && e.setup.EnsureCheck? && s.life.exited) || (e == End(StopClose) && s.life.once != Unset)
  {}

  const FIRST := Caller(true, Registered, true, false, 0, NoFrame, 0, false)

  /** The first caller sees a live client and starts to set the writer up; the process dies. */
  lemma SetUpTooLate() returns (s: State)
    ensures Reachable(s)
    ensures s == State(BOOT.life.(exited := true, once := Making(0), waiter := Reaping),
      map[0 := FIRST.(pc := Checked)], BOOT.pipe)
  {
    assert ReachedIn(0, BOOT);
    NextReachable(BOOT, Setup(0, Register(true)));
    var a := Put(BOOT, 0, FIRST);
    NextReachable(a, Setup(0, CheckExit));
    var b := Move(a, 0, Checked);
    NextReachable(b, Setup(0, EnsureMake));
    var c := TakeSetup(b, 0, EnsureMake);
    NextReachable(c, End(WaiterExit));
    s := TakeEnd(c, WaiterExit);
  }

  /** So it closes the channel at once, and the reader that meets the end of the stream closes it
      again. */
  lemma ClosesTwice() returns (s: State)
    ensures Reachable(s) && s.life.closes == 2
  {
    var d := SetUpTooLate();
    NextReachable(d, Setup(0, EnsureCheck));
    var e := TakeSetup(d, 0, EnsureCheck);
    NextReachable(e, End(StopBegin));
    var f := TakeEnd(e, StopBegin);
    NextReachable(f, End(StopDrain));
    var g := TakeEnd(f, StopDrain);
    NextReachable(g, End(StopClose));
    s := TakeEnd(g, StopClose);
  }

  // ----- every caller comes to its end -----

  predicate IsOwn(e: Step, c: nat) {
    (e.Setup? || e.Wait? || (e.Settle? && !e.settle.ResponseTake? && !e.settle.ResponseSend?)) && e.c == c
  }

  /** The steps that get a caller on: its own, which its deadline always allows, or those of the
      one it waits for without a deadline. */
  predicate Helps(s: State, e: Step, c: nat)
    requires c in s.callers
  {
    || IsOwn(e, c)
    || (s.callers[c].pc == MustReceive && e == Write(WriterReply) && s.pipe.writer.Replying? && s.pipe.writer.c == c)
    || (s.callers[c].pc == Checked && s.life.once.Making? && e == Setup(s.life.once.owner, EnsureCheck))
    || (s.callers[c].pc == RunsFail && e.End?)
  }

  function NextFor(l: Life, c: nat, k: Caller): Step
    requires k.pc != Finished
  {
    match k.pc
    case Registered => Setup(c, CheckExit)
    case Checked =>
      if l.once == Set then Setup(c, Proceed) else if l.once == Unset then Setup(c, EnsureMake)
        else Setup(l.once.owner, EnsureCheck)
    case Ready => Setup(c, GiveUp)
    case Waiting => Wait(c, CancelFrame)
    case LoadA => Wait(c, LoadFirst)
    case LoadB => Wait(c, LoadSecond)
    case MustReceive => if k.replies > 0 then Wait(c, TakeReply) else Write(WriterReply)
    case RunsFail =>
      if l.stop == Open then End(StopBegin) else if l.stop == Exiting then End(StopDrain)
      else if l.stop == Drained then End(StopClose) else Wait(c, FailReturns)
    case Failing => Settle(c, Remove)
    case Await => Settle(c, CancelAwait)
  }

  lemma NextIsEnabled(s: State, c: nat, k: Caller)
    requires c in s.callers && k == s.callers[c] && k.pc != Finished && s.life.closes < 2
    requires (s.life.once.Making? ==> At(s, s.life.once.owner, Checked)) && FrameOk(s.pipe, c, k)
    ensures Enabled(s, NextFor(s.life, c, k)) && Helps(s, NextFor(s.life, c, k), c)
  {}

  /** In every reachable state each unfinished caller has an enabled step that gets it on. In
      particular the wait that ignores its deadline, on a frame found complete, is always about to
      be answered. */
  lemma EveryCallerCanGoOn(s: State, c: nat)
    requires Reachable(s) && s.life.closes < 2 && c in s.callers && s.callers[c].pc != Finished
    ensures Enabled(s, NextFor(s.life, c, s.callers[c])) && Helps(s, NextFor(s.life, c, s.callers[c]), c)
  {
    ReachableCaller(s, c);
    NextIsEnabled(s, c, s.callers[c]);
  }

  /** How far a caller is from its end, counting those it waits for without a deadline. */
  function Rank(l: Life, k: Caller): nat {
    match k.pc
    case Registered => 13
    case Checked => if l.once == Unset then 12 else if l.once.Making? then 11 else 10
    case Ready => 9
    case Waiting => 8
    case LoadA => 7
    case LoadB => 6
    case RunsFail => if l.stop == Open then 5 else if l.stop == Exiting then 4 else if l.stop == Drained then 3 else 2
    case MustReceive => if k.replies > 0 then 2 else 3
    case Failing => 1
    case Await => 1
    case Finished => 0
  }

  /** `t` has the caller `c` of `s` no further from its end. */
  predicate NoFurther(s: State, t: State, c: nat) {
    c in s.callers ==> c in t.callers && Rank(t.life, t.callers[c]) <= Rank(s.life, s.callers[c])
  }

  lemma SetupNeverRaises(s: State, c: nat, a: SetupAct, x: nat)
    requires SetupEnabled(s, c, a)
    ensures NoFurther(s, TakeSetup(s, c, a), x)
    ensures !a.Register?
      ==> c in s.callers && Rank(TakeSetup(s, c, a).life, TakeSetup(s, c, a).callers[c]) < Rank(s.life, s.callers[c])
  {}

  lemma WaitLowers(l: Life, k: Caller, a: WaitAct)
    requires WaitEnabled(l, k, a)
    ensures Rank(l, AfterWait(k, a)) < Rank(l, k)
  {}

  lemma SettleNeverRaises(l: Life, k: Caller, a: SettleAct)
    requires SettleEnabled(k, a)
    ensures Rank(l, AfterSettle(k, a)) <= Rank(l, k)
    ensures !a.ResponseTake? && !a.ResponseSend? ==> Rank(l, AfterSettle(k, a)) < Rank(l, k)
  {}

  lemma EndNeverRaises(l: Life, k: Caller, a: EndAct)
    requires EndEnabled(l, a)
    ensures Rank(AfterEnd(l, a), DrainOne(k)) <= Rank(l, k) && Rank(AfterEnd(l, a), k) <= Rank(l, k)
  {}

  lemma WriterNeverRaises(s: State, a: WriterAct, x: nat)
    requires WriterEnabled(s, a)
    ensures NoFurther(s, TakeWrite(s, a), x)
  {}

  /** No step of anyone takes a caller further from its end, and each of its own brings it closer:
      a caller takes at most thirteen. */
  lemma NobodyPushesCallerBack(s: State, e: Step, c: nat)
    requires Enabled(s, e) && c in s.callers
    ensures NoFurther(s, Take(s, e), c) && Rank(s.life, s.callers[c]) <= 13
    ensures IsOwn(e, c) ==> Rank(Take(s, e).life, Take(s, e).callers[c]) < Rank(s.life, s.callers[c])
  {
    match e
    case Setup(d, a) => SetupNeverRaises(s, d, a, c);
    case Wait(d, a) => WaitLowers(s.life, s.callers[d], a);
    case Settle(d, a) => SettleNeverRaises(s.life, s.callers[d], a);
    case End(a) => EndNeverRaises(s.life, s.callers[c], a);
    case Write(a) => WriterNeverRaises(s, a, c);
  }

  lemma OthersHelp(s: State, e: Step, c: nat)
    requires Enabled(s, e) && c in s.callers && Helps(s, e, c) && !IsOwn(e, c) && e == NextFor(s.life, c, s.callers[c])
    requires s.callers[c].pc != Finished
    ensures c in Take(s, e).callers && Rank(Take(s, e).life, Take(s, e).callers[c]) < Rank(s.life, s.callers[c])
  {}

  /** The helping step always brings the caller closer to its end. */
  lemma HelpLowersRank(s: State, c: nat)
    requires Reachable(s) && s.life.closes < 2 && c in s.callers && s.callers[c].pc != Finished
    ensures
      var e := NextFor(s.life, c, s.callers[c]);
      Enabled(s, e) && c in Take(s, e).callers
        && Rank(Take(s, e).life, Take(s, e).callers[c]) < Rank(s.life, s.callers[c])
  {
    var e := NextFor(s.life, c, s.callers[c]);
    EveryCallerCanGoOn(s, c);
    if IsOwn(e, c) { NobodyPushesCallerBack(s, e, c); } else { OthersHelp(s, e, c); }
  }

  /** `t` is `s` after `n` helping steps for `c`. */
  ghost predicate HelpedTo(s: State, c: nat, n: nat, t: State)
    decreases n
  {
    if n == 0 then t == s
    else
      && c in s.callers && s.callers[c].pc != Finished && Enabled(s, NextFor(s.life, c, s.callers[c]))
      && HelpedTo(Take(s, NextFor(s.life, c, s.callers[c])), c, n - 1, t)
  }

  /** From every reachable state, whatever the server does, each caller comes to its end, with a
      response, an error or its own cancellation, within as many helping steps as its rank; only
      the second close, which ends the process, can come before. */
  lemma {:induction false} EveryCallerFinishes(s: State, c: nat) returns (n: nat, t: State)
    requires Reachable(s) && c in s.callers
    ensures n <= Rank(s.life, s.callers[c]) && HelpedTo(s, c, n, t) && c in t.callers
    ensures t.life.closes >= 2 || t.callers[c].pc == Finished
    decreases Rank(s.life, s.callers[c])
  {
    if s.life.closes >= 2 || s.callers[c].pc == Finished {
      n, t := 0, s;
    } else {
      var e := NextFor(s.life, c, s.callers[c]);
      HelpLowersRank(s, c);
      NextReachable(s, e);
      n, t := EveryCallerFinishes(Take(s, e), c);
      n := n + 1;
    }
  }

  // ----- the objects behind the steps -----

  /** A queued frame. Its state changes only by compare-and-swap until it is complete. */
  class OutboundFrame {
    var state: Outbound

    constructor ()
      ensures state == Queued
    {
      state := Queued;
    }

    method CompareAndSwap(from: Outbound, to: Outbound) returns (swapped: bool)
      modifies this
      ensures swapped == (old(state) == from) && state == (if swapped then to else old(state))
    {
      swapped := state == from;
      if swapped { state := to; }
    }

    /** The writer starts a frame exactly when its caller has not cancelled it first. */
    method Start() returns (ok: bool)
      modifies this
      ensures ok <==> old(state) == Queued
      ensures state == if ok then Active else old(state)
    {
      ok := CompareAndSwap(Queued, Active);
    }

    method Cancel() returns (ok: bool)
      modifies this
      ensures ok <==> old(state) == Queued
      ensures state == if ok then Canceled else old(state)
    {
      ok := CompareAndSwap(Queued, Canceled);
    }

    method Finish()
      modifies this
      ensures state == Complete
    {
      state := Complete;
    }
  }

  datatype Response = Exit | Answer(value: string)

  /** A response channel with room for one message; sending to a full one would block. */
  class Channel {
    var items: seq<Response>

    constructor ()
      ensures items == []
    {
      items := [];
    }

    method Send(r: Response)
      requires items == []
      modifies this
      ensures items == [r]
    {
      items := [r];
    }
  }

  class PendingTable {
    var exited: bool
    var pending: map<int, Channel>

    /** Every entry has its own channel, and no message has been sent to it. */
    ghost predicate Valid()
      reads this, pending.Values
    {
      && (forall i | i in pending :: pending[i] in pending.Values && pending[i].items == [])
      && (forall i, j | i in pending && j in pending && pending[i] == pending[j] :: i == j)
    }

    constructor ()
      ensures Valid() && !exited && pending == map[]
    {
      exited, pending := false, map[];
    }

    /** Request ids come from a counter, so `id` is new. */
    method Register(id: int) returns (ch: Channel)
      requires Valid() && id !in pending
      modifies this
      ensures Valid() && fresh(ch) && pending == old(pending)[id := ch] && exited == old(exited)
    {
      ch := new Channel();
      pending := pending[id := ch];
    }

    /** Answers a registered call, once; an unknown or already answered id is refused. */
    method CompletePending(id: int, r: Response) returns (ok: bool)
      requires Valid()
      modifies this, if id in pending then {pending[id]} else {}
      ensures Valid() && exited == old(exited)
      ensures ok <==> id in old(pending)
      ensures pending == old(pending) - {id}
      ensures ok ==> old(pending)[id].items == [r]
    {
      if id !in pending { return false; }
      var ch := pending[id];
      pending := pending - {id};
      ch.Send(r);
      ok := true;
    }

    method RemovePending(id: int) returns (ok: bool)
      requires Valid()
      modifies this
      ensures Valid() && exited == old(exited)
      ensures (ok <==> id in old(pending)) && pending == old(pending) - {id}
    {
      ok := id in pending;
      pending := pending - {id};
    }

    /** Marks the client exited and tells every registered call, leaving none behind. */
    method CleanupPending()
      requires Valid()
      modifies this, pending.Values
      ensures Valid() && exited && pending == map[]
      ensures forall id | id in old(pending) :: old(pending)[id].items == [Exit]
    {
      exited := true;
      ghost var all := pending;
      while pending != map[]
        invariant exited && pending.Keys <= all.Keys && forall i | i in pending :: pending[i] == all[i]
        invariant forall i | i in pending :: all[i].items == []
        invariant forall i | i in all && i !in pending :: all[i].items == [Exit]
        modifies this, all.Values
        decreases |pending|
      {
        if forall i :: i !in pending { assert false; }
        var id :| id in pending;
        pending[id].Send(Exit);
        pending := pending - {id};
      }
    }
  }
}
