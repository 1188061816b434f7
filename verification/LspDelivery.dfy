/** What the writer of a language server connection achieves: while it is up, a queued frame that is
    not cancelled gets onto the wire whole, in its turn; and a client that has ended has answered. */
module LspDelivery {
  import opened LspTransport

  // ----- where a queued frame is -----

  predicate WithWriter(p: Pipe, c: nat, k: Caller) { k.out == Queued ==> c in p.queue || p.writer == Picked(c) }

  predicate OnWire(p: Pipe, c: nat) { Chunk(c, true) in p.wire }

  predicate WriterOk(s: State) {
    && (s.life.closes == 0 && s.life.once == Set ==> !s.pipe.writer.Off? && !s.pipe.writer.Left?)
    && (s.pipe.writer.Broken? ==> s.pipe.stopped)
    && (!s.pipe.stopped && s.pipe.writer.Written? ==> OnWire(s.pipe, s.pipe.writer.c))
    && (!s.pipe.stopped && s.pipe.writer.Replying? && s.pipe.writer.good ==> OnWire(s.pipe, s.pipe.writer.c))
  }

  predicate EndOk(l: Life) { l.stop == Drained || l.stop == Closed || l.waiter == Reaped ==> l.drained }

  predicate Kept(s: State) {
    && WriterOk(s) && EndOk(s.life)
    && (!s.pipe.stopped ==> forall c | c in s.callers :: WithWriter(s.pipe, c, s.callers[c]))
  }

  lemma SetupKeepsWriter(s: State, c: nat, a: SetupAct)
    requires SetupEnabled(s, c, a) && WriterOk(s) && WriterAfterSetup(s)
    ensures WriterOk(TakeSetup(s, c, a)) && EndOk(TakeSetup(s, c, a).life) == EndOk(s.life)
  {}

  lemma WriteKeepsWriter(s: State, a: WriterAct)
    requires WriterEnabled(s, a) && WriterOk(s) && Quiet(s.pipe)
    ensures WriterOk(TakeWrite(s, a)) && TakeWrite(s, a).life == s.life
  {
    if a.WriterWrite? { assert Chunk(s.pipe.writer.c, a.ok) in TakeWrite(s, a).pipe.wire; }
  }

  lemma EndKeepsWriter(s: State, a: EndAct)
    requires EndEnabled(s.life, a) && WriterOk(s) && EndOk(s.life)
    ensures WriterOk(TakeEnd(s, a)) && EndOk(TakeEnd(s, a).life)
  {}

  lemma SetupKeepsPlace(s: State, c: nat, a: SetupAct, x: nat)
    requires SetupEnabled(s, c, a) && x in TakeSetup(s, c, a).callers && WriterAfterSetup(s) && FramesOf(s, c)
    requires x in s.callers ==> WithWriter(s.pipe, x, s.callers[x])
    ensures WithWriter(TakeSetup(s, c, a).pipe, x, TakeSetup(s, c, a).callers[x])
  {}

  lemma WriteKeepsPlace(s: State, a: WriterAct, x: nat)
    requires WriterEnabled(s, a) && x in s.callers && WithWriter(s.pipe, x, s.callers[x]) && FramesOf(s, x)
    requires !TakeWrite(s, a).pipe.stopped
    ensures x in TakeWrite(s, a).callers && WithWriter(TakeWrite(s, a).pipe, x, TakeWrite(s, a).callers[x])
  {
    if a.WriterNext? { assert s.pipe.queue == [s.pipe.queue[0]] + s.pipe.queue[1..]; }
  }

  lemma StepKeepsPlaces(s: State, e: Step)
    requires Enabled(s, e) && Inv(s) && Kept(s) && !Take(s, e).pipe.stopped
    ensures forall c | c in Take(s, e).callers :: WithWriter(Take(s, e).pipe, c, Take(s, e).callers[c])
  {
    forall x | x in Take(s, e).callers ensures WithWriter(Take(s, e).pipe, x, Take(s, e).callers[x]) {
      match e
      case Setup(c, a) => assert FramesOf(s, c); SetupKeepsPlace(s, c, a, x);
      case Write(a) => assert FramesOf(s, x); WriteKeepsPlace(s, a, x);
      case _ =>
    }
  }

  lemma StepKeepsKept(s: State, e: Step)
    requires Enabled(s, e) && Inv(s) && Kept(s)
    ensures Kept(Take(s, e))
  {
    match e {
      case Setup(c, a) => SetupKeepsWriter(s, c, a);
      case Write(a) => WriteKeepsWriter(s, a);
      case End(a) => EndKeepsWriter(s, a);
      case _ =>
    }
    if !Take(s, e).pipe.stopped { StepKeepsPlaces(s, e); }
  }

  ghost predicate Both(s: State) { Inv(s) && Kept(s) }

  lemma BootBoth()
    ensures Both(BOOT)
  {
    BootInv();
  }

  lemma StepKeepsBoth(s: State, e: Step)
    requires Enabled(s, e) && Both(s)
    ensures Both(Take(s, e))
  {
    StepKeepsInv(s, e);
    StepKeepsKept(s, e);
  }

  lemma {:induction false} BothOverRuns(n: nat, s: State)
    requires ReachedIn(n, s)
    ensures Both(s)
  {
    if n == 0 {
      BootBoth();
    } else {
      var b, e := LastStep(n, s);
      BothOverRuns(n - 1, b);
      StepKeepsBoth(b, e);
    }
  }

  lemma KeptOverRuns(n: nat, s: State)
    requires ReachedIn(n, s)
    ensures Kept(s)
  {
    BothOverRuns(n, s);
  }

  lemma ReachableKept(s: State)
    requires Reachable(s)
    ensures Inv(s) && Kept(s)
  {
    var n: nat :| ReachedIn(n, s);
    OverRuns(n, s);
    KeptOverRuns(n, s);
  }

  // ----- the writer gets to every frame -----

  /** The writer is up: its channel is made and not closed, and no write has failed. */
  predicate Up(s: State) { s.life.once == Set && s.life.closes == 0 && !s.pipe.stopped }

  /** The writer's next step, if no write fails. */
  function NextWrite(w: Writer): WriterAct {
    match w
    case Picked(_) => WriterStart
    case Writing(_) => WriterWrite(true)
    case Written(_) => WriterFinish
    case Replying(_, _) => WriterReply
    case _ => WriterNext
  }

  function Stage(w: Writer): nat {
    match w
    case Picked(_) => 4
    case Writing(_) => 3
    case Written(_) => 2
    case Replying(_, _) => 1
    case _ => 0
  }

  /** The frame of `c` is in the queue or in the writer's hands, on its way to a good reply. */
  predicate Coming(s: State, c: nat) {
    && c in s.callers
    && (|| (s.callers[c].out == Queued && (c in s.pipe.queue || s.pipe.writer == Picked(c)))
        || s.pipe.writer == Writing(c)
        || (s.pipe.writer == Written(c) && OnWire(s.pipe, c))
        || (s.pipe.writer == Replying(c, true) && OnWire(s.pipe, c)))
  }

  predicate Delivered(s: State, c: nat) {
    c in s.callers && s.callers[c].replies == 1 && s.callers[c].good && OnWire(s.pipe, c)
  }

  /** How many frames are in front of `c`'s. */
  function InFront(q: seq<nat>, c: nat): (i: nat)
    ensures i <= |q| && (i < |q| ==> q[i] == c) && c !in q[..i]
  {
    if q == [] || q[0] == c then 0
    else
      assert q[..InFront(q[1..], c) + 1] == [q[0]] + q[1..][..InFront(q[1..], c)];
      InFront(q[1..], c) + 1
  }

  function Due(s: State, c: nat): nat {
    if c in s.pipe.queue then 5 * (InFront(s.pipe.queue, c) + 1) + Stage(s.pipe.writer) else Stage(s.pipe.writer)
  }

  /** One step of the writer on the way to `c`'s frame. */
  lemma WriterGetsCloser(s: State, c: nat)
    requires Inv(s) && Kept(s) && Up(s) && Coming(s, c)
    ensures Enabled(s, Write(NextWrite(s.pipe.writer)))
    ensures
      var t := Take(s, Write(NextWrite(s.pipe.writer)));
      && Up(t) && s.pipe.wire <= t.pipe.wire && Due(t, c) < Due(s, c) && (Coming(t, c) || Delivered(t, c))
  {
    var w := s.pipe.writer;
    assert FramesOf(s, c);
    if w.Picked? || w.Writing? || w.Written? || w.Replying? {
      assert FramesOf(s, w.c);
      HeldFrameMovesOn(s, c);
    } else {
      NextFrame(s, c);
    }
  }

  lemma NextFrame(s: State, c: nat)
    requires Frames(s) && Up(s) && s.pipe.writer == Idle && c in s.callers && s.callers[c].out == Queued
    requires c in s.pipe.queue
    ensures
      var t := TakeWrite(s, WriterNext);
      Up(t) && t.pipe.wire == s.pipe.wire && Due(t, c) < Due(s, c) && Coming(t, c)
  {
    var q := s.pipe.queue;
    assert q == [q[0]] + q[1..];
    if q[0] == c {
      forall i | 0 <= i < |q[1..]| ensures q[1..][i] != c { assert q[i + 1] != q[0]; }
    }
  }

  lemma HeldFrameMovesOn(s: State, c: nat)
    requires Up(s) && Coming(s, c) && FramesOf(s, c) && Stage(s.pipe.writer) > 0 && FramesOf(s, s.pipe.writer.c)
    ensures WriterEnabled(s, NextWrite(s.pipe.writer))
    ensures
      var t := TakeWrite(s, NextWrite(s.pipe.writer));
      && Up(t) && s.pipe.wire <= t.pipe.wire && Due(t, c) < Due(s, c) && (Coming(t, c) || Delivered(t, c))
  {
    var w := s.pipe.writer;
    if w.Writing? {
      assert Chunk(w.c, true) in TakeWrite(s, WriterWrite(true)).pipe.wire;
    }
  }

  ghost predicate WritesTo(n: nat, s: State, t: State) {
    if n == 0 then s == t
    else
      && Enabled(s, Write(NextWrite(s.pipe.writer)))
      && WritesTo(n - 1, Take(s, Write(NextWrite(s.pipe.writer))), t)
  }

  lemma {:induction false} WriterDelivers(s: State, c: nat) returns (n: nat, t: State)
    requires Inv(s) && Kept(s) && Up(s) && Coming(s, c)
    ensures WritesTo(n, s, t) && n <= Due(s, c) && Delivered(t, c) && s.pipe.wire <= t.pipe.wire
    decreases Due(s, c)
  {
    WriterGetsCloser(s, c);
    var e := Write(NextWrite(s.pipe.writer));
    var m := Take(s, e);
    if Delivered(m, c) {
      n, t := 1, m;
      assert WritesTo(0, m, t);
    } else {
      StepKeepsInv(s, e);
      StepKeepsKept(s, e);
      n, t := WriterDelivers(m, c);
      n := n + 1;
    }
  }

  /** In every state of every run: while the writer is up, a queued frame that is not cancelled gets
      onto the wire whole and its caller a good reply, by the writer's own steps, at most five for each
      frame in front of it and five for its own. */
  lemma QueuedFrameIsDelivered(s: State, c: nat) returns (n: nat, t: State)
    requires Reachable(s) && Up(s) && c in s.callers && s.callers[c].out == Queued
    ensures WritesTo(n, s, t) && n <= 5 * |s.pipe.queue| + 9
    ensures c in t.callers && t.callers[c].replies == 1 && t.callers[c].good && Chunk(c, true) in t.pipe.wire
    ensures s.pipe.wire <= t.pipe.wire
  {
    ReachableKept(s);
    assert WithWriter(s.pipe, c, s.callers[c]);
    n, t := WriterDelivers(s, c);
  }

  /** Setup that finds the client alive brings the writer up. */
  lemma SetupStartsWriter(s: State, c: nat)
    requires Reachable(s) && Enabled(s, Setup(c, EnsureCheck)) && !s.life.exited
    ensures Up(Take(s, Setup(c, EnsureCheck))) || s.life.closes > 0 || s.pipe.stopped
    ensures Take(s, Setup(c, EnsureCheck)).pipe.writer == Idle
  {}

  /** A caller that gets its frame into the queue waits for it there, behind all others. */
  lemma EnqueuedIsQueued(s: State, c: nat)
    requires Reachable(s) && Enabled(s, Setup(c, Enqueue))
    ensures
      var t := Take(s, Setup(c, Enqueue));
      && t.callers[c].pc == Waiting && t.callers[c].out == Queued
      && t.pipe.queue == s.pipe.queue + [c] && t.pipe.wire == s.pipe.wire
  {}

  // ----- the end -----

  /** Once the stop or the process waiter has drained the table, every call that waits for its response
      has it or is being sent it: none is left in the table. */
  lemma EndedClientAnswers(s: State, c: nat)
    requires Reachable(s) && At(s, c, Await)
    requires s.life.stop == Drained || s.life.stop == Closed || s.life.waiter == Reaped
    ensures s.callers[c].sent == 1 || s.callers[c].flight
  {
    ReachableKept(s);
    NoCallStranded(s, c);
  }

  /** A drain gives every call in the table its error and takes it out. */
  lemma DrainEmptiesTheTable(s: State, a: EndAct, c: nat)
    requires Reachable(s) && Enabled(s, End(a)) && (a == StopDrain || a == WaiterDrain) && c in s.callers
    ensures
      var k, k' := s.callers[c], Take(s, End(a)).callers[c];
      && !k'.pending && k'.pc == k.pc && (k.pending ==> k.sent == 0 && k'.sent == 1) && (!k.pending ==> k' == k)
  {
    ReachableCaller(s, c);
  }
}
