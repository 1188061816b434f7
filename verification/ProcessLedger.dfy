/** The durable background-process ledger: rows changed only by conditional updates, and the
    completion fact that the winning terminal update enqueues in the same transaction. */
module ProcessLedger {

  import opened Options

  datatype State =
    | Running | Completed | Failed | TimedOut | OutputLimitExceeded | OutputDrainTimeout | Cancelled | Interrupted

  datatype Intent =
    | NoIntent | Deadline | OutputLimit | SessionStopped | SessionKilled | AgentCancelled | DaemonShutdown

  type SessionId = int

  /** `bgp_<stamp>_<serial>`: wall-clock nanoseconds and the service's own counter. */
  datatype ProcessId = ProcessId(stamp: int, serial: nat)

  datatype Row = Row(
    session: SessionId, root: SessionId, advertised: bool, outputSize: int,
    exitCode: Option<int>, intent: Intent, state: State)

  /** An inbox row whose delivery key is `process:<id>`. */
  datatype Fact = Fact(session: SessionId, process: ProcessId)

  /** `refusing` holds the sessions that are terminating or killed: the inbox silently drops
      a process completion addressed to one of them. */
  datatype Ledger = Ledger(rows: map<ProcessId, Row>, inbox: seq<Fact>, refusing: set<SessionId>)

  /** What a store call reports: an error leaves the ledger as it was. */
  datatype Reply = Won | Lost | Error

  function IntentToState(intent: Intent): State {
    match intent
    case Deadline => TimedOut
    case OutputLimit => OutputLimitExceeded
    case SessionStopped => Cancelled
    case SessionKilled => Cancelled
    case AgentCancelled => Cancelled
    case DaemonShutdown => Interrupted
    case NoIntent => Failed
  }

  predicate Terminal(s: State) { s != Running }

  predicate WakeSuppressed(intent: Intent) {
    intent == SessionStopped || intent == SessionKilled || intent == AgentCancelled
  }

  predicate KeepsExit(s: State) { s == Completed || s == Failed }

  /** The table's CHECK constraints on a row. */
  predicate RowAllowed(r: Row) {
    && r.outputSize >= 0
    && (r.state == Completed || r.state == Failed ==> r.exitCode.Some?)
    && (r.state in {TimedOut, OutputLimitExceeded, OutputDrainTimeout, Cancelled, Interrupted} ==> r.exitCode.None?)
    && (|| r.intent == NoIntent
        || (r.intent == Deadline && (r.state == Running || r.state == TimedOut))
        || (r.intent == OutputLimit && (r.state == Running || r.state == OutputLimitExceeded))
        || ((r.intent == SessionStopped || r.intent == SessionKilled || r.intent == AgentCancelled)
            && (r.state == Running || r.state == Cancelled))
        || (r.intent == DaemonShutdown && (r.state == Running || r.state == Interrupted)))
  }

  /** First cause wins: the durable intent, else the in-memory fallback, else the natural exit. */
  function Decide(durable: Intent, fallback: Intent, natural: State): State {
    if durable != NoIntent then IntentToState(durable)
    else if fallback != NoIntent then IntentToState(fallback)
    else natural
  }

  function FinalRow(r: Row, natural: State, exitCode: Option<int>, size: int, fallback: Intent): Row {
    var outcome := Decide(r.intent, fallback, natural);
    r.(state := outcome,
       exitCode := if KeepsExit(outcome) then exitCode else None,
       outputSize := size,
       intent := if r.intent == NoIntent then fallback else r.intent)
  }

  /** Whether the terminal row `r` owes its session a completion fact. */
  predicate OwesFact(r: Row) { Terminal(r.state) && r.advertised && !WakeSuppressed(r.intent) }

  /** The idempotent inbox insert for a producer source. */
  function Enqueue(l: Ledger, f: Fact): seq<Fact> {
    if f.session in l.refusing || f in l.inbox then l.inbox else l.inbox + [f]
  }

  /** Every change the ledger can undergo; `up` is whether the database call succeeded. */
  datatype Op =
    | Insert(id: ProcessId, row: Row, up: bool)
    | RecordIntent(id: ProcessId, intent: Intent, up: bool)
    | Advertise(id: ProcessId, up: bool)
    | Finalize(id: ProcessId, natural: State, exitCode: Option<int>, size: int, fallback: Intent, up: bool)
    | UpdateOutputSize(id: ProcessId, size: int, up: bool)
    | Refuse(session: SessionId)

  function ReplyOf(l: Ledger, op: Op): Reply {
    match op
    case Insert(id, row, up) => if up && id !in l.rows && RowAllowed(row) then Won else Error
    case RecordIntent(id, intent, up) =>
      if !up || intent == NoIntent then Error
      else if id in l.rows && l.rows[id].state == Running && l.rows[id].intent == NoIntent then Won
      else Lost
    case Advertise(id, up) =>
      if !up then Error
      else if id in l.rows && !l.rows[id].advertised && l.rows[id].state == Running then Won
      else Lost
    case Finalize(id, natural, exitCode, size, fallback, up) =>
      if !up || id !in l.rows then Error
      else if Terminal(l.rows[id].state) then Lost
      else
        var r := FinalRow(l.rows[id], natural, exitCode, size, fallback);
        if Terminal(r.state) && RowAllowed(r) then Won else Error
    case UpdateOutputSize(id, size, up) =>
      if !up || (id in l.rows && size < 0) then Error else if id in l.rows then Won else Lost
    case Refuse(_) => Won
  }

  function Apply(l: Ledger, op: Op): Ledger {
    if ReplyOf(l, op) != Won then l else
    match op
    case Insert(id, row, _) => l.(rows := l.rows[id := row])
    case RecordIntent(id, intent, _) => l.(rows := l.rows[id := l.rows[id].(intent := intent)])
    case Advertise(id, _) => l.(rows := l.rows[id := l.rows[id].(advertised := true)])
    case Finalize(id, natural, exitCode, size, fallback, _) =>
      var r := FinalRow(l.rows[id], natural, exitCode, size, fallback);
      l.(rows := l.rows[id := r],
         inbox := if OwesFact(r) then Enqueue(l, Fact(r.session, id)) else l.inbox)
    case UpdateOutputSize(id, size, _) => l.(rows := l.rows[id := l.rows[id].(outputSize := size)])
    case Refuse(session) => l.(refusing := l.refusing + {session})
  }

  const EMPTY := Ledger(map[], [], {})

  /** The ledger after a history of operations, oldest first. */
  function After(ops: seq<Op>): Ledger {
    if ops == [] then EMPTY else Apply(After(ops[..|ops| - 1]), ops[|ops| - 1])
  }

  /** Inserted rows are as launch builds them: running, without intent or exit code. */
  predicate FreshInsert(op: Op) {
    op.Insert? ==> op.row.state == Running && op.row.intent == NoIntent && op.row.exitCode == None
  }

  predicate OnlyFreshInserts(ops: seq<Op>) { forall i | 0 <= i < |ops| :: FreshInsert(ops[i]) }

  // ----- the imperative store, tied to the specification above -----

  class Store {
    var rows: map<ProcessId, Row>
    var inbox: seq<Fact>
    var refusing: set<SessionId>

    constructor ()
      ensures View() == EMPTY
    {
      rows, inbox, refusing := map[], [], {};
    }

    function View(): Ledger reads this { Ledger(rows, inbox, refusing) }

    method InsertProcess(id: ProcessId, row: Row, up: bool) returns (ok: bool)
      modifies this`rows
      ensures View() == Apply(old(View()), Op.Insert(id, row, up))
      ensures ok <==> ReplyOf(old(View()), Op.Insert(id, row, up)) == Won
    {
      ok := up && id !in rows && RowAllowed(row);
      if ok { rows := rows[id := row]; }
    }

    method RecordIntent(id: ProcessId, intent: Intent, up: bool) returns (reply: Reply)
      modifies this`rows
      ensures View() == Apply(old(View()), Op.RecordIntent(id, intent, up))
      ensures reply == ReplyOf(old(View()), Op.RecordIntent(id, intent, up))
    {
      if intent == NoIntent || !up { return Error; }
      reply := Lost;
      if id in rows {
        var row := rows[id];
        if row.state == Running && row.intent == NoIntent {
          rows := rows[id := row.(intent := intent)];
          reply := Won;
        }
      }
    }

    method Advertise(id: ProcessId, up: bool) returns (reply: Reply)
      modifies this`rows
      ensures View() == Apply(old(View()), Op.Advertise(id, up))
      ensures reply == ReplyOf(old(View()), Op.Advertise(id, up))
    {
      if !up { return Error; }
      reply := Lost;
      if id in rows {
        var row := rows[id];
        if !row.advertised && row.state == Running {
          rows := rows[id := row.(advertised := true)];
          reply := Won;
        }
      }
    }

    /** The terminal row: durable intent, else fallback, else the natural exit. */
    static method DecideRow(row: Row, natural: State, exitCode: Option<int>, size: int, fallback: Intent)
        returns (updated: Row)
      ensures updated == FinalRow(row, natural, exitCode, size, fallback)
    {
      var outcome, persisted := natural, NoIntent;
      if row.intent != NoIntent {
        outcome := IntentToState(row.intent);
      } else if fallback != NoIntent {
        outcome, persisted := IntentToState(fallback), fallback;
      }
      var recorded := exitCode;
      if outcome != Completed && outcome != Failed { recorded := None; }
      updated := row.(state := outcome, exitCode := recorded, outputSize := size,
                      intent := if row.intent == NoIntent && persisted != NoIntent then persisted else row.intent);
    }

    /** One transaction: read intent and state, decide, update, enqueue; any failure rolls back. */
    method Finalize(id: ProcessId, natural: State, exitCode: Option<int>, size: int, fallback: Intent, up: bool)
      returns (winner: Option<Row>, reply: Reply)
      modifies this`rows, this`inbox
      ensures View() == Apply(old(View()), Op.Finalize(id, natural, exitCode, size, fallback, up))
      ensures reply == ReplyOf(old(View()), Op.Finalize(id, natural, exitCode, size, fallback, up))
      ensures reply != Error ==> id in rows && winner == Some(rows[id]) && Terminal(rows[id].state)
    {
      if !up || id !in rows { return None, Error; }
      var row := rows[id];
      if row.state != Running { return Some(row), Lost; }
      var updated := DecideRow(row, natural, exitCode, size, fallback);
      if updated.state == Running || !RowAllowed(updated) { return None, Error; }
      rows := rows[id := updated];
      if updated.advertised && !WakeSuppressed(updated.intent) {
        var fact := Fact(updated.session, id);
        if updated.session !in refusing && fact !in inbox { inbox := inbox + [fact]; }
      }
      return Some(updated), Won;
    }

    method FinalizeWithIntent(id: ProcessId, intent: Intent, size: int, up: bool)
      returns (winner: Option<Row>, reply: Reply)
      modifies this`rows, this`inbox
      ensures intent == NoIntent ==> View() == old(View()) && reply == Error
      ensures intent != NoIntent ==>
        var op := Op.Finalize(id, IntentToState(intent), None, size, intent, up);
        View() == Apply(old(View()), op) && reply == ReplyOf(old(View()), op)
      ensures reply != Error ==> id in rows && winner == Some(rows[id]) && Terminal(rows[id].state)
    {
      if intent == NoIntent { return None, Error; }
      winner, reply := Finalize(id, IntentToState(intent), None, size, intent, up);
    }
  }

  // ----- first cause wins -----

  /** How one row may change: the first recorded intent, and everything a terminal row says
      about its outcome, are final. */
  predicate Evolves(r: Row, r': Row) {
    && r'.session == r.session && r'.root == r.root
    && (r.advertised ==> r'.advertised)
    && (r.intent != NoIntent ==> r'.intent == r.intent)
    && (Terminal(r.state) ==>
          r'.state == r.state && r'.intent == r.intent && r'.exitCode == r.exitCode && r'.advertised == r.advertised)
  }

  predicate LedgerEvolves(l: Ledger, l': Ledger) {
    && (forall id | id in l.rows :: id in l'.rows && Evolves(l.rows[id], l'.rows[id]))
    && l.inbox <= l'.inbox && l.refusing <= l'.refusing
  }

  lemma ApplyEvolves(l: Ledger, op: Op)
    ensures LedgerEvolves(l, Apply(l, op))
  {}

  /** Over any history, whatever was recorded at an earlier point still stands at a later one. */
  lemma {:induction false} FirstCauseWins(ops: seq<Op>, earlier: nat)
    requires earlier <= |ops|
    ensures LedgerEvolves(After(ops[..earlier]), After(ops))
  {
    if earlier == |ops| {
      assert ops[..earlier] == ops;
    } else {
      var before := ops[..|ops| - 1];
      FirstCauseWins(before, earlier);
      assert before[..earlier] == ops[..earlier];
      ApplyEvolves(After(before), ops[|ops| - 1]);
    }
  }

  predicate RowsAllowed(l: Ledger) { forall id | id in l.rows :: RowAllowed(l.rows[id]) }

  /** In every reachable ledger a terminal row with an intent carries that intent's state, and
      an exit code is present exactly on completed and failed rows. */
  lemma {:induction false} OutcomeMatchesCause(ops: seq<Op>)
    requires OnlyFreshInserts(ops)
    ensures RowsAllowed(After(ops))
    ensures forall id | id in After(ops).rows && After(ops).rows[id].state == Running ::
      After(ops).rows[id].exitCode == None
  {
    if ops != [] {
      var before, op := ops[..|ops| - 1], ops[|ops| - 1];
      OutcomeMatchesCause(before);
      assert FreshInsert(op);
    }
  }

  /** The whole precedence rule at the moment of finalization. */
  lemma FinalizePrecedence(l: Ledger, op: Op)
    requires op.Finalize? && ReplyOf(l, op) == Won
    ensures op.id in l.rows && l.rows[op.id].state == Running
    ensures
      var was, now := l.rows[op.id], Apply(l, op).rows[op.id];
      && Terminal(now.state)
      && (was.intent != NoIntent ==> now.intent == was.intent && now.state == IntentToState(was.intent))
      && (was.intent == NoIntent && op.fallback != NoIntent ==>
            now.intent == op.fallback && now.state == IntentToState(op.fallback))
      && (was.intent == NoIntent && op.fallback == NoIntent ==> now.intent == NoIntent && now.state == op.natural)
      && (KeepsExit(now.state) <==> now.exitCode.Some?)
      && (now.exitCode.Some? ==> now.exitCode == op.exitCode && now.intent == NoIntent)
      && now == was.(state := now.state, exitCode := now.exitCode, intent := now.intent, outputSize := op.size)
  {}

  /** What ends a process passes: a terminal state, with an exit code exactly when it exited. */
  predicate Natural(natural: State, exitCode: Option<int>) {
    Terminal(natural) && (exitCode.Some? <==> natural == Completed || natural == Failed)
  }

  /** The constraints never refuse an end: whatever cause decides, the row it makes is allowed. */
  lemma EveryEndIsAllowed(r: Row, natural: State, exitCode: Option<int>, size: nat, fallback: Intent)
    requires RowAllowed(r) && r.state == Running && Natural(natural, exitCode)
    ensures RowAllowed(FinalRow(r, natural, exitCode, size, fallback))
    ensures Terminal(FinalRow(r, natural, exitCode, size, fallback).state)
  {}

  /** And they refuse every row whose state does not follow from its cause, or whose exit code does not
      follow from its state. */
  lemma AllowedRowsMatch(r: Row)
    requires RowAllowed(r)
    ensures r.outputSize >= 0
    ensures Terminal(r.state) && r.intent != NoIntent ==> r.state == IntentToState(r.intent)
    ensures Terminal(r.state) ==> (r.exitCode.Some? <==> r.state == Completed || r.state == Failed)
  {}

  // ----- a row is what the won calls made it -----

  /** The `k`-th call was about `id` and was answered won. */
  predicate WonBy(ops: seq<Op>, k: nat, id: ProcessId) {
    k < |ops| && !ops[k].Refuse? && ops[k].id == id && ReplyOf(After(ops[..k]), ops[k]) == Won
  }

  /** Some call of a kind about `id` was won. */
  ghost predicate WonSome(ops: seq<Op>, id: ProcessId, kind: Op -> bool) {
    exists k: nat :: WonBy(ops, k, id) && kind(ops[k])
  }

  predicate Inserts(op: Op) { op.Insert? }

  predicate Advertises(op: Op) { op.Advertise? || (op.Insert? && op.row.advertised) }

  predicate Records(op: Op) { op.RecordIntent? }

  predicate Ends(op: Op) { op.Finalize? }

  predicate RefusedIn(ops: seq<Op>, session: SessionId) { exists k: nat :: k < |ops| && ops[k] == Refuse(session) }

  lemma SomeStep(ops: seq<Op>, id: ProcessId, kind: Op -> bool)
    requires ops != []
    ensures
      var n: nat := |ops| - 1;
      WonSome(ops, id, kind) <==> WonSome(ops[..n], id, kind) || (WonBy(ops, n, id) && kind(ops[n]))
  {
    var n: nat := |ops| - 1;
    var before := ops[..n];
    forall k: nat | k < n ensures WonBy(before, k, id) <==> WonBy(ops, k, id) { assert before[..k] == ops[..k]; }
    if WonSome(before, id, kind) {
      var k: nat :| WonBy(before, k, id) && kind(before[k]);
      assert WonBy(ops, k, id) && kind(ops[k]);
    }
    if WonSome(ops, id, kind) {
      var k: nat :| WonBy(ops, k, id) && kind(ops[k]);
      assert k < n ==> WonBy(before, k, id) && kind(before[k]);
    }
  }

  predicate WinsFor(l: Ledger, op: Op, id: ProcessId) { !op.Refuse? && op.id == id && ReplyOf(l, op) == Won }

  /** What one call does to the row of `id`. */
  lemma RowStep(l: Ledger, op: Op, id: ProcessId)
    requires FreshInsert(op)
    ensures id in Apply(l, op).rows <==> id in l.rows || (WinsFor(l, op, id) && op.Insert?)
    ensures id !in l.rows && WinsFor(l, op, id) ==> op.Insert? && Apply(l, op).rows[id] == op.row
    ensures id in l.rows ==>
      var r, r' := l.rows[id], Apply(l, op).rows[id];
      && (WinsFor(l, op, id) ==> !op.Insert?)
      && (r'.advertised <==> r.advertised || (WinsFor(l, op, id) && op.Advertise?))
      && (Terminal(r'.state) <==> Terminal(r.state) || (WinsFor(l, op, id) && op.Finalize?))
      && (r'.intent != NoIntent && !Terminal(r'.state)
        ==> r.intent != NoIntent || (WinsFor(l, op, id) && op.RecordIntent?))
      && ((WinsFor(l, op, id) && op.RecordIntent?) || r.intent != NoIntent ==> r'.intent != NoIntent)
  {}

  /** The row of `id`, told by which kinds of call were won for it. */
  predicate Tells(l: Ledger, id: ProcessId, inserted: bool, advertised: bool, ended: bool, recorded: bool) {
    && (id in l.rows <==> inserted)
    && (id in l.rows ==>
          && var r := l.rows[id];
          && (r.advertised <==> advertised) && (Terminal(r.state) <==> ended)
          && (r.intent != NoIntent && !Terminal(r.state) ==> recorded) && (recorded ==> r.intent != NoIntent))
    && (id !in l.rows ==> !advertised && !ended && !recorded)
  }

  lemma TellsStep(
    l: Ledger, op: Op, id: ProcessId, inserted: bool, advertised: bool, ended: bool, recorded: bool, won: bool)
    requires FreshInsert(op) && Tells(l, id, inserted, advertised, ended, recorded) && won == WinsFor(l, op, id)
    ensures Tells(Apply(l, op), id, inserted || (won && Inserts(op)), advertised || (won && Advertises(op)),
      ended || (won && Ends(op)), recorded || (won && Records(op)))
  {
    RowStep(l, op, id);
  }

  /** Over any history, of the row of `id`: it exists when an insert was won, it is advertised when it
      was inserted so or a promotion was won, it is terminal when an end was won, and it has no cause
      unless one was recorded or it ended. */
  lemma {:induction false} RowIsItsWonCalls(ops: seq<Op>, id: ProcessId)
    requires OnlyFreshInserts(ops)
    ensures id in After(ops).rows <==> WonSome(ops, id, Inserts)
    ensures id in After(ops).rows ==>
      var r := After(ops).rows[id];
      && (r.advertised <==> WonSome(ops, id, Advertises))
      && (Terminal(r.state) <==> WonSome(ops, id, Ends))
      && (r.intent != NoIntent && !Terminal(r.state) ==> WonSome(ops, id, Records))
      && (WonSome(ops, id, Records) ==> r.intent != NoIntent)
    ensures id !in After(ops).rows
      ==> !WonSome(ops, id, Advertises) && !WonSome(ops, id, Ends) && !WonSome(ops, id, Records)
  {
    if ops != [] {
      var n: nat := |ops| - 1;
      var before := ops[..n];
      RowIsItsWonCalls(before, id);
      SomeStep(ops, id, Inserts);
      SomeStep(ops, id, Advertises);
      SomeStep(ops, id, Ends);
      SomeStep(ops, id, Records);
      assert FreshInsert(ops[n]);
      TellsStep(After(before), ops[n], id, WonSome(before, id, Inserts), WonSome(before, id, Advertises),
        WonSome(before, id, Ends), WonSome(before, id, Records), WonBy(ops, n, id));
    }
  }

  /** A recorded cause, the session and the root are those of the call that won. */
  lemma {:induction false} RowKeepsWonCall(ops: seq<Op>, id: ProcessId, k: nat)
    requires OnlyFreshInserts(ops) && WonBy(ops, k, id)
    ensures id in After(ops).rows
    ensures ops[k].Insert? ==>
      After(ops).rows[id].session == ops[k].row.session && After(ops).rows[id].root == ops[k].row.root
    ensures ops[k].RecordIntent? ==> After(ops).rows[id].intent == ops[k].intent
  {
    FirstCauseWins(ops, k + 1);
    assert ops[..k + 1][..k] == ops[..k];
    assert After(ops[..k + 1]) == Apply(After(ops[..k]), ops[k]);
  }

  predicate WritesSize(op: Op) { op.Insert? || op.Finalize? || op.UpdateOutputSize? }

  function SizeOf(op: Op): int
    requires WritesSize(op)
  {
    if op.Insert? then op.row.outputSize else op.size
  }

  /** The recorded size is the one written last. */
  lemma {:induction false} SizeIsLastWritten(ops: seq<Op>, id: ProcessId, k: nat)
    requires WonBy(ops, k, id) && WritesSize(ops[k])
    requires forall j: nat | k < j && WonBy(ops, j, id) :: !WritesSize(ops[j])
    ensures id in After(ops).rows && After(ops).rows[id].outputSize == SizeOf(ops[k])
  {
    var n := |ops| - 1;
    if k < n {
      var before := ops[..n];
      forall j: nat | j < n ensures WonBy(before, j, id) <==> WonBy(ops, j, id) { assert before[..j] == ops[..j]; }
      assert before[k] == ops[k];
      SizeIsLastWritten(before, id, k);
      assert WonBy(ops, n, id) ==> !WritesSize(ops[n]);
    } else {
      assert ops[..k] == ops[..n];
    }
  }

  lemma {:induction false} RefusingIsRefused(ops: seq<Op>, session: SessionId)
    ensures session in After(ops).refusing <==> RefusedIn(ops, session)
  {
    if ops != [] {
      var n := |ops| - 1;
      RefusingIsRefused(ops[..n], session);
      if RefusedIn(ops[..n], session) {
        var k: nat :| k < n && ops[..n][k] == Refuse(session);
        assert ops[k] == Refuse(session);
      }
      if RefusedIn(ops, session) {
        var k: nat :| k < |ops| && ops[k] == Refuse(session);
        assert k < n ==> ops[..n][k] == Refuse(session);
      }
    }
  }

  /** Who wins, by who has won before. */
  lemma WinnersByHistory(ops: seq<Op>, op: Op)
    requires OnlyFreshInserts(ops)
    ensures op.Insert? && FreshInsert(op) && op.row.outputSize >= 0 ==>
      (ReplyOf(After(ops), op) == Won <==> op.up && !WonSome(ops, op.id, Inserts))
    ensures op.RecordIntent? ==>
      (ReplyOf(After(ops), op) == Won <==>
        && op.up && op.intent != NoIntent && WonSome(ops, op.id, Inserts)
        && !WonSome(ops, op.id, Ends) && !WonSome(ops, op.id, Records))
    ensures op.Advertise? ==>
      (ReplyOf(After(ops), op) == Won <==>
        op.up && WonSome(ops, op.id, Inserts) && !WonSome(ops, op.id, Ends) && !WonSome(ops, op.id, Advertises))
    ensures op.Finalize? && Natural(op.natural, op.exitCode) && op.size >= 0 ==>
      (ReplyOf(After(ops), op) == Won <==> op.up && WonSome(ops, op.id, Inserts) && !WonSome(ops, op.id, Ends))
    ensures op.UpdateOutputSize?
      ==> (ReplyOf(After(ops), op) == Won <==> op.up && op.size >= 0 && WonSome(ops, op.id, Inserts))
  {
    if !op.Refuse? {
      RowIsItsWonCalls(ops, op.id);
      OutcomeMatchesCause(ops);
      if op.Finalize? && op.id in After(ops).rows && After(ops).rows[op.id].state == Running
        && Natural(op.natural, op.exitCode) && op.size >= 0 {
        EveryEndIsAllowed(After(ops).rows[op.id], op.natural, op.exitCode, op.size, op.fallback);
      }
    }
  }

  // ----- the completion fact -----

  /** At step `k` of the history the row became terminal owing a fact, and its session was
      still accepting process completions. */
  predicate DeliveredAt(ops: seq<Op>, id: ProcessId, k: nat) {
    && k < |ops|
    && var l, l' := After(ops[..k]), After(ops[..k + 1]);
      && id in l.rows && l.rows[id].state == Running
      && id in l'.rows && OwesFact(l'.rows[id])
      && l.rows[id].session !in l.refusing
  }

  predicate Unique(s: seq<Fact>) { forall i, j | 0 <= i < j < |s| :: s[i].process != s[j].process }

  /** A fact in the inbox belongs to a terminal, advertised, unsuppressed row of its session. */
  predicate FactsEarned(l: Ledger) {
    && Unique(l.inbox)
    && (forall i | 0 <= i < |l.inbox| ::
          l.inbox[i].process in l.rows && OwesFact(l.rows[l.inbox[i].process])
          && l.inbox[i].session == l.rows[l.inbox[i].process].session)
  }

  predicate HasFact(l: Ledger, id: ProcessId) { exists i | 0 <= i < |l.inbox| :: l.inbox[i].process == id }

  lemma ApplyKeepsFactsEarned(l: Ledger, op: Op)
    requires FactsEarned(l) && FreshInsert(op)
    ensures FactsEarned(Apply(l, op))
  {
    var l' := Apply(l, op);
    ApplyEvolves(l, op);
    forall i | 0 <= i < |l.inbox|
      ensures l.inbox[i].process in l'.rows && OwesFact(l'.rows[l.inbox[i].process])
        && l.inbox[i].session == l'.rows[l.inbox[i].process].session
    {}
  }

  lemma {:induction false} FactsAlwaysEarned(ops: seq<Op>)
    requires OnlyFreshInserts(ops)
    ensures FactsEarned(After(ops))
  {
    if ops != [] {
      FactsAlwaysEarned(ops[..|ops| - 1]);
      ApplyKeepsFactsEarned(After(ops[..|ops| - 1]), ops[|ops| - 1]);
    }
  }

  /** One operation adds a fact for `id` exactly when it is the finalization that makes an
      advertised, unsuppressed row terminal while its session still accepts. */
  lemma ApplyAddsFact(l: Ledger, op: Op, id: ProcessId)
    requires FactsEarned(l) && FreshInsert(op)
    ensures HasFact(Apply(l, op), id) <==>
      HasFact(l, id)
      || (id in l.rows && l.rows[id].state == Running && id in Apply(l, op).rows
          && OwesFact(Apply(l, op).rows[id]) && l.rows[id].session !in l.refusing)
  {
    var l' := Apply(l, op);
    if HasFact(l, id) {
      var i :| 0 <= i < |l.inbox| && l.inbox[i].process == id;
      assert l'.inbox[i] == l.inbox[i];
    } else if op.Finalize? && ReplyOf(l, op) == Won && OwesFact(l'.rows[op.id])
      && l.rows[op.id].session !in l.refusing {
      var f := Fact(l.rows[op.id].session, op.id);
      assert f !in l.inbox;
      assert l'.inbox[|l.inbox|] == f;
    }
  }

  /** The exact rule, over every history: the inbox holds `process:<id>`, once, if and only if
      the row was finalized advertised and unsuppressed while its session accepted input. */
  lemma {:induction false} FactExactlyWhenDelivered(ops: seq<Op>, id: ProcessId)
    requires OnlyFreshInserts(ops)
    ensures Unique(After(ops).inbox)
    ensures HasFact(After(ops), id) <==> exists k: nat :: DeliveredAt(ops, id, k)
  {
    FactsAlwaysEarned(ops);
    if ops == [] {
    } else {
      var n := |ops| - 1;
      var before := ops[..n];
      FactExactlyWhenDelivered(before, id);
      FactsAlwaysEarned(before);
      ApplyAddsFact(After(before), ops[n], id);
      assert ops[..n + 1] == ops;
      forall k: nat | k < n ensures DeliveredAt(before, id, k) <==> DeliveredAt(ops, id, k) {
        assert before[..k] == ops[..k] && before[..k + 1] == ops[..k + 1];
      }
      assert DeliveredAt(ops, id, n) <==>
        (id in After(before).rows && After(before).rows[id].state == Running && id in After(ops).rows
         && OwesFact(After(ops).rows[id]) && After(before).rows[id].session !in After(before).refusing);
      if HasFact(After(ops), id) && !HasFact(After(before), id) {
        assert DeliveredAt(ops, id, n);
      }
    }
  }

  predicate Suppresses(intent: Intent) { intent in {SessionStopped, SessionKilled, AgentCancelled} }

  predicate RecordsSuppression(op: Op) { op.RecordIntent? && Suppresses(op.intent) }

  /** In terms of the calls alone: the `k`-th is the end that won, the process was inserted advertised
      or promoted before it, its first cause, recorded or else brought by the end itself, is no stop,
      kill or cancellation, and its session had not started to refuse. */
  ghost predicate EndOwes(ops: seq<Op>, id: ProcessId, k: nat) {
    && WonBy(ops, k, id) && ops[k].Finalize?
    && WonSome(ops[..k], id, Advertises)
    && !WonSome(ops[..k], id, RecordsSuppression)
    && (WonSome(ops[..k], id, Records) || !Suppresses(ops[k].fallback))
    && forall j: nat | WonBy(ops[..k], j, id) && ops[j].Insert? :: !RefusedIn(ops[..k], ops[j].row.session)
  }

  lemma SuppressedByRecord(ops: seq<Op>, id: ProcessId)
    requires OnlyFreshInserts(ops) && id in After(ops).rows && After(ops).rows[id].state == Running
    ensures WonSome(ops, id, RecordsSuppression) <==> Suppresses(After(ops).rows[id].intent)
  {
    RowIsItsWonCalls(ops, id);
    if WonSome(ops, id, RecordsSuppression) {
      var k: nat :| WonBy(ops, k, id) && RecordsSuppression(ops[k]);
      RowKeepsWonCall(ops, id, k);
    }
    if WonSome(ops, id, Records) {
      var k: nat :| WonBy(ops, k, id) && Records(ops[k]);
      RowKeepsWonCall(ops, id, k);
    }
  }

  lemma SessionByInsert(ops: seq<Op>, id: ProcessId)
    requires OnlyFreshInserts(ops) && id in After(ops).rows
    ensures After(ops).rows[id].session in After(ops).refusing <==>
      exists j: nat :: WonBy(ops, j, id) && ops[j].Insert? && RefusedIn(ops, ops[j].row.session)
  {
    RowIsItsWonCalls(ops, id);
    RefusingIsRefused(ops, After(ops).rows[id].session);
    var k: nat :| WonBy(ops, k, id) && Inserts(ops[k]);
    RowKeepsWonCall(ops, id, k);
    forall j: nat | WonBy(ops, j, id) && ops[j].Insert? ensures ops[j].row.session == After(ops).rows[id].session {
      RowKeepsWonCall(ops, id, j);
    }
  }

  lemma OnlyEndsEnd(l: Ledger, op: Op, id: ProcessId)
    requires id in l.rows && l.rows[id].state == Running
    ensures
      var l' := Apply(l, op);
      id in l'.rows && (Terminal(l'.rows[id].state) <==> op.Finalize? && op.id == id && ReplyOf(l, op) == Won)
  {}

  lemma DeliveredIsOwed(ops: seq<Op>, id: ProcessId, k: nat)
    requires OnlyFreshInserts(ops)
    ensures DeliveredAt(ops, id, k) <==> EndOwes(ops, id, k)
  {
    if k < |ops| {
      var before, op := ops[..k], ops[k];
      var l := After(before);
      assert ops[..k + 1][..k] == before && After(ops[..k + 1]) == Apply(l, op);
      RowIsItsWonCalls(before, id);
      if id in l.rows && l.rows[id].state == Running {
        OnlyEndsEnd(l, op, id);
        SuppressedByRecord(before, id);
        SessionByInsert(before, id);
        assert forall j: nat | WonBy(before, j, id) :: before[j] == ops[j];
        if WonBy(ops, k, id) && op.Finalize? { FinalizePrecedence(l, op); }
      }
    }
  }

  /** The whole rule over every history in terms of the calls and their answers: one fact if some
      end owes it, else none. */
  lemma FactExactlyWhenEndOwes(ops: seq<Op>, id: ProcessId)
    requires OnlyFreshInserts(ops)
    ensures Unique(After(ops).inbox)
    ensures HasFact(After(ops), id) <==> exists k: nat :: EndOwes(ops, id, k)
  {
    FactExactlyWhenDelivered(ops, id);
    if k: nat :| DeliveredAt(ops, id, k) { DeliveredIsOwed(ops, id, k); }
    if k: nat :| EndOwes(ops, id, k) { DeliveredIsOwed(ops, id, k); }
  }

  /** In particular a won promotion, then an end without a cause while the session accepts. */
  lemma WonPromotionWakes(ops: seq<Op>, id: ProcessId, j: nat, k: nat)
    requires OnlyFreshInserts(ops) && j < k && WonBy(ops, j, id) && ops[j].Advertise?
    requires WonBy(ops, k, id) && ops[k].Finalize? && ops[k].fallback == NoIntent && !WonSome(ops[..k], id, Records)
    requires forall i | 0 <= i < k :: !ops[i].Refuse?
    ensures HasFact(After(ops), id)
  {
    assert ops[..k][..j] == ops[..j];
    assert WonBy(ops[..k], j, id) && Advertises(ops[..k][j]);
    assert EndOwes(ops, id, k);
    FactExactlyWhenEndOwes(ops, id);
  }

  /** While a session has never refused input, its facts are exactly its owing rows. */
  lemma {:induction false} FactExactlyWhenOwed(ops: seq<Op>, id: ProcessId)
    requires OnlyFreshInserts(ops)
    requires id in After(ops).rows && After(ops).rows[id].session !in After(ops).refusing
    ensures HasFact(After(ops), id) <==> OwesFact(After(ops).rows[id])
  {
    FactsAlwaysEarned(ops);
    if ops != [] {
      var before, op := ops[..|ops| - 1], ops[|ops| - 1];
      FactsAlwaysEarned(before);
      ApplyAddsFact(After(before), op, id);
      assert FreshInsert(op);
      ApplyEvolves(After(before), op);
      if id in After(before).rows { FactExactlyWhenOwed(before, id); }
    }
  }

  /** The rule without the session's status is false: a process of a killed session that ends
      advertised and unsuppressed leaves no fact. */
  lemma FactLostWhenOwnerKilled()
    ensures exists ops: seq<Op>, id ::
      OnlyFreshInserts(ops) && id in After(ops).rows && OwesFact(After(ops).rows[id]) && !HasFact(After(ops), id)
  {
    var id := ProcessId(0, 1);
    var a := Op.Insert(id, Row(7, 7, true, 0, None, NoIntent, Running), true);
    var b := Op.Refuse(7);
    var c := Op.Finalize(id, Completed, Some(0), 0, NoIntent, true);
    var ops := [a, b, c];
    assert ops[..2] == [a, b] && [a, b][..1] == [a] && [a][..0] == [];
    assert After([a]) == Apply(EMPTY, a);
    assert After([a, b]) == Apply(After([a]), b);
    assert After(ops) == Apply(After([a, b]), c);
  }
}
