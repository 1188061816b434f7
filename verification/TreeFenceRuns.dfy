/** What a fenced start and a tree stop achieve, from any state of any run: an undisturbed start gets
    its row in, a stop can always come to its end, and it reports every failure on the way. */
module TreeFenceRuns {
  import opened L = ProcessLedger
  import opened Options
  import opened SessionForest
  import opened TreeFence

  // ----- an undisturbed start -----

  predicate Live(s: Session) { s.status != Stopping && s.status != Terminating && !s.killed }

  /** Whether the store takes the row: the call gets through, the id is new, the row is allowed and
      names the root of its owner's tree. */
  predicate Takes(f: Fence, id: ProcessId, row: Row, up: bool) {
    && up && id !in f.ledger.rows && RowAllowed(row) && row.session in f.sessions
    && row.root == if f.sessions[row.session].parent == 0 then row.session else f.sessions[row.session].root
  }

  /** A start that nobody disturbs gets its row in exactly when its root is live and the store takes
      the row, and gives the tree's lock back either way. */
  lemma UndisturbedStart(f: Fence, tok: nat, id: ProcessId, row: Row, up: bool)
    requires Inv(f) && tok !in f.starters && row.root in f.sessions && RootOf(f.sessions, row.root) !in f.locks
    requires FreshInsert(Op.Insert(id, row, up))
    ensures
      && Enabled(f, StartLocks(tok, row.session, row.root)) && var a := Take(f, StartLocks(tok, row.session, row.root));
      && RootOf(f.sessions, row.root) in a.locks && a.sessions == f.sessions && a.rank == f.rank
      && Enabled(a, StartChecks(tok)) && var b := Take(a, StartChecks(tok));
      && b.sessions == f.sessions && b.rank == f.rank
      && (Enabled(b, StartInserts(tok, id, row, up)) <==> Live(f.sessions[row.root]))
      && var c := if Live(f.sessions[row.root]) then Take(b, StartInserts(tok, id, row, up)) else b;
      && c.sessions == f.sessions && c.rank == f.rank && !Enabled(c, StartInserts(tok, id, row, up))
      && Enabled(c, StartReturns(tok)) && var d := Take(c, StartReturns(tok));
      && d.ledger.rows ==
         (if Live(f.sessions[row.root]) && Takes(f, id, row, up) then f.ledger.rows[id := row] else f.ledger.rows)
      && d.locks == f.locks && d.starters == f.starters && d.stop == f.stop
  {
    var key := RootOf(f.sessions, row.root);
    var a := Take(f, StartLocks(tok, row.session, row.root));
    assert a.locks - {key} == f.locks;
    var st := Starter(row.session, row.root, key, Locked);
    assert a.starters[tok] == st && a.starters - {tok} == f.starters;
  }

  // ----- every stop can come to its end -----

  predicate AllStored(l: Ledger, ids: set<ProcessId>) { forall id | id in ids :: id in l.rows }

  ghost predicate Sound(f: Fence) {
    && Inv(f) && RowsAllowed(f.ledger)
    && (f.stop.Joining? ==> AllStored(f.ledger, f.stop.pending))
  }

  lemma ApplyKeepsAllowed(l: Ledger, op: Op)
    requires RowsAllowed(l)
    ensures RowsAllowed(Apply(l, op))
  {}

  lemma LedgerStaysAllowed(f: Fence, e: Step)
    requires Inv(f) && Enabled(f, e) && RowsAllowed(f.ledger)
    ensures RowsAllowed(Take(f, e).ledger)
    ensures forall id | id in f.ledger.rows :: id in Take(f, e).ledger.rows
  {
    if e.Call? {
      ApplyKeepsAllowed(f.ledger, e.op);
      ApplyEvolves(f.ledger, e.op);
    } else if e.StartInserts? {
      ApplyKeepsAllowed(f.ledger, Op.Insert(e.id, e.row, e.up));
      ApplyEvolves(f.ledger, Op.Insert(e.id, e.row, e.up));
    }
  }

  lemma PendingStaysStored(f: Fence, e: Step)
    requires Sound(f) && Enabled(f, e) && Take(f, e).stop.Joining?
    ensures AllStored(f.ledger, Take(f, e).stop.pending)
  {}

  lemma StepKeepsSound(f: Fence, e: Step)
    requires Sound(f) && Enabled(f, e)
    ensures Sound(Take(f, e))
  {
    StepKeepsInv(f, e);
    LedgerStaysAllowed(f, e);
    if Take(f, e).stop.Joining? { PendingStaysStored(f, e); }
  }

  lemma {:induction false} SoundOverRuns(states: seq<Fence>, steps: seq<Step>, i: nat)
    requires IsRun(states, steps) && i < |states|
    ensures Sound(states[i])
  {
    if i > 0 {
      SoundOverRuns(states, steps, i - 1);
      StepKeepsSound(states[i - 1], steps[i - 1]);
    }
  }

  /** The stop's own steps, none of which fails, and the end of a process. */
  ghost predicate Helps(f: Fence, e: Step)
    requires Forest(f.sessions, f.rank)
  {
    && Enabled(f, e)
    && (e == StopLoads || e == StopLists(true) || (e.StopPolls? && e.up) || e == StopJoined
        || (e.Call? && e.op.Finalize?))
  }

  ghost predicate SucceedsIn(n: nat, f: Fence) {
    && Forest(f.sessions, f.rank)
    && if n == 0 then f.stop.Returned? && f.stop.ok else exists e: Step :: Helps(f, e) && SucceedsIn(n - 1, Take(f, e))
  }

  ghost predicate CanSucceed(f: Fence) { exists n: nat :: SucceedsIn(n, f) }

  lemma SucceedsAfter(f: Fence, e: Step)
    requires Forest(f.sessions, f.rank) && Helps(f, e) && CanSucceed(Take(f, e))
    ensures CanSucceed(f)
  {
    var n: nat :| SucceedsIn(n, Take(f, e));
    assert SucceedsIn(n + 1, f);
  }

  /** Any process can end, and its row then says so. */
  lemma AnyoneCanEnd(l: Ledger, id: ProcessId) returns (op: Op)
    requires RowsAllowed(l) && id in l.rows
    ensures op.Finalize? && id in Apply(l, op).rows && Terminal(Apply(l, op).rows[id].state)
  {
    op := Op.Finalize(id, State.Completed, Some(0), 0, NoIntent, true);
    if l.rows[id].state == Running { EveryEndIsAllowed(l.rows[id], State.Completed, Some(0), 0, NoIntent); }
  }

  lemma {:induction false} JoinCanSucceed(f: Fence)
    requires Sound(f) && f.stop.Joining? && !f.stop.failed
    ensures CanSucceed(f)
    decreases |f.stop.pending|
  {
    if f.stop.pending == {} {
      assert SucceedsIn(0, Take(f, StopJoined));
      SucceedsAfter(f, StopJoined);
    } else {
      var id :| id in f.stop.pending;
      var op := AnyoneCanEnd(f.ledger, id);
      var g := Take(f, Call(op));
      StepKeepsSound(f, Call(op));
      var h := Take(g, StopPolls(id, true));
      StepKeepsSound(g, StopPolls(id, true));
      assert h.stop.pending == f.stop.pending - {id} && !h.stop.failed;
      JoinCanSucceed(h);
      SucceedsAfter(g, StopPolls(id, true));
      SucceedsAfter(f, Call(op));
    }
  }

  /** A stop that has met no failure can return without error, whatever state its tree is in: no lock
      it needs is held by a process it waits for. */
  lemma StopCanAlwaysSucceed(states: seq<Fence>, steps: seq<Step>, i: nat)
    requires IsRun(states, steps) && i < |states|
    requires var s := states[i].stop; s.Entered? || s.Loaded? || (s.Joining? && !s.failed)
    ensures CanSucceed(states[i])
  {
    SoundOverRuns(states, steps, i);
    var f := states[i];
    if f.stop.Joining? {
      JoinCanSucceed(f);
    } else if f.stop.Loaded? {
      ListedCanSucceed(f);
    } else {
      StepKeepsSound(f, StopLoads);
      ListedCanSucceed(Take(f, StopLoads));
      SucceedsAfter(f, StopLoads);
    }
  }

  lemma ListedCanSucceed(f: Fence)
    requires Sound(f) && f.stop.Loaded?
    ensures CanSucceed(f)
  {
    StepKeepsSound(f, StopLists(true));
    JoinCanSucceed(Take(f, StopLists(true)));
    SucceedsAfter(f, StopLists(true));
  }

  /** What the stop joins is every running process of its subtree, and afterwards its lock is free. */
  lemma StopJoinsItsSubtree(f: Fence, target: int)
    requires Sound(f) && Enabled(f, StopLocks(target))
    ensures
      var a := Take(f, StopLocks(target));
      && a.sessions == f.sessions && a.rank == f.rank && a.ledger == f.ledger && Enabled(a, StopLoads)
      && RootOf(f.sessions, target) in a.locks
      && var b := Take(a, StopLoads);
      && b.sessions == f.sessions && b.rank == f.rank && b.ledger == f.ledger && Enabled(b, StopLists(true))
      && var c := Take(b, StopLists(true));
      && c.stop.Joining? && c.stop.target == target && !c.stop.failed
      && forall id :: id in c.stop.pending <==>
           id in f.ledger.rows && f.ledger.rows[id].state == Running && f.ledger.rows[id].session in f.sessions
           && Descends(f.sessions, f.rank, false, target, f.ledger.rows[id].session)
  {}

  lemma StopGivesLockBack(states: seq<Fence>, steps: seq<Step>, i: nat)
    requires IsRun(states, steps) && i < |states| && states[i].stop.Returned?
    ensures
      var f := states[i];
      && Forest(f.sessions, f.rank) && Enabled(f, StopUnlocks) && f.stop.target in f.sessions
      && RootOf(f.sessions, f.stop.target) in f.locks
      && RootOf(f.sessions, f.stop.target) !in Take(f, StopUnlocks).locks && Take(f, StopUnlocks).stop.Idle?
      && forall k | k in f.locks && f.locks[k] != ByStop ::
           k in Take(f, StopUnlocks).locks && Take(f, StopUnlocks).locks[k] == f.locks[k]
  {
    SoundOverRuns(states, steps, i);
  }

  // ----- every failure is reported -----

  /** The step is a call that failed under the stop, or its time running out. */
  predicate Failing(f: Fence, e: Step) {
    || e == StopTimesOut || e == StopLists(false)
    || (e.StopPolls? && (!e.up || e.id !in f.ledger.rows))
  }

  predicate Noted(s: Stop) { (s.Joining? && s.failed) || (s.Returned? && !s.ok) }

  lemma FailureIsNoted(f: Fence, e: Step)
    requires Forest(f.sessions, f.rank) && Enabled(f, e) && e != StopUnlocks && (Failing(f, e) || Noted(f.stop))
    ensures Noted(Take(f, e).stop)
  {}

  /** A stop that returns without error met no failure since it took the lock. */
  lemma {:induction false} OkMeansNoFailure(states: seq<Fence>, steps: seq<Step>, j: nat, i: nat)
    requires IsRun(states, steps) && j < i < |states|
    requires Failing(states[j], steps[j]) && forall m | j < m < i :: steps[m] != StopUnlocks
    ensures Noted(states[i].stop)
    decreases i
  {
    if j + 1 < i { OkMeansNoFailure(states, steps, j, i - 1); }
    FailureIsNoted(states[i - 1], steps[i - 1]);
  }
}
