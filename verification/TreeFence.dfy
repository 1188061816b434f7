/** Process starts and tree stops share one lock per session tree. A machine of fenced starts,
    a stop's process cancellation, child creation and every other ledger call, in which a stop
    that returns without error leaves no running process in its subtree. */
module TreeFence {
  import opened L = ProcessLedger
  import opened SessionForest

  datatype Holder = ByStart(tok: nat) | ByStop | ByOther

  datatype StartPc = Locked | Admitted | Finished

  datatype Starter = Starter(session: int, root: int, key: int, pc: StartPc)

  /** How far `cancelSessionSubtreeProcesses` of the stopping actor has come. */
  datatype Stop =
    | Idle
    | Entered(target: int)
    | Loaded(target: int, ids: set<int>)
    | Joining(target: int, ids: set<int>, pending: set<ProcessId>, failed: bool)
    | Returned(target: int, ids: set<int>, ok: bool)

  datatype Fence = Fence(
    ledger: Ledger, sessions: Sessions, rank: map<int, nat>, locks: map<int, Holder>, starters: map<nat, Starter>,
      stop: Stop)

  /** The sessions of a subtree; `Subtree` computes exactly these. */
  ghost function Below(f: Fence, target: int): set<int>
    requires Forest(f.sessions, f.rank)
  {
    set x | x in f.sessions && Descends(f.sessions, f.rank, false, target, x)
  }

  /** The insert trigger: a process names the root of its owner's tree. */
  predicate OwnerMatches(all: Sessions, session: int, root: int) {
    session in all && (if all[session].parent == 0 then root == session else root == all[session].root)
  }

  /** A root has no root column; a child always has one, naming a stored root. */
  predicate Rooted(all: Sessions) {
    forall id | id in all ::
      (if all[id].parent == 0 then all[id].root == 0
       else all[id].root in all && all[all[id].root].parent == 0)
  }

  predicate Refuses(s: Session) { s.status == Stopping || s.status == Terminating || s.killed }

  datatype Step =
    | StartLocks(tok: nat, session: int, root: int)
    | StartChecks(tok: nat)
    | StartInserts(tok: nat, id: ProcessId, row: Row, up: bool)
    | StartReturns(tok: nat)
    | StopLocks(target: int)
    | StopLoads
    | StopLists(up: bool)
    | StopPolls(id: ProcessId, up: bool)
    | StopJoined
    | StopTimesOut
    | StopUnlocks
    | OtherLocks(key: int)
    | OtherUnlocks(key: int)
    | Spawn(child: int, parent: int)
    | NewRoot(root: int)
    | SetStatus(session: int, killed: bool, status: Status)
    | Call(op: Op)

  ghost predicate Enabled(f: Fence, e: Step)
    requires Forest(f.sessions, f.rank)
  {
    match e
    case StartLocks(tok, session, root) =>
      tok !in f.starters && root in f.sessions && RootOf(f.sessions, root) !in f.locks
    case StartChecks(tok) => tok in f.starters && f.starters[tok].pc == Locked && f.starters[tok].root in f.sessions
    case StartInserts(tok, id, row, up) =>
      && tok in f.starters && f.starters[tok].pc == Admitted && FreshInsert(Op.Insert(id, row, up))
      && row.session == f.starters[tok].session && row.root == f.starters[tok].root
    case StartReturns(tok) => tok in f.starters
    case StopLocks(target) => f.stop.Idle? && target in f.sessions && RootOf(f.sessions, target) !in f.locks
    case StopLoads => f.stop.Entered?
    case StopLists(_) => f.stop.Loaded?
    case StopPolls(id, _) => f.stop.Joining? && id in f.stop.pending
    case StopJoined => f.stop.Joining? && f.stop.pending == {}
    case StopTimesOut => f.stop.Joining?
    case StopUnlocks => f.stop.Returned?
    case OtherLocks(key) => key !in f.locks
    case OtherUnlocks(key) => key in f.locks && f.locks[key] == ByOther
    // Children are created under their tree's lock.
    case Spawn(child, parent) =>
      && child !in f.sessions && child != 0 && parent in f.sessions
      && RootOf(f.sessions, parent) in f.locks && f.locks[RootOf(f.sessions, parent)] == ByOther
    case NewRoot(root) => root !in f.sessions && root != 0
    case SetStatus(id, _, _) => id in f.sessions
    case Call(op) => !op.Insert?
  }

  ghost function Take(f: Fence, e: Step): Fence
    requires Forest(f.sessions, f.rank) && Enabled(f, e)
  {
    match e
    case StartLocks(tok, session, root) =>
      var key := RootOf(f.sessions, root);
      f.(locks := f.locks[key := ByStart(tok)], starters := f.starters[tok := Starter(session, root, key, Locked)])
    case StartChecks(tok) =>
      var st := f.starters[tok];
      f.(starters := f.starters[tok := st.(pc := if Refuses(f.sessions[st.root]) then Finished else Admitted)])
    case StartInserts(tok, id, row, up) =>
      var st := f.starters[tok];
      f.(ledger := if OwnerMatches(f.sessions, row.session, row.root) then Apply(f.ledger, Op.Insert(id, row, up))
        else f.ledger,
         starters := f.starters[tok := st.(pc := Finished)])
    case StartReturns(tok) => f.(locks := f.locks - {f.starters[tok].key}, starters := f.starters - {tok})
    case StopLocks(target) => f.(locks := f.locks[RootOf(f.sessions, target) := ByStop], stop := Entered(target))
    case StopLoads => f.(stop := Loaded(f.stop.target, Below(f, f.stop.target)))
    case StopLists(up) =>
      if !up then f.(stop := Returned(f.stop.target, f.stop.ids, false))
      else f.(stop := Joining(f.stop.target, f.stop.ids, RunningOf(f.ledger, f.stop.ids), false))
    case StopPolls(id, up) =>
      if !up || id !in f.ledger.rows then f.(stop := f.stop.(pending := f.stop.pending - {id}, failed := true))
      else if Terminal(f.ledger.rows[id].state) then f.(stop := f.stop.(pending := f.stop.pending - {id}))
      else f
    case StopJoined => f.(stop := Returned(f.stop.target, f.stop.ids, !f.stop.failed))
    case StopTimesOut => f.(stop := Returned(f.stop.target, f.stop.ids, false))
    case StopUnlocks => f.(locks := f.locks - (set k | k in f.locks && f.locks[k] == ByStop), stop := Idle)
    case OtherLocks(key) => f.(locks := f.locks[key := ByOther])
    case OtherUnlocks(key) => f.(locks := f.locks - {key})
    case Spawn(child, parent) =>
      f.(sessions := f.sessions[child := Session(parent, RootOf(f.sessions, parent), false, Active)],
         rank := f.rank[child := f.rank[parent] + 1])
    case NewRoot(root) => f.(sessions := f.sessions[root := Session(0, 0, false, Active)], rank := f.rank[root := 0])
    case SetStatus(id, killed, status) =>
      f.(sessions := f.sessions[id := f.sessions[id].(killed := killed, status := status)])
    case Call(op) => f.(ledger := Apply(f.ledger, op))
  }

  function RunningOf(l: Ledger, ids: set<int>): set<ProcessId> {
    set id | id in l.rows && l.rows[id].state == Running && l.rows[id].session in ids
  }

  const EMPTY_FENCE := Fence(EMPTY, map[], map[], map[], map[], Idle)

  // ----- what every step keeps -----

  predicate Held(f: Fence) {
    && (forall tok | tok in f.starters ::
          f.starters[tok].key in f.locks && f.locks[f.starters[tok].key] == ByStart(tok)
          && f.starters[tok].root in f.sessions && f.starters[tok].key == RootOf(f.sessions, f.starters[tok].root))
    && (f.stop.Idle? || (f.stop.target in f.sessions && RootOf(f.sessions, f.stop.target) in f.locks
                         && f.locks[RootOf(f.sessions, f.stop.target)] == ByStop))
  }

  /** Once loaded, the stop's list is still its subtree, and every running process it owns is
      either still being joined or already counted as a failure. */
  ghost predicate StopKnows(f: Fence)
    requires Forest(f.sessions, f.rank)
  {
    && (f.stop.Loaded? || f.stop.Joining? || f.stop.Returned? ==> f.stop.ids == Below(f, f.stop.target))
    && (f.stop.Joining? ==> f.stop.failed || RunningOf(f.ledger, f.stop.ids) <= f.stop.pending)
    && (f.stop.Returned? && f.stop.ok ==> RunningOf(f.ledger, f.stop.ids) == {})
  }

  ghost predicate Inv(f: Fence) { Forest(f.sessions, f.rank) && Rooted(f.sessions) && Held(f) && StopKnows(f) }

  lemma NonInsertAddsNoRunning(l: Ledger, op: Op, ids: set<int>)
    requires !op.Insert?
    ensures RunningOf(Apply(l, op), ids) <= RunningOf(l, ids)
  {
    ApplyEvolves(l, op);
  }

  /** New sessions do not change descent between old ones. */
  lemma {:induction false} GrowthKeepsDescent(f: Fence, f': Fence, a: int, x: int)
    requires Forest(f.sessions, f.rank) && Forest(f'.sessions, f'.rank) && x in f.sessions
    requires forall id | id in f.sessions ::
      id in f'.sessions && f'.sessions[id].parent == f.sessions[id].parent && f'.rank[id] == f.rank[id]
    ensures Descends(f.sessions, f.rank, false, a, x) <==> Descends(f'.sessions, f'.rank, false, a, x)
    decreases f.rank[x]
  {
    if x != a && f.sessions[x].parent != 0 { GrowthKeepsDescent(f, f', a, f.sessions[x].parent); }
  }

  lemma RootIsOwnRoot(all: Sessions, session: int, root: int)
    requires Rooted(all) && 0 !in all && OwnerMatches(all, session, root)
    ensures root in all && RootOf(all, session) == root == RootOf(all, root)
  {}

  /** An insert happens only under its owner's tree lock, so never into a subtree being stopped. */
  lemma FencedInsertStaysOutside(f: Fence, e: Step)
    requires Inv(f) && e.StartInserts? && Enabled(f, e) && !f.stop.Idle?
    requires OwnerMatches(f.sessions, e.row.session, e.row.root)
    ensures e.row.session !in Below(f, f.stop.target)
  {
    RootIsOwnRoot(f.sessions, e.row.session, e.row.root);
    if e.row.session in Below(f, f.stop.target) {
      DescendsStaysInTree(f.sessions, f.rank, false, f.stop.target, e.row.session);
      assert false;
    }
  }

  lemma ChildKeepsForest(all: Sessions, rank: map<int, nat>, child: int, parent: int)
    requires Forest(all, rank) && Rooted(all) && child !in all && child != 0 && parent in all
    ensures Forest(all[child := Session(parent, RootOf(all, parent), false, Active)], rank[child := rank[parent] + 1])
    ensures Rooted(all[child := Session(parent, RootOf(all, parent), false, Active)])
  {
    var all' := all[child := Session(parent, RootOf(all, parent), false, Active)];
    assert parent != 0 && RootOf(all', parent) == RootOf(all, parent) == RootOf(all', child);
  }

  lemma RootKeepsForest(all: Sessions, rank: map<int, nat>, root: int)
    requires Forest(all, rank) && Rooted(all) && root !in all && root != 0
    ensures Forest(all[root := Session(0, 0, false, Active)], rank[root := 0])
      && Rooted(all[root := Session(0, 0, false, Active)])
  {}

  lemma StatusKeepsForest(all: Sessions, rank: map<int, nat>, id: int, killed: bool, status: Status)
    requires Forest(all, rank) && Rooted(all) && id in all
    ensures Forest(all[id := all[id].(killed := killed, status := status)], rank)
    ensures Rooted(all[id := all[id].(killed := killed, status := status)])
  {}

  lemma SessionStepKeepsForest(f: Fence, e: Step)
    requires Forest(f.sessions, f.rank) && Rooted(f.sessions) && (e.Spawn? || e.NewRoot? || e.SetStatus?)
      && Enabled(f, e)
    ensures Forest(Take(f, e).sessions, Take(f, e).rank) && Rooted(Take(f, e).sessions)
  {
    match e
    case Spawn(child, parent) => ChildKeepsForest(f.sessions, f.rank, child, parent);
    case NewRoot(root) => RootKeepsForest(f.sessions, f.rank, root);
    case SetStatus(id, killed, status) => StatusKeepsForest(f.sessions, f.rank, id, killed, status);
  }

  /** A session created meanwhile is not below the stop's target: its parent's tree is locked by
      someone else. */
  lemma SpawnIsElsewhere(f: Fence, e: Step)
    requires Inv(f) && e.Spawn? && Enabled(f, e) && !f.stop.Idle?
    ensures !Descends(f.sessions, f.rank, false, f.stop.target, e.parent) && e.child != f.stop.target
  {
    if Descends(f.sessions, f.rank, false, f.stop.target, e.parent) {
      DescendsStaysInTree(f.sessions, f.rank, false, f.stop.target, e.parent);
      assert false;
    }
  }

  lemma SpawnKeepsSubtree(f: Fence, e: Step)
    requires Inv(f) && (e.Spawn? || e.NewRoot? || e.SetStatus?) && Enabled(f, e)
    ensures Forest(Take(f, e).sessions, Take(f, e).rank) && Rooted(Take(f, e).sessions)
    ensures !f.stop.Idle? ==> Below(Take(f, e), f.stop.target) == Below(f, f.stop.target)
  {
    var f' := Take(f, e);
    SessionStepKeepsForest(f, e);
    if !f.stop.Idle? {
      var target := f.stop.target;
      if e.Spawn? { SpawnIsElsewhere(f, e); }
      forall x | x in f'.sessions
        ensures Descends(f'.sessions, f'.rank, false, target, x) <==> x in Below(f, target)
      {
        if x in f.sessions {
          GrowthKeepsDescent(f, f', target, x);
        } else if e.Spawn? {
          GrowthKeepsDescent(f, f', target, e.parent);
        }
      }
    }
  }

  lemma LedgerStepKeepsInv(f: Fence, e: Step)
    requires Inv(f) && (e.Call? || e.StartInserts?) && Enabled(f, e)
    ensures Inv(Take(f, e))
  {
    var f' := Take(f, e);
    if !f.stop.Idle? && !f.stop.Entered? {
      if e.Call? {
        NonInsertAddsNoRunning(f.ledger, e.op, f.stop.ids);
      } else if OwnerMatches(f.sessions, e.row.session, e.row.root) {
        FencedInsertStaysOutside(f, e);
        assert RunningOf(f'.ledger, f.stop.ids) <= RunningOf(f.ledger, f.stop.ids);
      }
    }
  }

  lemma SessionStepKeepsInv(f: Fence, e: Step)
    requires Inv(f) && (e.Spawn? || e.NewRoot? || e.SetStatus?) && Enabled(f, e)
    ensures Inv(Take(f, e))
  {
    SpawnKeepsSubtree(f, e);
    var f' := Take(f, e);
    forall id | id in f.sessions ensures id in f'.sessions && RootOf(f'.sessions, id) == RootOf(f.sessions, id) {}
  }

  lemma OtherStepKeepsInv(f: Fence, e: Step)
    requires Inv(f) && Enabled(f, e) && !e.Call? && !e.StartInserts? && !e.Spawn? && !e.NewRoot? && !e.SetStatus?
    ensures Inv(Take(f, e))
  {
    var f' := Take(f, e);
    if e.StopPolls? { assert RunningOf(f.ledger, f.stop.ids) <= f.stop.pending || f.stop.failed; }
  }

  lemma StepKeepsInv(f: Fence, e: Step)
    requires Inv(f) && Enabled(f, e)
    ensures Inv(Take(f, e))
  {
    if e.Call? || e.StartInserts? { LedgerStepKeepsInv(f, e); }
    else if e.Spawn? || e.NewRoot? || e.SetStatus? { SessionStepKeepsInv(f, e); }
    else { OtherStepKeepsInv(f, e); }
  }

  /** A run: each state follows from the one before it by an enabled step. */
  ghost predicate IsRun(states: seq<Fence>, steps: seq<Step>) {
    && |states| == |steps| + 1 && states[0] == EMPTY_FENCE
    && forall i | 0 <= i < |steps| ::
         Forest(states[i].sessions, states[i].rank) && Enabled(states[i], steps[i])
           && states[i + 1] == Take(states[i], steps[i])
  }

  lemma {:induction false} InvOverRuns(states: seq<Fence>, steps: seq<Step>, i: nat)
    requires IsRun(states, steps) && i < |states|
    ensures Inv(states[i])
  {
    if i > 0 {
      InvOverRuns(states, steps, i - 1);
      StepKeepsInv(states[i - 1], steps[i - 1]);
    }
  }

  /** When the cancellation of a tree stop returns without error, no running process belongs
      to any session of the stopped subtree, whatever ran in between. */
  lemma StopLeavesNoRunningProcess(states: seq<Fence>, steps: seq<Step>, i: nat, id: ProcessId)
    requires IsRun(states, steps) && i < |states| && states[i].stop.Returned? && states[i].stop.ok
    requires id in states[i].ledger.rows && states[i].ledger.rows[id].state == Running
    ensures Forest(states[i].sessions, states[i].rank)
    ensures !Descends(states[i].sessions, states[i].rank, false, states[i].stop.target,
      states[i].ledger.rows[id].session)
  {
    InvOverRuns(states, steps, i);
    var f := states[i];
    assert id !in RunningOf(f.ledger, f.stop.ids);
  }

  // ----- only a start that found its root live inserts -----

  /** At step `j` the start `tok` checked its root and found it neither stopping, terminating nor killed. */
  predicate FoundLive(states: seq<Fence>, steps: seq<Step>, j: nat, tok: nat) {
    && j < |steps| && j < |states| && steps[j] == StartChecks(tok) && tok in states[j].starters
    && states[j].starters[tok].root in states[j].sessions
    && var root := states[j].sessions[states[j].starters[tok].root];
       root.status != Stopping && root.status != Terminating && !root.killed
  }

  /** A check admits exactly such a start. */
  lemma CheckAdmitsExactlyLive(states: seq<Fence>, steps: seq<Step>, j: nat, tok: nat)
    requires IsRun(states, steps) && j < |steps| && steps[j] == StartChecks(tok)
    ensures tok in states[j + 1].starters
    ensures states[j + 1].starters[tok].pc == Admitted <==> FoundLive(states, steps, j, tok)
    ensures states[j + 1].starters[tok].pc == Finished <==> !FoundLive(states, steps, j, tok)
  {}

  lemma AdmittedSince(f: Fence, e: Step, tok: nat)
    requires Forest(f.sessions, f.rank) && Enabled(f, e)
    requires tok in Take(f, e).starters && Take(f, e).starters[tok].pc == Admitted && e != StartChecks(tok)
    ensures tok in f.starters && f.starters[tok] == Take(f, e).starters[tok]
  {}

  /** Over every run: a start that is about to insert has found its root live, and has held on since. */
  lemma {:induction false} InserterFoundLive(states: seq<Fence>, steps: seq<Step>, i: nat, tok: nat) returns (j: nat)
    requires IsRun(states, steps) && i < |states| && tok in states[i].starters && states[i].starters[tok].pc == Admitted
    ensures j < i && FoundLive(states, steps, j, tok)
    ensures states[j].starters[tok].root == states[i].starters[tok].root
  {
    if steps[i - 1] == StartChecks(tok) {
      j := i - 1;
      CheckAdmitsExactlyLive(states, steps, j, tok);
    } else {
      AdmittedSince(states[i - 1], steps[i - 1], tok);
      j := InserterFoundLive(states, steps, i - 1, tok);
    }
  }
}
