/** The session table under every writer: creation, kills, lifecycle fences, tree stops that mark
    one session at a time under their tree's lock, crashes, and all other status writes. In every
    table a run can reach, no stop is hidden from boot recovery. */
module StoredStops {
  import opened SessionForest
  import F = TreeFence

  /** `left` holds, for each tree whose lock a stop holds, the planned sessions it has yet to mark. */
  datatype Store = Store(all: Sessions, rank: map<int, nat>, left: map<int, set<int>>)

  datatype Step =
    | NewRoot(root: int)
    | Spawn(child: int, parent: int)
    | Kill(id: int)
    | FenceStop(id: int)
    | PlanStop(target: int, running: set<int>, open: set<int>)
    | MarkNext(key: int, id: int)
    | Unlock(key: int)
    | Crash
    | WriteStatus(id: int, status: Status)

  /** The statuses a lifecycle command may fence. */
  predicate Fenceable(s: Status) { s == Active || s == Completed || s == Suspended || s == Errored || s == Stopped }

  ghost predicate Enabled(s: Store, e: Step)
    requires Forest(s.all, s.rank)
  {
    match e
    case NewRoot(root) => root !in s.all && root != 0
    case Spawn(child, parent) => child !in s.all && child != 0 && parent in s.all
    // A child is killed under its tree's lock; a root whose launch failed is killed without it.
    case Kill(id) => id in s.all && (s.all[id].parent == 0 || RootOf(s.all, id) !in s.left)
    case FenceStop(id) => id in s.all && !s.all[id].killed && Fenceable(s.all[id].status)
    // A stop is asked for by a fenced command, by boot for a stopping session, or for a budget's root.
    case PlanStop(target, _, _) =>
      && target in s.all && RootOf(s.all, target) !in s.left
      && (!s.all[target].killed || s.all[target].status == Stopping || s.all[target].parent == 0)
    case MarkNext(key, id) => key in s.left && id in s.left[key] && id in s.all
    case Unlock(key) => key in s.left
    case Crash => true
    case WriteStatus(id, status) => id in s.all && status != Stopping
  }

  ghost function Take(s: Store, e: Step): Store
    requires Forest(s.all, s.rank) && Enabled(s, e)
  {
    match e
    case NewRoot(root) => s.(all := s.all[root := Session(0, 0, false, Active)], rank := s.rank[root := 0])
    case Spawn(child, parent) =>
      s.(all := s.all[child := Session(parent, RootOf(s.all, parent), false, Active)],
         rank := s.rank[child := s.rank[parent] + 1])
    case Kill(id) => s.(all := s.all[id := s.all[id].(killed := true, status := Killed)])
    case FenceStop(id) => s.(all := s.all[id := s.all[id].(status := Stopping)])
    case PlanStop(target, running, open) =>
      s.(left := s.left[RootOf(s.all, target) := set x | x in s.all
        && Covered(s.all, s.rank, target, running, open, x)])
    case MarkNext(key, id) =>
      s.(all := s.all[id := s.all[id].(status := Stopping)], left := s.left[key := s.left[key] - {id}])
    case Unlock(key) => s.(left := s.left - {key})
    case Crash => s.(left := map[])
    case WriteStatus(id, status) => s.(all := s.all[id := s.all[id].(status := status)])
  }

  const EMPTY_STORE := Store(map[], map[], map[])

  // ----- what every step keeps -----

  /** A planned session is still one a stop may mark: kills wait for the tree's lock. */
  predicate PlansStand(s: Store) {
    forall key, x | key in s.left && x in s.left[key] :: StopTarget(s.all, x) && RootOf(s.all, x) == key
  }

  ghost predicate Inv(s: Store) {
    Forest(s.all, s.rank) && F.Rooted(s.all) && Storable(s.all) && PlansStand(s)
  }

  lemma StepKeepsForest(s: Store, e: Step)
    requires Forest(s.all, s.rank) && F.Rooted(s.all) && Enabled(s, e)
    ensures Forest(Take(s, e).all, Take(s, e).rank) && F.Rooted(Take(s, e).all)
  {
    match e
    case NewRoot(root) => F.RootKeepsForest(s.all, s.rank, root);
    case Spawn(child, parent) => F.ChildKeepsForest(s.all, s.rank, child, parent);
    case Kill(id) => F.StatusKeepsForest(s.all, s.rank, id, true, Killed);
    case FenceStop(id) => F.StatusKeepsForest(s.all, s.rank, id, s.all[id].killed, Stopping);
    case MarkNext(_, id) => F.StatusKeepsForest(s.all, s.rank, id, s.all[id].killed, Stopping);
    case WriteStatus(id, status) => F.StatusKeepsForest(s.all, s.rank, id, s.all[id].killed, status);
    case _ =>
  }

  lemma StepKeepsStorable(s: Store, e: Step)
    requires Inv(s) && Enabled(s, e)
    ensures Storable(Take(s, e).all)
  {
    var after := Take(s, e).all;
    forall x | x in after && IsStopping(after, x) ensures StopTarget(after, x) {
      assert x in s.all ==> (IsStopping(s.all, x) ==> StopTarget(s.all, x));
      if e.MarkNext? { assert StopTarget(s.all, e.id); }
    }
  }

  /** A stop's plan holds its target and otherwise only sessions that live. */
  lemma PlanIsLive(s: Store, e: Step, x: int)
    requires Inv(s) && e.PlanStop? && Enabled(s, e) && Covered(s.all, s.rank, e.target, e.running, e.open, x)
    ensures StopTarget(s.all, x) && RootOf(s.all, x) == RootOf(s.all, e.target)
  {
    if x == e.target { assert IsStopping(s.all, x) ==> StopTarget(s.all, x); }
  }

  lemma StepKeepsPlans(s: Store, e: Step)
    requires Inv(s) && Enabled(s, e)
    ensures PlansStand(Take(s, e))
  {
    var s' := Take(s, e);
    forall key, x | key in s'.left && x in s'.left[key] ensures StopTarget(s'.all, x) && RootOf(s'.all, x) == key {
      if e.PlanStop? && key == RootOf(s.all, e.target) {
        PlanIsLive(s, e, x);
      } else {
        assert StopTarget(s.all, x) && RootOf(s.all, x) == key;
      }
    }
  }

  /** A run: each state follows from the one before it by an enabled step. */
  ghost predicate IsRun(states: seq<Store>, steps: seq<Step>) {
    && |states| == |steps| + 1 && states[0] == EMPTY_STORE
    && forall i | 0 <= i < |steps| ::
         Forest(states[i].all, states[i].rank) && Enabled(states[i], steps[i])
           && states[i + 1] == Take(states[i], steps[i])
  }

  lemma {:induction false} InvOverRuns(states: seq<Store>, steps: seq<Step>, i: nat)
    requires IsRun(states, steps) && i < |states|
    ensures Inv(states[i])
  {
    if i > 0 {
      InvOverRuns(states, steps, i - 1);
      StepKeepsForest(states[i - 1], steps[i - 1]);
      StepKeepsStorable(states[i - 1], steps[i - 1]);
      StepKeepsPlans(states[i - 1], steps[i - 1]);
    }
  }

  // ----- what the writers write -----

  /** Marking the given sessions one after another, with nobody else writing. */
  ghost predicate MarksTo(ids: seq<int>, s: Store, key: int, t: Store)
    decreases |ids|
  {
    && Forest(s.all, s.rank)
    && if ids == [] then s == t
       else Enabled(s, MarkNext(key, ids[0])) && MarksTo(ids[1..], Take(s, MarkNext(key, ids[0])), key, t)
  }

  /** The table with the given sessions stopping. */
  function WithStopping(all: Sessions, ids: set<int>): Sessions {
    map id | id in all :: if id in ids then all[id].(status := Stopping) else all[id]
  }

  lemma MarkOne(s: Store, key: int, id: int)
    requires Inv(s) && key in s.left && id in s.left[key]
    ensures
      && Enabled(s, MarkNext(key, id)) && var m := Take(s, MarkNext(key, id));
      && Inv(m) && key in m.left && m.left[key] == s.left[key] - {id}
      && WithStopping(m.all, m.left[key]) == WithStopping(s.all, s.left[key])
  {
    assert StopTarget(s.all, id);
    StepKeepsForest(s, MarkNext(key, id));
    StepKeepsStorable(s, MarkNext(key, id));
    StepKeepsPlans(s, MarkNext(key, id));
  }

  /** A stop can mark its whole plan, and when it has, exactly the planned sessions are stopping that
      were not before. */
  lemma {:induction false} PlanIsMarked(s: Store, key: int, plan: set<int>) returns (ids: seq<int>, t: Store)
    requires Inv(s) && key in s.left && plan == s.left[key]
    ensures MarksTo(ids, s, key, t) && key in t.left && t.left[key] == {}
    ensures t.all == WithStopping(s.all, plan)
    decreases |plan|
  {
    if plan == {} {
      ids, t := [], s;
      NothingPlanned(s.all);
    } else {
      var id := AnyOf(plan);
      MarkOne(s, key, id);
      var m := Take(s, MarkNext(key, id));
      ids, t := PlanIsMarked(m, key, plan - {id});
      MarksBefore(ids, s, key, id, m, t);
      ids := [id] + ids;
    }
  }

  lemma NothingPlanned(all: Sessions)
    ensures WithStopping(all, {}) == all
  {}

  lemma MarksBefore(ids: seq<int>, s: Store, key: int, id: int, m: Store, t: Store)
    requires Forest(s.all, s.rank) && Enabled(s, MarkNext(key, id)) && m == Take(s, MarkNext(key, id))
    requires MarksTo(ids, m, key, t)
    ensures MarksTo([id] + ids, s, key, t)
  {
    assert ([id] + ids)[1..] == ids;
  }

  lemma AnyOf(ids: set<int>) returns (id: int)
    requires ids != {}
    ensures id in ids
  {
    if forall x :: x !in ids { assert false; }
    id :| id in ids;
  }

  /** A stop plans what its plan covers, gives its tree's lock back and loses its plan in a crash. */
  lemma PlanLasts(s: Store, target: int, running: set<int>, open: set<int>)
    requires Inv(s) && Enabled(s, PlanStop(target, running, open))
    ensures
      var p, key := Take(s, PlanStop(target, running, open)), RootOf(s.all, target);
      && p.all == s.all && key in p.left
      && (forall x :: x in p.left[key] <==> x in s.all && Covered(s.all, s.rank, target, running, open, x))
      && Forest(p.all, p.rank) && Enabled(p, Unlock(key)) && Take(p, Unlock(key)).left == s.left
      && Take(p, Crash).left == map[]
  {
    assert Take(s, PlanStop(target, running, open)).left - {RootOf(s.all, target)} == s.left;
  }

  /** A command fences every session that is not killed and is not already stopping or ending. */
  lemma FenceExactly(s: Store, id: int)
    requires Inv(s)
    ensures Enabled(s, FenceStop(id)) <==>
      id in s.all && !s.all[id].killed && s.all[id].status !in {Stopping, Terminating, Killed}
    ensures Enabled(s, FenceStop(id)) ==> Take(s, FenceStop(id)).all == WithStopping(s.all, {id})
  {}

  lemma KilledStep(s: Store, e: Step, id: int)
    requires Forest(s.all, s.rank) && Enabled(s, e) && id in s.all && (s.all[id].killed || e == Kill(id))
    ensures id in Take(s, e).all && Take(s, e).all[id].killed
  {}

  /** A killed session stays killed, and no run forgets a session. */
  lemma {:induction false} KilledForGood(states: seq<Store>, steps: seq<Step>, j: nat, id: int, i: nat)
    requires IsRun(states, steps) && j < i < |states| && steps[j] == Kill(id)
    ensures id in states[i].all && states[i].all[id].killed
    decreases i
  {
    if j + 1 < i { KilledForGood(states, steps, j, id, i - 1); }
    KilledStep(states[i - 1], steps[i - 1], id);
  }

  /** New sessions are active, not killed, and belong to their parent's tree. */
  lemma NewSessionIsActive(s: Store, id: int, parent: int)
    requires Inv(s) && id !in s.all && id != 0
    ensures Enabled(s, NewRoot(id)) && Take(s, NewRoot(id)).all == s.all[id := Session(0, 0, false, Active)]
    ensures parent in s.all ==>
      && Enabled(s, Spawn(id, parent)) && var t := Take(s, Spawn(id, parent)).all;
      && t.Keys == s.all.Keys + {id} && t[id].parent == parent && t[id].status == Active && !t[id].killed
      && t[id].root == (if s.all[parent].parent == 0 then parent else s.all[parent].root)
      && forall x | x in s.all :: t[x] == s.all[x]
  {}

  /** Every table the daemon can leave behind, at whatever crash, is one boot recovers in full. */
  lemma NoStopIsEverHidden(states: seq<Store>, steps: seq<Step>, i: nat)
    requires IsRun(states, steps) && i < |states|
    ensures Forest(states[i].all, states[i].rank) && Storable(states[i].all) && NoHiddenStop(states[i].all)
  {
    InvOverRuns(states, steps, i);
    StorableHidesNothing(states[i].all, states[i].rank);
  }

  /** So recovery of such a table that meets no store error leaves no session stopping. */
  method RecoverStoredTable(
    store: SessionStore, listing: seq<int>, owed: set<int>, scheduled: set<int>, open: set<int>,
    ghost states: seq<Store>, ghost steps: seq<Step>, ghost i: nat)
    returns (ok: bool)
    requires IsRun(states, steps) && i < |states| && store.all == states[i].all
    requires Distinct(listing) && Elements(listing) == store.all.Keys
    modifies store
    ensures SameShape(states[i].all, store.all) && Storable(store.all) && (!ok ==> store.accepts == 0)
    ensures ok ==> forall x | x in store.all :: store.all[x].status != Stopping
  {
    NoStopIsEverHidden(states, steps, i);
    ok := store.RecoverStoppingSessions(listing, owed, scheduled, open, states[i].rank);
  }
}
