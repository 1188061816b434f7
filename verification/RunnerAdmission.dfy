/** Session-runner admission: three caps, a waiting queue, and the actors that start, exit,
    drain and retry. Slots are conserved and, unless a direct start fails after it was
    admitted, no wake-up is lost. */
module RunnerAdmission {

  import opened Options

  const MAX_TOTAL := 16
  const MAX_CHILDREN := 12
  const MAX_PER_PARENT := 8

  datatype Waiting = Waiting(session: int, parent: int, child: bool)

  datatype Runner = Runner(parent: int, child: bool)

  datatype RunnerSet = RunnerSet(
    byId: map<int, Runner>, closed: bool, running: int, children: int, perParent: map<int, int>,
    waiting: seq<Waiting>, retrying: bool)

  const EMPTY_SET := RunnerSet(map[], false, 0, 0, map[], [], false)

  function Get(m: map<int, int>, k: int): int { if k in m then m[k] else 0 }

  predicate CanAdmit(s: RunnerSet, child: bool, parent: int) {
    !s.closed && s.running < MAX_TOTAL
      && (!child || (s.children < MAX_CHILDREN && Get(s.perParent, parent) < MAX_PER_PARENT))
  }

  predicate Admissible(s: RunnerSet, w: Waiting) { CanAdmit(s, w.child, w.parent) }

  predicate HasAdmissible(s: RunnerSet) { exists i | 0 <= i < |s.waiting| :: Admissible(s, s.waiting[i]) }

  function Admit(s: RunnerSet, child: bool, parent: int): RunnerSet {
    var t := s.(running := s.running + 1);
    if child then t.(children := s.children + 1, perParent := s.perParent[parent := Get(s.perParent, parent) + 1])
      else t
  }

  function Release(s: RunnerSet, child: bool, parent: int): RunnerSet {
    var t := s.(running := s.running - 1);
    if !child then t else
    var left := Get(s.perParent, parent) - 1;
    t.(children := s.children - 1,
      perParent := if left == 0 then s.perParent - {parent} else s.perParent[parent := left])
  }

  predicate IsQueued(s: RunnerSet, session: int) { exists i | 0 <= i < |s.waiting| :: s.waiting[i].session == session }

  function Wait(s: RunnerSet, w: Waiting): RunnerSet {
    if !s.closed && !IsQueued(s, w.session) then s.(waiting := s.waiting + [w]) else s
  }

  function Without(q: seq<Waiting>, i: nat): seq<Waiting>
    requires i < |q|
  {
    q[..i] + q[i + 1..]
  }

  predicate FirstAdmissible(s: RunnerSet, i: nat) {
    i < |s.waiting| && Admissible(s, s.waiting[i]) && forall k | 0 <= k < i :: !Admissible(s, s.waiting[k])
  }

  function Kept(q: seq<Waiting>, ids: set<int>): seq<Waiting> {
    if q == [] then [] else (if q[0].session in ids then [] else [q[0]]) + Kept(q[1..], ids)
  }

  // ----- the imperative set -----

  class Runners {
    var byId: map<int, Runner>
    var closed: bool
    var running: int
    var children: int
    var perParent: map<int, int>
    var waiting: seq<Waiting>
    var retrying: bool

    constructor ()
      ensures View() == EMPTY_SET
    {
      byId, closed, running, children, perParent, waiting, retrying := map[], false, 0, 0, map[], [], false;
    }

    function View(): RunnerSet reads this {
      RunnerSet(byId, closed, running, children, perParent, waiting, retrying)
    }

    method Register(id: int, r: Runner) returns (registered: bool)
      modifies this`byId
      ensures registered <==> !closed && id !in old(byId)
      ensures byId == if registered then old(byId)[id := r] else old(byId)
    {
      if id in byId || closed { return false; }
      byId := byId[id := r];
      return true;
    }

    method Remove(id: int)
      modifies this
      ensures View() == if id !in old(byId) then old(View())
        else Release(old(View()).(byId := old(byId) - {id}), old(byId)[id].child, old(byId)[id].parent)
    {
      if id in byId {
        var r := byId[id];
        byId := byId - {id};
        ReleaseSlot(r.child, r.parent);
      }
    }

    method TryAdmit(child: bool, parent: int) returns (ok: bool)
      modifies this
      ensures ok <==> CanAdmit(old(View()), child, parent)
      ensures View() == if ok then Admit(old(View()), child, parent) else old(View())
    {
      ok := CanAdmit(View(), child, parent);
      if !ok { return; }
      running := running + 1;
      if child {
        children := children + 1;
        perParent := perParent[parent := Get(perParent, parent) + 1];
      }
    }

    method ReleaseSlot(child: bool, parent: int)
      modifies this
      ensures View() == Release(old(View()), child, parent)
    {
      running := running - 1;
      if child {
        children := children - 1;
        perParent := perParent[parent := Get(perParent, parent) - 1];
        if perParent[parent] == 0 {
          assert perParent - {parent} == old(perParent) - {parent};
          perParent := perParent - {parent};
        }
      }
    }

    method Enqueue(w: Waiting)
      modifies this`waiting
      ensures View() == Wait(old(View()), w)
    {
      var present := false;
      for i := 0 to |waiting|
        invariant present <==> exists k | 0 <= k < i :: waiting[k].session == w.session
      {
        present := present || waiting[i].session == w.session;
      }
      if !closed && !present { waiting := waiting + [w]; }
    }

    /** Takes the oldest queued runner that fits now. */
    method NextAdmissible() returns (w: Waiting, ok: bool)
      modifies this`waiting
      ensures ok <==> HasAdmissible(old(View()))
      ensures !ok ==> waiting == old(waiting)
      ensures ok ==> exists i: nat ::
        FirstAdmissible(old(View()), i) && w == old(waiting)[i] && waiting == Without(old(waiting), i)
    {
      var i := 0;
      w, ok := Waiting(0, 0, false), false;
      while i < |waiting|
        invariant 0 <= i <= |waiting| && waiting == old(waiting) && !ok
        invariant forall k | 0 <= k < i :: !Admissible(View(), waiting[k])
      {
        if CanAdmit(View(), waiting[i].child, waiting[i].parent) {
          assert FirstAdmissible(old(View()), i);
          w, ok := waiting[i], true;
          waiting := waiting[..i] + waiting[i + 1..];
          return;
        }
        i := i + 1;
      }
    }

    method Forget(ids: set<int>)
      modifies this`waiting
      ensures waiting == Kept(old(waiting), ids)
    {
      var kept: seq<Waiting> := [];
      var i := 0;
      while i < |waiting|
        invariant 0 <= i <= |waiting| && waiting == old(waiting)
        invariant kept + Kept(waiting[i..], ids) == Kept(waiting, ids)
      {
        assert waiting[i..][0] == waiting[i] && waiting[i..][1..] == waiting[i + 1..];
        if waiting[i].session !in ids { kept := kept + [waiting[i]]; }
        i := i + 1;
      }
      waiting := kept;
    }

    method ScheduleRetry() returns (scheduled: bool)
      modifies this`retrying
      ensures scheduled <==> !closed && !old(retrying)
      ensures retrying == (old(retrying) || scheduled)
    {
      if closed || retrying { return false; }
      retrying := true;
      return true;
    }
  }

  // ----- the machine of actors -----

  /** `drain` tells a start made by a draining actor from a direct one. */
  datatype Pc =
    | Popping
    | Popped(w: Waiting)
    | Trying(w: Waiting, drain: bool)
    | NoRoom(w: Waiting, drain: bool)
    | Queued(w: Waiting, drain: bool)
    | Admitted(w: Waiting, drain: bool)
    | Failed(w: Waiting)
    | NeedsRetry
    | RetryArmed
    | OwesDrain

  /** `blocking` says of every known session whether it is a foreground child. */
  datatype System = System(runners: RunnerSet, lifeClosed: bool, blocking: map<int, bool>, actors: map<nat, Pc>)

  const BOOT := System(EMPTY_SET, false, map[], map[])

  datatype Step =
    | Create(session: int, blocking: bool)
    | Unblock(session: int)
    | BeginStart(tok: nat, w: Waiting)
    | EnterStart(tok: nat)
    | ReturnEarly(tok: nat)
    | FailEarly(tok: nat)
    | TryAdmit(tok: nat)
    | Defer(tok: nat)
    | Recheck(tok: nat, spawned: nat)
    | Register(tok: nat)
    | FailAdmitted(tok: nat)
    | Requeue(tok: nat)
    | ScheduleRetry(tok: nat)
    | RetryFires(tok: nat)
    | RetryCancelled(tok: nat)
    | Pop(tok: nat, i: nat)
    | PopNone(tok: nat)
    | RunnerRemoved(tok: nat, session: int)
    | StartDrain(tok: nat)
    | ForgetQueued(ids: set<int>)
    | CloseLife
    | CloseSet

  /** Holding the session's tree lock, from the registration check to the end of the start. */
  predicate InStart(pc: Pc) { pc.Trying? || pc.NoRoom? || pc.Queued? || pc.Admitted? }

  predicate Busy(s: System, session: int) {
    exists t :: t in s.actors && InStart(s.actors[t]) && s.actors[t].w.session == session
  }

  /** `directMayFail`: whether a start outside `drain` can fail between admission and
      registration while the daemon is up (its project's directory cannot be resolved). */
  predicate Enabled(s: System, e: Step, directMayFail: bool) {
    match e
    case Create(session, _) => session !in s.blocking
    case Unblock(session) => session in s.blocking
    case BeginStart(tok, w) => tok !in s.actors && w.session in s.blocking && !Busy(s, w.session)
    case EnterStart(tok) => tok in s.actors && s.actors[tok].Popped? && !Busy(s, s.actors[tok].w.session)
    case ReturnEarly(tok) => tok in s.actors && s.actors[tok].Trying?
    case FailEarly(tok) => tok in s.actors && s.actors[tok].Trying?
    case TryAdmit(tok) => tok in s.actors && s.actors[tok].Trying? && s.actors[tok].w.session !in s.runners.byId
    case Defer(tok) => tok in s.actors && s.actors[tok].NoRoom? && s.actors[tok].w.session in s.blocking
    case Recheck(tok, spawned) => tok in s.actors && s.actors[tok].Queued? && spawned !in s.actors
    case Register(tok) =>
      tok in s.actors && s.actors[tok].Admitted? && !s.runners.closed && s.actors[tok].w.session !in s.runners.byId
    case FailAdmitted(tok) => tok in s.actors && s.actors[tok].Admitted?
      && (directMayFail || s.actors[tok].drain || s.lifeClosed)
    case Requeue(tok) => tok in s.actors && s.actors[tok].Failed?
    case ScheduleRetry(tok) => tok in s.actors && s.actors[tok].NeedsRetry?
    case RetryFires(tok) => tok in s.actors && s.actors[tok].RetryArmed?
    case RetryCancelled(tok) => tok in s.actors && s.actors[tok].RetryArmed? && s.lifeClosed
    case Pop(tok, i) => tok in s.actors && s.actors[tok].Popping? && FirstAdmissible(s.runners, i)
    case PopNone(tok) => tok in s.actors && s.actors[tok].Popping? && !HasAdmissible(s.runners)
    case RunnerRemoved(tok, session) => tok !in s.actors && session in s.runners.byId
    case StartDrain(tok) => tok in s.actors && s.actors[tok].OwesDrain?
    case ForgetQueued(_) => true
    case CloseLife => true
    case CloseSet => s.lifeClosed
  }

  function Go(s: System, tok: nat, pc: Pc): System { s.(actors := s.actors[tok := pc]) }

  function End(s: System, tok: nat): System { s.(actors := s.actors - {tok}) }

  /** A start that returns without error: a drain goes on to its next runner. */
  function ReturnOk(s: System, tok: nat, drain: bool): System { if drain then Go(s, tok, Popping) else End(s, tok) }

  function ReturnError(s: System, tok: nat, w: Waiting, drain: bool): System {
    if drain then Go(s, tok, Failed(w)) else End(s, tok)
  }

  function Take(s: System, e: Step): System
    requires Enabled(s, e, true)
  {
    var r := s.runners;
    match e
    case Create(session, blocking) => s.(blocking := s.blocking[session := blocking])
    case Unblock(session) => s.(blocking := s.blocking[session := false])
    case BeginStart(tok, w) => Go(s, tok, Trying(w, false))
    case EnterStart(tok) => Go(s, tok, Trying(s.actors[tok].w, true))
    case ReturnEarly(tok) => ReturnOk(s, tok, s.actors[tok].drain)
    case FailEarly(tok) => ReturnError(s, tok, s.actors[tok].w, s.actors[tok].drain)
    case TryAdmit(tok) =>
      var w, drain := s.actors[tok].w, s.actors[tok].drain;
      if Admissible(r, w) then Go(s.(runners := Admit(r, w.child, w.parent)), tok, Admitted(w, drain))
      else Go(s, tok, NoRoom(w, drain))
    case Defer(tok) =>
      var w, drain := s.actors[tok].w, s.actors[tok].drain;
      if !s.blocking[w.session] then Go(s.(runners := Wait(r, w)), tok, Queued(w, drain))
      else if drain then End(s.(runners := Wait(r, w)), tok)
      else End(s, tok)
    case Recheck(tok, spawned) =>
      var t := if HasAdmissible(r) && !s.lifeClosed then Go(s, spawned, Popping) else s;
      ReturnOk(t, tok, s.actors[tok].drain)
    case Register(tok) =>
      var w := s.actors[tok].w;
      ReturnOk(s.(runners := r.(byId := r.byId[w.session := Runner(w.parent, w.child)])), tok, s.actors[tok].drain)
    case FailAdmitted(tok) =>
      var w := s.actors[tok].w;
      ReturnError(s.(runners := Release(r, w.child, w.parent)), tok, w, s.actors[tok].drain)
    case Requeue(tok) => Go(s.(runners := Wait(r, s.actors[tok].w)), tok, NeedsRetry)
    case ScheduleRetry(tok) =>
      if r.closed || r.retrying then End(s, tok) else Go(s.(runners := r.(retrying := true)), tok, RetryArmed)
    case RetryFires(tok) => Go(s.(runners := r.(retrying := false)), tok, Popping)
    case RetryCancelled(tok) => End(s.(runners := r.(retrying := false)), tok)
    case Pop(tok, i) => Go(s.(runners := r.(waiting := Without(r.waiting, i))), tok, Popped(r.waiting[i]))
    case PopNone(tok) => End(s, tok)
    case RunnerRemoved(tok, session) =>
      var x := r.byId[session];
      Go(s.(runners := Release(r.(byId := r.byId - {session}), x.child, x.parent)), tok, OwesDrain)
    case StartDrain(tok) => if s.lifeClosed then End(s, tok) else Go(s, tok, Popping)
    case ForgetQueued(ids) => s.(runners := r.(waiting := Kept(r.waiting, ids)))
    case CloseLife => s.(lifeClosed := true)
    case CloseSet => s.(runners := r.(closed := true))
  }

  /** States reachable in `n` steps. */
  ghost predicate ReachedIn(n: nat, s: System, directMayFail: bool) {
    if n == 0 then s == BOOT
    else exists b: System, e: Step ::
      ReachedIn(n - 1, b, directMayFail) && Enabled(b, e, directMayFail) && s == Take(b, e)
  }

  ghost predicate Reachable(s: System, directMayFail: bool) { exists n: nat :: ReachedIn(n, s, directMayFail) }

  // ----- conservation of slots -----

  datatype Kind = Any | Child | ChildOf(parent: int)

  predicate Fits(k: Kind, child: bool, parent: int) {
    match k
    case Any => true
    case Child => child
    case ChildOf(p) => child && parent == p
  }

  function Registered(s: System, k: Kind): set<int> {
    set id | id in s.runners.byId && Fits(k, s.runners.byId[id].child, s.runners.byId[id].parent)
  }

  predicate HoldsSlot(pc: Pc, k: Kind) { pc.Admitted? && Fits(k, pc.w.child, pc.w.parent) }

  function InFlight(actors: map<nat, Pc>, k: Kind): set<nat> { set t | t in actors && HoldsSlot(actors[t], k) }

  function Slots(s: System, k: Kind): nat { |Registered(s, k)| + |InFlight(s.actors, k)| }

  function One(b: bool): int { if b then 1 else 0 }

  lemma PutActor(actors: map<nat, Pc>, t: nat, pc: Pc, k: Kind)
    ensures |InFlight(actors[t := pc], k)| ==
      |InFlight(actors, k)| - One(t in actors && HoldsSlot(actors[t], k)) + One(HoldsSlot(pc, k))
  {
    var before, after := InFlight(actors, k), InFlight(actors[t := pc], k);
    assert after - {t} == before - {t};
    assert t in after <==> HoldsSlot(pc, k);
    assert t in before <==> t in actors && HoldsSlot(actors[t], k);
    assert |after| == |after - {t}| + One(t in after);
    assert |before| == |before - {t}| + One(t in before);
  }

  lemma DropActor(actors: map<nat, Pc>, t: nat, k: Kind)
    ensures |InFlight(actors - {t}, k)| == |InFlight(actors, k)| - One(t in actors && HoldsSlot(actors[t], k))
  {
    var before, after := InFlight(actors, k), InFlight(actors - {t}, k);
    assert after == before - {t};
    assert t in before <==> t in actors && HoldsSlot(actors[t], k);
    assert |before| == |before - {t}| + One(t in before);
  }

  lemma PutRunner(s: System, id: int, r: Runner, k: Kind)
    requires id !in s.runners.byId
    ensures |Registered(s.(runners := s.runners.(byId := s.runners.byId[id := r])), k)| ==
      |Registered(s, k)| + One(Fits(k, r.child, r.parent))
  {
    var after := Registered(s.(runners := s.runners.(byId := s.runners.byId[id := r])), k);
    assert after - {id} == Registered(s, k) && (id in after <==> Fits(k, r.child, r.parent));
    assert |after| == |after - {id}| + One(id in after);
  }

  lemma DropRunner(s: System, id: int, k: Kind)
    requires id in s.runners.byId
    ensures |Registered(s.(runners := s.runners.(byId := s.runners.byId - {id})), k)| ==
      |Registered(s, k)| - One(Fits(k, s.runners.byId[id].child, s.runners.byId[id].parent))
  {
    var before := Registered(s, k);
    assert Registered(s.(runners := s.runners.(byId := s.runners.byId - {id})), k) == before - {id};
    assert id in before <==> Fits(k, s.runners.byId[id].child, s.runners.byId[id].parent);
    assert |before| == |before - {id}| + One(id in before);
  }

  function Counter(r: RunnerSet, k: Kind): int {
    match k
    case Any => r.running
    case Child => r.children
    case ChildOf(p) => Get(r.perParent, p)
  }

  function Cap(k: Kind): int {
    match k
    case Any => MAX_TOTAL
    case Child => MAX_CHILDREN
    case ChildOf(_) => MAX_PER_PARENT
  }

  predicate Balanced(s: System, k: Kind) { Counter(s.runners, k) == Slots(s, k) <= Cap(k) }

  /** The sum of a counter map. */
  ghost function Total(m: map<int, int>): int {
    if exists k :: k in m then var k :| k in m; m[k] + Total(m - {k}) else 0
  }

  lemma {:induction false} TotalSplit(m: map<int, int>, k: int)
    requires k in m
    ensures Total(m) == m[k] + Total(m - {k})
    decreases |m|
  {
    var j :| j in m && Total(m) == m[j] + Total(m - {j});
    if j != k {
      TotalSplit(m - {j}, k);
      TotalSplit(m - {k}, j);
      assert m - {j} - {k} == m - {k} - {j};
    }
  }

  lemma TotalPut(m: map<int, int>, k: int, v: int)
    ensures Total(m[k := v]) == Total(m) - Get(m, k) + v
  {
    TotalSplit(m[k := v], k);
    if k in m {
      TotalSplit(m, k);
      assert m[k := v] - {k} == m - {k};
    } else {
      assert m[k := v] - {k} == m;
    }
  }

  predicate QueueOk(s: System) {
    && (forall i, j | 0 <= i < j < |s.runners.waiting| :: s.runners.waiting[i].session != s.runners.waiting[j].session)
    && (forall i | 0 <= i < |s.runners.waiting| :: Background(s, s.runners.waiting[i].session))
  }

  predicate Background(s: System, session: int) { session in s.blocking && !s.blocking[session] }

  /** A drain only handles runners it took from the queue, so never a foreground child. */
  predicate ActorOk(s: System, pc: Pc) {
    && (pc.Popped? || pc.Failed? || (InStart(pc) && pc.drain) ==> Background(s, pc.w.session))
    && (InStart(pc) ==> pc.w.session in s.blocking)
    && (pc.Admitted? ==> pc.w.session !in s.runners.byId)
  }

  predicate ActorsOk(s: System) {
    && (forall t | t in s.actors :: ActorOk(s, s.actors[t]))
    && (forall t, u | t in s.actors && u in s.actors && t != u && InStart(s.actors[t]) && InStart(s.actors[u]) ::
          s.actors[t].w.session != s.actors[u].w.session)
    && (s.runners.closed ==> s.lifeClosed)
    && (s.runners.retrying ==> s.lifeClosed || exists t :: t in s.actors && s.actors[t].RetryArmed?)
  }

  ghost predicate SlotsOk(s: System) {
    && (forall k: Kind :: Balanced(s, k))
    && Total(s.runners.perParent) == s.runners.children
    && (forall p | p in s.runners.perParent :: s.runners.perParent[p] > 0)
  }

  ghost predicate Inv(s: System) { SlotsOk(s) && QueueOk(s) && ActorsOk(s) }

  // ----- every step keeps the invariant -----

  /** `t` differs from `s` by one actor that holds no slot before or after. */
  predicate QuietChange(s: System, t: System, tok: nat) {
    && t.runners.byId == s.runners.byId && t.runners.running == s.runners.running
    && t.runners.children == s.runners.children && t.runners.perParent == s.runners.perParent
    && (|| t.actors == s.actors
        || (tok in s.actors && !s.actors[tok].Admitted? && t.actors == s.actors - {tok})
        || ((tok in s.actors ==> !s.actors[tok].Admitted?) && tok in t.actors && !t.actors[tok].Admitted?
          && t.actors == s.actors[tok := t.actors[tok]]))
  }

  lemma QuietChangeKeepsSlots(s: System, t: System, tok: nat)
    requires SlotsOk(s) && QuietChange(s, t, tok)
    ensures SlotsOk(t)
  {
    forall k: Kind ensures Balanced(t, k) {
      assert Balanced(s, k);
      assert Registered(t, k) == Registered(s, k);
      DropActor(s.actors, tok, k);
      if tok in t.actors { PutActor(s.actors, tok, t.actors[tok], k); }
    }
  }

  lemma AdmitKeepsSlots(s: System, tok: nat, w: Waiting, drain: bool)
    requires SlotsOk(s) && Admissible(s.runners, w) && tok in s.actors && !s.actors[tok].Admitted?
    ensures SlotsOk(Go(s.(runners := Admit(s.runners, w.child, w.parent)), tok, Admitted(w, drain)))
  {
    var t := Go(s.(runners := Admit(s.runners, w.child, w.parent)), tok, Admitted(w, drain));
    forall k: Kind ensures Balanced(t, k) {
      assert Balanced(s, k);
      assert Registered(t, k) == Registered(s, k);
      PutActor(s.actors, tok, Admitted(w, drain), k);
    }
    if w.child { TotalPut(s.runners.perParent, w.parent, Get(s.runners.perParent, w.parent) + 1); }
  }

  lemma ReleaseCounters(s: System, r: RunnerSet, child: bool, parent: int)
    requires SlotsOk(s) && r.running == s.runners.running && r.children == s.runners.children
      && r.perParent == s.runners.perParent
    requires Slots(s, Any) > 0 && (child ==> Slots(s, ChildOf(parent)) > 0)
    ensures
      var t := Release(r, child, parent);
      && (forall k :: Counter(t, k) == Counter(s.runners, k) - One(Fits(k, child, parent)))
      && Total(t.perParent) == t.children
      && (forall p | p in t.perParent :: t.perParent[p] > 0)
  {
    if child {
      assert Balanced(s, ChildOf(parent));
      var left := Get(r.perParent, parent) - 1;
      TotalSplit(r.perParent, parent);
      TotalPut(r.perParent, parent, left);
    }
  }

  lemma FailAdmittedKeepsSlots(s: System, tok: nat, pc: Option<Pc>)
    requires SlotsOk(s) && tok in s.actors && s.actors[tok].Admitted?
    requires pc.Some? ==> !pc.value.Admitted?
    ensures
      var w, r := s.actors[tok].w, s.runners;
      var t := s.(runners := Release(r, w.child, w.parent));
      SlotsOk(if pc.Some? then Go(t, tok, pc.value) else End(t, tok))
  {
    var w := s.actors[tok].w;
    assert tok in InFlight(s.actors, Any);
    if w.child { assert tok in InFlight(s.actors, ChildOf(w.parent)); }
    ReleaseCounters(s, s.runners, w.child, w.parent);
    var t := s.(runners := Release(s.runners, w.child, w.parent));
    var u := if pc.Some? then Go(t, tok, pc.value) else End(t, tok);
    forall k: Kind ensures Balanced(u, k) {
      assert Balanced(s, k);
      assert Registered(u, k) == Registered(s, k);
      DropActor(s.actors, tok, k);
      if pc.Some? { PutActor(s.actors, tok, pc.value, k); }
    }
  }

  lemma RegisterKeepsSlots(s: System, tok: nat)
    requires SlotsOk(s) && tok in s.actors && s.actors[tok].Admitted? && s.actors[tok].w.session !in s.runners.byId
    ensures
      var w, r := s.actors[tok].w, s.runners;
      SlotsOk(ReturnOk(s.(runners := r.(byId := r.byId[w.session := Runner(w.parent, w.child)])), tok,
        s.actors[tok].drain))
  {
    var w, r := s.actors[tok].w, s.runners;
    var t := s.(runners := r.(byId := r.byId[w.session := Runner(w.parent, w.child)]));
    var u := ReturnOk(t, tok, s.actors[tok].drain);
    forall k: Kind ensures Balanced(u, k) {
      assert Balanced(s, k);
      PutRunner(s, w.session, Runner(w.parent, w.child), k);
      assert Registered(u, k) == Registered(t, k);
      DropActor(s.actors, tok, k);
      PutActor(s.actors, tok, Popping, k);
    }
  }

  lemma RemoveKeepsSlots(s: System, session: int)
    requires SlotsOk(s) && session in s.runners.byId
    ensures
      var r, x := s.runners, s.runners.byId[session];
      SlotsOk(s.(runners := Release(r.(byId := r.byId - {session}), x.child, x.parent)))
  {
    var r, x := s.runners, s.runners.byId[session];
    assert session in Registered(s, Any);
    if x.child { assert session in Registered(s, ChildOf(x.parent)); }
    var left := r.(byId := r.byId - {session});
    ReleaseCounters(s, left, x.child, x.parent);
    var u := s.(runners := Release(left, x.child, x.parent));
    forall k: Kind ensures Balanced(u, k) {
      assert Balanced(s, k);
      DropRunner(s, session, k);
      assert Registered(u, k) == Registered(s.(runners := left), k);
    }
  }

  lemma QuietStepKeepsSlots(s: System, e: Step)
    requires SlotsOk(s) && Enabled(s, e, true)
    requires !e.TryAdmit? && !e.Register? && !e.FailAdmitted? && !e.RunnerRemoved? && !e.Recheck?
    ensures SlotsOk(Take(s, e))
  {
    var tok := QuietActor(e);
    assert QuietChange(s, Take(s, e), tok);
    QuietChangeKeepsSlots(s, Take(s, e), tok);
  }

  function QuietActor(e: Step): nat {
    match e
    case BeginStart(tok, _) => tok
    case EnterStart(tok) => tok
    case ReturnEarly(tok) => tok
    case FailEarly(tok) => tok
    case Defer(tok) => tok
    case Requeue(tok) => tok
    case ScheduleRetry(tok) => tok
    case RetryFires(tok) => tok
    case RetryCancelled(tok) => tok
    case Pop(tok, _) => tok
    case PopNone(tok) => tok
    case StartDrain(tok) => tok
    case _ => 0
  }

  lemma StepKeepsSlots(s: System, e: Step)
    requires Inv(s) && Enabled(s, e, true)
    ensures SlotsOk(Take(s, e))
  {
    match e
    case TryAdmit(tok) =>
      if Admissible(s.runners, s.actors[tok].w) { AdmitKeepsSlots(s, tok, s.actors[tok].w, s.actors[tok].drain); }
      else { QuietChangeKeepsSlots(s, Take(s, e), tok); }
    case Register(tok) => RegisterKeepsSlots(s, tok);
    case FailAdmitted(tok) => FailAdmittedKeepsSlots(s, tok,
      if s.actors[tok].drain then Some(Failed(s.actors[tok].w)) else None);
    case RunnerRemoved(tok, session) =>
      RemoveKeepsSlots(s, session);
      var r, x := s.runners, s.runners.byId[session];
      QuietChangeKeepsSlots(s.(runners := Release(r.(byId := r.byId - {session}), x.child, x.parent)), Take(s, e), tok);
    case Recheck(tok, spawned) =>
      var t := if HasAdmissible(s.runners) && !s.lifeClosed then Go(s, spawned, Popping) else s;
      QuietChangeKeepsSlots(s, t, spawned);
      QuietChangeKeepsSlots(t, Take(s, e), tok);
    case _ => QuietStepKeepsSlots(s, e);
  }

  predicate DistinctSessions(q: seq<Waiting>) { forall i, j | 0 <= i < j < |q| :: q[i].session != q[j].session }

  lemma {:induction false} KeptIsSubqueue(q: seq<Waiting>, ids: set<int>)
    ensures forall x | x in Kept(q, ids) :: x in q
    ensures DistinctSessions(q) ==> DistinctSessions(Kept(q, ids))
  {
    if q != [] {
      KeptIsSubqueue(q[1..], ids);
      var rest := Kept(q[1..], ids);
      if DistinctSessions(q) && q[0].session !in ids {
        assert DistinctSessions(q[1..]);
        assert Kept(q, ids) == [q[0]] + rest;
        forall j | 0 <= j < |rest| ensures rest[j].session != q[0].session {
          assert rest[j] in q[1..];
          var k :| 0 <= k < |q[1..]| && q[1..][k] == rest[j];
          assert q[k + 1] == rest[j];
        }
      }
    }
  }

  lemma BackgroundStays(s: System, e: Step, session: int)
    requires Enabled(s, e, true) && Background(s, session)
    ensures Background(Take(s, e), session)
  {}

  lemma QueueGrows(s: System, e: Step)
    requires QueueOk(s) && ActorsOk(s) && Enabled(s, e, true) && (e.Defer? || e.Requeue?)
    ensures QueueOk(Take(s, e))
  {
    assert ActorOk(s, s.actors[e.tok]);
  }

  lemma QueueShrinks(s: System, e: Step)
    requires QueueOk(s) && Enabled(s, e, true) && (e.Pop? || e.ForgetQueued?)
    ensures QueueOk(Take(s, e))
  {
    if e.ForgetQueued? {
      KeptIsSubqueue(s.runners.waiting, e.ids);
      var q := Kept(s.runners.waiting, e.ids);
      forall i | 0 <= i < |q| ensures Background(s, q[i].session) { assert q[i] in s.runners.waiting; }
    }
  }

  lemma QueueUntouched(s: System, e: Step)
    requires Enabled(s, e, true) && !e.Defer? && !e.Requeue? && !e.Pop? && !e.ForgetQueued?
    ensures Take(s, e).runners.waiting == s.runners.waiting
  {}

  lemma StepKeepsQueue(s: System, e: Step)
    requires QueueOk(s) && ActorsOk(s) && Enabled(s, e, true)
    ensures QueueOk(Take(s, e))
  {
    if e.Defer? || e.Requeue? {
      QueueGrows(s, e);
    } else if e.Pop? || e.ForgetQueued? {
      QueueShrinks(s, e);
    } else {
      QueueUntouched(s, e);
      forall i | 0 <= i < |s.runners.waiting| ensures Background(Take(s, e), s.runners.waiting[i].session) {
        BackgroundStays(s, e, s.runners.waiting[i].session);
      }
    }
  }

  predicate WasInStart(s: System, t: System, a: nat)
    requires a in t.actors && InStart(t.actors[a])
  {
    && a in s.actors && InStart(s.actors[a])
    && s.actors[a].w == t.actors[a].w && s.actors[a].drain == t.actors[a].drain
  }

  lemma StartsGoOn(s: System, e: Step, a: nat)
    requires Enabled(s, e, true) && a in Take(s, e).actors && InStart(Take(s, e).actors[a])
    requires !e.BeginStart? && !e.EnterStart?
    ensures WasInStart(s, Take(s, e), a)
  {}

  /** An actor inside a start either was there for the same session or just took its lock. */
  lemma StartsAppear(s: System, e: Step, a: nat)
    requires Enabled(s, e, true) && a in Take(s, e).actors && InStart(Take(s, e).actors[a])
    ensures WasInStart(s, Take(s, e), a)
         || ((e.BeginStart? || e.EnterStart?) && a == e.tok && !Busy(s, Take(s, e).actors[a].w.session))
  {
    if !e.BeginStart? && !e.EnterStart? { StartsGoOn(s, e, a); }
  }

  /** An actor the step leaves alone: its session may only have turned background, and a runner
      registered meanwhile is another session's. */
  lemma BystanderStaysOk(s: System, e: Step, a: nat)
    requires Enabled(s, e, true) && a in s.actors && a in Take(s, e).actors && Take(s, e).actors[a] == s.actors[a]
    requires ActorOk(s, s.actors[a])
    requires e.Register? && s.actors[a].Admitted? ==> s.actors[a].w.session != s.actors[e.tok].w.session
    ensures ActorOk(Take(s, e), s.actors[a])
  {
    var pc := s.actors[a];
    if pc.Popped? || pc.Failed? || (InStart(pc) && pc.drain) { BackgroundStays(s, e, pc.w.session); }
  }

  lemma MoverStaysOk(s: System, e: Step, a: nat)
    requires QueueOk(s) && Enabled(s, e, true) && a in Take(s, e).actors
    requires a in s.actors ==> ActorOk(s, s.actors[a]) && Take(s, e).actors[a] != s.actors[a]
    ensures ActorOk(Take(s, e), Take(s, e).actors[a])
  {}

  lemma ActorStaysOk(s: System, e: Step, a: nat)
    requires QueueOk(s) && ActorsOk(s) && Enabled(s, e, true) && a in Take(s, e).actors
    ensures ActorOk(Take(s, e), Take(s, e).actors[a])
  {
    if a in s.actors && Take(s, e).actors[a] == s.actors[a] {
      if e.Register? && s.actors[a].Admitted? { assert e.tok != a; }
      BystanderStaysOk(s, e, a);
    } else {
      MoverStaysOk(s, e, a);
    }
  }

  lemma StartsStayApart(s: System, e: Step, a: nat, b: nat)
    requires ActorsOk(s) && Enabled(s, e, true) && a != b && a in Take(s, e).actors && b in Take(s, e).actors
    requires InStart(Take(s, e).actors[a]) && InStart(Take(s, e).actors[b])
    ensures Take(s, e).actors[a].w.session != Take(s, e).actors[b].w.session
  {
    StartsAppear(s, e, a);
    StartsAppear(s, e, b);
  }

  lemma StepKeepsRetry(s: System, e: Step)
    requires QueueOk(s) && ActorsOk(s) && Enabled(s, e, true)
    ensures
      var t := Take(s, e);
      t.runners.retrying ==> t.lifeClosed || exists a :: a in t.actors && t.actors[a].RetryArmed?
  {
    var t := Take(s, e);
    if t.runners.retrying && !t.lifeClosed {
      if s.runners.retrying {
        var a :| a in s.actors && s.actors[a].RetryArmed?;
        assert a in t.actors && t.actors[a].RetryArmed?;
      } else {
        assert e.ScheduleRetry? && t.actors[e.tok].RetryArmed?;
      }
    }
  }

  lemma StepKeepsInv(s: System, e: Step)
    requires Inv(s) && Enabled(s, e, true)
    ensures Inv(Take(s, e))
  {
    StepKeepsSlots(s, e);
    StepKeepsQueue(s, e);
    var t := Take(s, e);
    forall a | a in t.actors ensures ActorOk(t, t.actors[a]) { ActorStaysOk(s, e, a); }
    forall a, b | a in t.actors && b in t.actors && a != b && InStart(t.actors[a]) && InStart(t.actors[b])
      ensures t.actors[a].w.session != t.actors[b].w.session
    {
      StartsStayApart(s, e, a, b);
    }
    StepKeepsRetry(s, e);
  }

  lemma BootInv()
    ensures Inv(BOOT)
  {
    forall k: Kind ensures Balanced(BOOT, k) {
      assert Registered(BOOT, k) == {} && InFlight(map[], k) == {};
    }
  }

  /** Over every run, whether or not starts fail: the counters equal the registered runners
      plus the admitted starts, the caps hold, and the queue is duplicate-free and holds no
      foreground child. */
  lemma {:induction false} SlotsConserved(n: nat, s: System, directMayFail: bool)
    requires ReachedIn(n, s, directMayFail)
    ensures Inv(s)
  {
    if n == 0 {
      BootInv();
    } else {
      var b: System, e: Step :| ReachedIn(n - 1, b, directMayFail) && Enabled(b, e, directMayFail) && s == Take(b, e);
      SlotsConserved(n - 1, b, directMayFail);
      StepKeepsInv(b, e);
    }
  }

  // Slots in use: registered runners and starts admitted but not registered yet, of all, of
  // children, and of one parent's children.

  function InUse(s: System): nat { |s.runners.byId.Keys| + |AdmittedStarts(s)| }

  function InUseByChildren(s: System): nat { |ChildRunners(s)| + |ChildStarts(s)| }

  function InUseUnder(s: System, p: int): nat {
    |set id | id in ChildRunners(s) && s.runners.byId[id].parent == p|
    + |set t | t in ChildStarts(s) && s.actors[t].w.parent == p|
  }

  function AdmittedStarts(s: System): (ts: set<nat>)
    ensures forall t | t in ts :: t in s.actors && s.actors[t].Admitted?
  {
    set t | t in s.actors && s.actors[t].Admitted?
  }

  function ChildRunners(s: System): (ids: set<int>)
    ensures forall id | id in ids :: id in s.runners.byId
  {
    set id | id in s.runners.byId && s.runners.byId[id].child
  }

  function ChildStarts(s: System): (ts: set<nat>)
    ensures forall t | t in ts :: t in s.actors && s.actors[t].Admitted?
  {
    set t | t in s.actors && s.actors[t].Admitted? && s.actors[t].w.child
  }

  lemma UseIsSlots(s: System, p: int)
    ensures InUse(s) == Slots(s, Any) && InUseByChildren(s) == Slots(s, Child)
      && InUseUnder(s, p) == Slots(s, ChildOf(p))
  {
    forall id ensures id in Registered(s, Any) <==> id in s.runners.byId.Keys {}
    forall id ensures id in Registered(s, Child) <==> id in ChildRunners(s) {}
    var under := set id | id in ChildRunners(s) && s.runners.byId[id].parent == p;
    forall id ensures id in Registered(s, ChildOf(p)) <==> id in under {}
    assert Registered(s, Any) == s.runners.byId.Keys && Registered(s, Child) == ChildRunners(s);
    assert Registered(s, ChildOf(p)) == under;
    assert InFlight(s.actors, Any) == AdmittedStarts(s) && InFlight(s.actors, Child) == ChildStarts(s);
    assert InFlight(s.actors, ChildOf(p)) == set t | t in ChildStarts(s) && s.actors[t].w.parent == p;
  }

  /** In every reachable state a start is admitted exactly by the slots in use: a root while fewer than
      16 are, a child while besides fewer than 12 are children's and fewer than 8 its parent's. */
  lemma AdmittedExactlyBySlotsInUse(s: System, directMayFail: bool, tok: nat)
    requires Reachable(s, directMayFail) && Enabled(s, TryAdmit(tok), directMayFail)
    ensures
      var w := s.actors[tok].w;
      Take(s, TryAdmit(tok)).actors[tok].Admitted? <==>
        && !s.runners.closed && InUse(s) < 16
        && (w.child ==> InUseByChildren(s) < 12 && InUseUnder(s, w.parent) < 8)
  {
    var n: nat :| ReachedIn(n, s, directMayFail);
    SlotsConserved(n, s, directMayFail);
    var p := s.actors[tok].w.parent;
    UseIsSlots(s, p);
    assert Balanced(s, Any) && Balanced(s, Child) && Balanced(s, ChildOf(p));
  }

  // ----- no queued runner is dropped -----

  /** The session waits, or a drain that took it from the queue still has it in hand. */
  predicate HasInHand(pc: Pc, session: int) {
    && (pc.Popped? || pc.Failed? || pc.Trying? || pc.NoRoom? || pc.Admitted?) && pc.w.session == session
    && (InStart(pc) ==> pc.drain)
  }

  predicate Waits(s: System, session: int) {
    exists i :: 0 <= i < |s.runners.waiting| && s.runners.waiting[i].session == session
  }

  predicate InCustody(s: System, session: int) {
    Waits(s, session) || exists t :: t in s.actors && HasInHand(s.actors[t], session)
  }

  /** The one who has the session in hand finds that it needs no start: it runs, or is not to run. */
  predicate SetsDown(s: System, e: Step, session: int)
    requires Enabled(s, e, true)
  {
    || (e.ForgetQueued? && session in e.ids)
    || (e.ReturnEarly? && HasInHand(s.actors[e.tok], session))
  }

  lemma WaitedWaits(r: RunnerSet, w: Waiting)
    requires !r.closed
    ensures exists i :: 0 <= i < |Wait(r, w).waiting| && Wait(r, w).waiting[i].session == w.session
    ensures forall i | 0 <= i < |r.waiting| :: i < |Wait(r, w).waiting| && Wait(r, w).waiting[i] == r.waiting[i]
  {
    if Wait(r, w).waiting != r.waiting { assert Wait(r, w).waiting[|r.waiting|] == w; }
  }

  lemma {:induction false} KeptStays(q: seq<Waiting>, ids: set<int>, x: Waiting)
    requires x in q && x.session !in ids
    ensures x in Kept(q, ids)
  {
    if q[0] != x { KeptStays(q[1..], ids, x); }
  }

  lemma WaiterStays(s: System, e: Step, i: nat)
    requires Enabled(s, e, true) && !s.runners.closed && i < |s.runners.waiting|
    ensures
      var session := s.runners.waiting[i].session;
      InCustody(Take(s, e), session) || SetsDown(s, e, session)
  {
    var x, t := s.runners.waiting[i], Take(s, e);
    if e.Pop? {
      if i == e.i { assert HasInHand(t.actors[e.tok], x.session); }
      else { assert t.runners.waiting[if i < e.i then i else i - 1] == x; }
    } else if e.ForgetQueued? {
      if x.session !in e.ids {
        KeptStays(s.runners.waiting, e.ids, x);
        var j :| 0 <= j < |t.runners.waiting| && t.runners.waiting[j] == x;
        assert t.runners.waiting[j].session == x.session;
      }
    } else {
      if e.Defer? || e.Requeue? { WaitedWaits(s.runners, s.actors[e.tok].w); } else { QueueUntouched(s, e); }
      assert t.runners.waiting[i].session == x.session;
    }
  }

  predicate Acts(e: Step, a: nat) {
    (e.EnterStart? || e.ReturnEarly? || e.FailEarly? || e.TryAdmit? || e.Defer? || e.Recheck? || e.Register?
     || e.FailAdmitted? || e.Requeue? || e.ScheduleRetry? || e.RetryFires? || e.RetryCancelled? || e.Pop? || e.PopNone?
     || e.StartDrain?) && e.tok == a
  }

  lemma InHandStays(s: System, e: Step, a: nat)
    requires Enabled(s, e, true) && ActorsOk(s) && !s.runners.closed && a in s.actors
    requires (s.actors[a].Popped? || s.actors[a].Failed? || InStart(s.actors[a]))
      && HasInHand(s.actors[a], s.actors[a].w.session)
    ensures
      var session := s.actors[a].w.session;
      InCustody(Take(s, e), session) || session in Take(s, e).runners.byId || SetsDown(s, e, session)
  {
    var w, t := s.actors[a].w, Take(s, e);
    if !Acts(e, a) {
      assert t.actors[a] == s.actors[a] && HasInHand(t.actors[a], w.session);
    } else if e.Defer? || e.Requeue? {
      WaitedWaits(s.runners, w);
      var i :| 0 <= i < |t.runners.waiting| && t.runners.waiting[i].session == w.session;
      assert Waits(t, w.session);
    } else if !e.Register? && !e.ReturnEarly? {
      assert HasInHand(t.actors[a], w.session);
    }
  }

  /** Until the daemon closes, a session that waits keeps waiting or is in a drain's hands, whatever
      fails, until it is registered, is forgotten by a stop, or is found to need no start. */
  lemma NoWaiterIsDropped(s: System, directMayFail: bool, e: Step, session: int)
    requires Reachable(s, directMayFail) && Enabled(s, e, directMayFail) && !s.runners.closed && InCustody(s, session)
    ensures InCustody(Take(s, e), session) || session in Take(s, e).runners.byId || SetsDown(s, e, session)
  {
    var n: nat :| ReachedIn(n, s, directMayFail);
    SlotsConserved(n, s, directMayFail);
    if Waits(s, session) {
      var i :| 0 <= i < |s.runners.waiting| && s.runners.waiting[i].session == session;
      WaiterStays(s, e, i);
    } else {
      var a :| a in s.actors && HasInHand(s.actors[a], session);
      InHandStays(s, e, a);
    }
  }

  /** A direct start of a background session that finds no room makes it wait. */
  lemma NoRoomMeansWaiting(s: System, directMayFail: bool, tok: nat)
    requires Reachable(s, directMayFail) && Enabled(s, Defer(tok), directMayFail) && !s.runners.closed
    requires Background(s, s.actors[tok].w.session)
    ensures Waits(Take(s, Defer(tok)), s.actors[tok].w.session)
  {
    WaitedWaits(s.runners, s.actors[tok].w);
  }

  /** The least position of an admissible runner. */
  lemma {:induction false} LeastAdmissible(r: RunnerSet, j: nat) returns (i: nat)
    requires j < |r.waiting| && CanAdmit(r, r.waiting[j].child, r.waiting[j].parent)
    ensures i <= j && CanAdmit(r, r.waiting[i].child, r.waiting[i].parent)
    ensures forall k | 0 <= k < i :: !CanAdmit(r, r.waiting[k].child, r.waiting[k].parent)
  {
    if k :| 0 <= k < j && CanAdmit(r, r.waiting[k].child, r.waiting[k].parent) {
      i := LeastAdmissible(r, k);
    } else {
      i := j;
    }
  }

  /** A drain takes the first runner that can be admitted, passing over exactly those that cannot, and
      leaves the others in order; it finds one exactly when there is one. */
  lemma DrainTakesTheFirst(s: System, tok: nat, i: nat)
    requires tok in s.actors && s.actors[tok].Popping?
    ensures Enabled(s, Pop(tok, i), true) <==>
      && i < |s.runners.waiting| && CanAdmit(s.runners, s.runners.waiting[i].child, s.runners.waiting[i].parent)
      && forall k | 0 <= k < i :: !CanAdmit(s.runners, s.runners.waiting[k].child, s.runners.waiting[k].parent)
    ensures Enabled(s, Pop(tok, i), true) ==>
      && Take(s, Pop(tok, i)).actors[tok] == Popped(s.runners.waiting[i])
      && Take(s, Pop(tok, i)).runners.waiting == s.runners.waiting[..i] + s.runners.waiting[i + 1..]
    ensures !Enabled(s, PopNone(tok), true) <==> exists j: nat :: Enabled(s, Pop(tok, j), true)
  {
    if !Enabled(s, PopNone(tok), true) {
      var j :| 0 <= j < |s.runners.waiting| && Admissible(s.runners, s.runners.waiting[j]);
      var least := LeastAdmissible(s.runners, j);
      assert Enabled(s, Pop(tok, least), true);
    }
  }

  // ----- no lost wake-up -----

  /** An actor that will look at the queue again before it ends. */
  predicate Responsible(pc: Pc) {
    || pc.Popping? || pc.Popped? || pc.OwesDrain? || pc.Failed? || pc.NeedsRetry? || pc.RetryArmed? || pc.Queued?
    || ((pc.Trying? || pc.NoRoom? || pc.Admitted?) && pc.drain)
  }

  predicate Attended(s: System) { exists t :: t in s.actors && Responsible(s.actors[t]) }

  predicate Wake(s: System) { !s.lifeClosed && HasAdmissible(s.runners) ==> Attended(s) }

  /** Neither a waiting queue nor free capacity grows except in the hands of a responsible actor. */
  lemma StepKeepsWake(s: System, e: Step)
    requires ActorsOk(s) && Wake(s) && Enabled(s, e, false)
    ensures Wake(Take(s, e))
  {
    var t := Take(s, e);
    if !t.lifeClosed && HasAdmissible(t.runners) {
      if e.RunnerRemoved? || e.Requeue? || e.Pop? || e.RetryFires? { assert Responsible(t.actors[e.tok]); }
      else if e.ScheduleRetry? { ScheduleAttended(s, e); }
      else if e.Recheck? { RecheckAttended(s, e); }
      else if e.Defer? || e.TryAdmit? || e.FailAdmitted? || e.Register? { StartAttended(s, e); }
      else { OtherAttended(s, e); }
    }
  }

  lemma ScheduleAttended(s: System, e: Step)
    requires ActorsOk(s) && Wake(s) && Enabled(s, e, false) && e.ScheduleRetry? && !s.lifeClosed
    ensures Attended(Take(s, e))
  {
    var t := Take(s, e);
    if s.runners.retrying {
      var a :| a in s.actors && s.actors[a].RetryArmed?;
      assert a in t.actors && Responsible(t.actors[a]);
    } else {
      assert Responsible(t.actors[e.tok]);
    }
  }

  lemma RecheckAttended(s: System, e: Step)
    requires ActorsOk(s) && Wake(s) && Enabled(s, e, false) && e.Recheck? && !s.lifeClosed && HasAdmissible(s.runners)
    ensures Attended(Take(s, e))
  {
    assert Responsible(Take(s, e).actors[e.spawned]);
  }

  lemma StartAttended(s: System, e: Step)
    requires ActorsOk(s) && Wake(s) && Enabled(s, e, false)
      && (e.Defer? || e.TryAdmit? || e.FailAdmitted? || e.Register?)
    requires !s.lifeClosed && HasAdmissible(Take(s, e).runners)
    ensures Attended(Take(s, e))
  {
    var t := Take(s, e);
    if e.tok in t.actors && Responsible(t.actors[e.tok]) {
    } else {
      var i :| 0 <= i < |t.runners.waiting| && Admissible(t.runners, t.runners.waiting[i]);
      assert Admissible(s.runners, s.runners.waiting[i]);
      var a :| a in s.actors && Responsible(s.actors[a]);
      assert a in t.actors && Responsible(t.actors[a]);
    }
  }

  lemma OtherAttended(s: System, e: Step)
    requires ActorsOk(s) && Wake(s) && Enabled(s, e, false) && !s.lifeClosed && HasAdmissible(Take(s, e).runners)
    requires e.Create? || e.Unblock? || e.BeginStart? || e.EnterStart? || e.ReturnEarly? || e.FailEarly?
      || e.RetryCancelled?
          || e.PopNone? || e.StartDrain? || e.ForgetQueued? || e.CloseLife? || e.CloseSet?
    ensures Attended(Take(s, e))
  {
    var t := Take(s, e);
    assert HasAdmissible(s.runners) by {
      if e.ForgetQueued? {
        KeptIsSubqueue(s.runners.waiting, e.ids);
        var i :| 0 <= i < |t.runners.waiting| && Admissible(t.runners, t.runners.waiting[i]);
        assert t.runners.waiting[i] in s.runners.waiting;
      }
    }
    var a :| a in s.actors && Responsible(s.actors[a]);
    assert a in t.actors && Responsible(t.actors[a]);
  }

  lemma {:induction false} WakeOverRuns(n: nat, s: System)
    requires ReachedIn(n, s, false)
    ensures Inv(s) && Wake(s)
  {
    SlotsConserved(n, s, false);
    if n > 0 {
      var b: System, e: Step :| ReachedIn(n - 1, b, false) && Enabled(b, e, false) && s == Take(b, e);
      WakeOverRuns(n - 1, b);
      StepKeepsWake(b, e);
    }
  }

  /** Nobody is mid-step, no retry is pending and the daemon is up. */
  predicate Quiescent(s: System) { s.actors == map[] && !s.runners.retrying && !s.lifeClosed }

  ghost predicate NoLostWakeUp(directMayFail: bool) {
    forall s: System :: Reachable(s, directMayFail) && Quiescent(s) ==> !HasAdmissible(s.runners)
  }

  lemma Extend(s: System, e: Step, t: System, directMayFail: bool)
    requires Reachable(s, directMayFail) && Enabled(s, e, directMayFail) && t == Take(s, e)
    ensures Reachable(t, directMayFail)
  {
    var n: nat :| ReachedIn(n, s, directMayFail);
    assert ReachedIn(n + 1, t, directMayFail);
  }

  function Root(session: int): Waiting { Waiting(session, 0, false) }

  function Roots(n: nat): (m: map<int, Runner>)
    ensures forall k | k in m :: 1 <= k <= n
  {
    if n == 0 then map[] else Roots(n - 1)[n := Runner(0, false)]
  }

  function Known(n: nat): (m: map<int, bool>)
    ensures forall k | k in m :: 1 <= k <= n && !m[k]
    ensures n > 0 ==> n in m
  {
    if n == 0 then map[] else Known(n - 1)[n := false]
  }

  /** `n` root sessions run, `k` are known, and the given actors are under way. */
  function Running(n: nat, admitted: nat, k: nat, queue: seq<Waiting>, actors: map<nat, Pc>): System {
    System(RunnerSet(Roots(n), false, n + admitted, 0, map[], queue, false), false, Known(k), actors)
  }

  /** One more root session is created and admitted by a direct start. */
  lemma OneMoreAdmitted(n: nat)
    requires n < MAX_TOTAL && Reachable(Running(n, 0, n, [], map[]), true)
    ensures Reachable(Running(n, 1, n + 1, [], map[0 := Admitted(Root(n + 1), false)]), true)
  {
    var a := Running(n, 0, n, [], map[]);
    var b := Running(n, 0, n + 1, [], map[]);
    Extend(a, Create(n + 1, false), b, true);
    var c := Running(n, 0, n + 1, [], map[0 := Trying(Root(n + 1), false)]);
    Extend(b, BeginStart(0, Root(n + 1)), c, true);
    Extend(c, TryAdmit(0), Running(n, 1, n + 1, [], map[0 := Admitted(Root(n + 1), false)]), true);
  }

  lemma {:induction false} ManyRunning(n: nat)
    requires n < MAX_TOTAL
    ensures Reachable(Running(n, 0, n, [], map[]), true)
  {
    if n == 0 {
      assert Running(0, 0, 0, [], map[]) == BOOT && ReachedIn(0, BOOT, true);
    } else {
      ManyRunning(n - 1);
      OneMoreAdmitted(n - 1);
      var a := Running(n - 1, 1, n, [], map[0 := Admitted(Root(n), false)]);
      assert map[0 := Admitted(Root(n), false)] - {0} == map[];
      Extend(a, Register(0), Running(n, 0, n, [], map[]), true);
    }
  }

  /** Behind a full house another root session finds no room. */
  lemma OneMoreRefused(n: nat, hold: Pc)
    requires n + 1 >= MAX_TOTAL && hold == Admitted(Root(n + 1), false)
      && Reachable(Running(n, 1, n + 1, [], map[0 := hold]), true)
    ensures Reachable(Running(n, 1, n + 2, [], map[0 := hold, 1 := NoRoom(Root(n + 2), false)]), true)
  {
    var a := Running(n, 1, n + 1, [], map[0 := hold]);
    var b := Running(n, 1, n + 2, [], map[0 := hold]);
    Extend(a, Create(n + 2, false), b, true);
    OneMoreTried(n, hold, Root(n + 2));
  }

  lemma OneMoreTried(n: nat, hold: Pc, w: Waiting)
    requires n + 1 >= MAX_TOTAL && hold == Admitted(Root(n + 1), false) && w == Root(n + 2)
    requires Reachable(Running(n, 1, n + 2, [], map[0 := hold]), true)
    ensures Reachable(Running(n, 1, n + 2, [], map[0 := hold, 1 := NoRoom(w, false)]), true)
  {
    var b := Running(n, 1, n + 2, [], map[0 := hold]);
    var c := Running(n, 1, n + 2, [], map[0 := hold, 1 := Trying(w, false)]);
    var d := Running(n, 1, n + 2, [], map[0 := hold, 1 := NoRoom(w, false)]);
    assert !Busy(b, n + 2);
    assert b.actors[1 := Trying(w, false)] == c.actors && c.actors[1 := NoRoom(w, false)] == d.actors;
    Extend(b, BeginStart(1, w), c, true);
    Extend(c, TryAdmit(1), d, true);
  }

  /** It queues. */
  lemma OneMoreQueued(n: nat, hold: Pc, w: Waiting)
    requires w == Root(n + 2) && Reachable(Running(n, 1, n + 2, [], map[0 := hold, 1 := NoRoom(w, false)]), true)
    ensures Reachable(Running(n, 1, n + 2, [w], map[0 := hold, 1 := Queued(w, false)]), true)
  {
    var d := Running(n, 1, n + 2, [], map[0 := hold, 1 := NoRoom(w, false)]);
    var f := Running(n, 1, n + 2, [w], map[0 := hold, 1 := Queued(w, false)]);
    assert d.actors[1 := Queued(w, false)] == f.actors;
    Extend(d, Defer(1), f, true);
  }

  /** It re-checks in vain and ends. */
  lemma OneMoreGone(n: nat, hold: Pc, w: Waiting)
    requires n + 1 >= MAX_TOTAL && w == Root(n + 2)
      && Reachable(Running(n, 1, n + 2, [w], map[0 := hold, 1 := Queued(w, false)]), true)
    ensures Reachable(Running(n, 1, n + 2, [w], map[0 := hold]), true)
  {
    var f := Running(n, 1, n + 2, [w], map[0 := hold, 1 := Queued(w, false)]);
    var g := Running(n, 1, n + 2, [w], map[0 := hold]);
    assert !HasAdmissible(f.runners);
    assert f.actors - {1} == g.actors;
    assert Take(f, Recheck(1, 2)) == ReturnOk(f, 1, false);
    Extend(f, Recheck(1, 2), g, true);
  }

  /** Fifteen run; a sixteenth is admitted; a seventeenth queues behind it and sees no room;
      the sixteenth then fails before registering and gives its slot back to nobody. */
  lemma WakeUpLost() returns (s: System)
    ensures Reachable(s, true) && Quiescent(s) && HasAdmissible(s.runners)
  {
    var n: nat := MAX_TOTAL - 1;
    var hold := Admitted(Root(n + 1), false);
    ManyRunning(n);
    OneMoreAdmitted(n);
    OneMoreRefused(n, hold);
    OneMoreQueued(n, hold, Root(n + 2));
    OneMoreGone(n, hold, Root(n + 2));
    s := Running(n, 0, n + 2, [Root(n + 2)], map[]);
    assert map[0 := hold] - {0} == map[];
    Extend(Running(n, 1, n + 2, [Root(n + 2)], map[0 := hold]), FailAdmitted(0), s, true);
    assert Admissible(s.runners, s.runners.waiting[0]);
  }

  // ----- in every run, lost only behind a failure nobody has looked past -----

  /** A direct start gives its slot back while the daemon is up. */
  predicate DropsSlot(s: System, e: Step)
    requires Enabled(s, e, true)
  {
    e.FailAdmitted? && !s.actors[e.tok].drain && !s.lifeClosed
  }

  /** Somebody looks at the queue: a drain, or a start that has just queued its session. */
  predicate Looks(e: Step) { e.Pop? || e.PopNone? || e.Recheck? }

  predicate Follows(b: System, was: bool, e: Step, s: System, unheeded: bool) {
    Enabled(b, e, true) && s == Take(b, e) && unheeded == (DropsSlot(b, e) || (was && !Looks(e)))
  }

  /** States reached in `n` steps of the daemon as it is, and whether a direct start has failed
      after its admission with nobody looking at the queue since. */
  ghost predicate RanTo(n: nat, s: System, unheeded: bool) {
    if n == 0 then s == BOOT && !unheeded
    else exists b: System, was: bool, e: Step :: RanTo(n - 1, b, was) && Follows(b, was, e, s, unheeded)
  }

  lemma {:induction false} ReachedByRuns(n: nat, s: System) returns (unheeded: bool)
    requires ReachedIn(n, s, true)
    ensures RanTo(n, s, unheeded)
  {
    unheeded := false;
    if n > 0 {
      var b: System, e: Step :| ReachedIn(n - 1, b, true) && Enabled(b, e, true) && s == Take(b, e);
      var was := ReachedByRuns(n - 1, b);
      unheeded := DropsSlot(b, e) || (was && !Looks(e));
      assert Follows(b, was, e, s, unheeded);
    }
  }

  lemma LookingWakes(s: System, e: Step)
    requires Enabled(s, e, true) && Looks(e)
    ensures Wake(Take(s, e))
  {
    var t := Take(s, e);
    if e.Pop? { assert Responsible(t.actors[e.tok]); }
    if e.Recheck? && HasAdmissible(s.runners) && !s.lifeClosed { assert Responsible(t.actors[e.spawned]); }
  }

  lemma {:induction false} AwakeOrUnheeded(n: nat, s: System, unheeded: bool)
    requires RanTo(n, s, unheeded)
    ensures Inv(s) && (Wake(s) || unheeded)
  {
    if n == 0 {
      BootInv();
    } else {
      var b: System, was: bool, e: Step :| RanTo(n - 1, b, was) && Follows(b, was, e, s, unheeded);
      AwakeOrUnheeded(n - 1, b, was);
      StepKeepsInv(b, e);
      if Looks(e) { LookingWakes(b, e); } else if !unheeded { StepKeepsWake(b, e); }
    }
  }

  /** The queue was forgotten by everyone although its head could run. */
  ghost predicate LostAfter(unheeded: bool) {
    exists n: nat, s: System :: RanTo(n, s, unheeded) && Quiescent(s) && HasAdmissible(s.runners)
  }

  /** Over the runs of the daemon as it is: a quiescent state with an admissible runner queued comes
      up behind a direct start that failed after its admission with nobody looking at the queue
      since, and only there. */
  lemma LostExactlyBehindUnheededFailure(unheeded: bool)
    ensures LostAfter(unheeded) <==> unheeded
  {
    if LostAfter(unheeded) {
      var n: nat, s: System :| RanTo(n, s, unheeded) && Quiescent(s) && HasAdmissible(s.runners);
      AwakeOrUnheeded(n, s, unheeded);
    }
    if unheeded {
      var s := WakeUpLost();
      var n: nat :| ReachedIn(n, s, true);
      var was := ReachedByRuns(n, s);
      AwakeOrUnheeded(n, s, was);
    }
  }

  /** In every quiescent state no queued runner is admissible, if and only if a direct start
      cannot fail between its admission and its registration. */
  lemma NoLostWakeUpExactlyWhenAdmittedStartsRegister(directMayFail: bool)
    ensures NoLostWakeUp(directMayFail) <==> !directMayFail
  {
    if directMayFail {
      var s := WakeUpLost();
    } else {
      forall s: System | Reachable(s, false) && Quiescent(s) ensures !HasAdmissible(s.runners) {
        var n: nat :| ReachedIn(n, s, false);
        WakeOverRuns(n, s);
      }
    }
  }
}
