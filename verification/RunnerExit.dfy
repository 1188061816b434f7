/** How a session runner leaves: it gives its slot back and closes `done` once, although a stop
    or kill may hold the tree fence the runner needs while it waits for that runner. */
module RunnerExit {

  import opened Options

  /** Where a runner stands. `released` remembers that slot and `done` are already given up. */
  datatype Pc =
    | Working
    | Read(closing: bool)
    | Removing(closing: bool)
    | Completing(closing: bool)
    | WaitsCancellably
    | WaitsUncancellably
    | Fenced(released: bool)
    | Unfenced(released: bool)
    | FencedRemoved
    | UnfencedRemoved
    | FencedDone
    | Gone

  /** `closes` counts `close(done)`, `returned` counts slots given back on its behalf. */
  datatype Runner = Runner(session: int, cancelled: bool, pc: Pc, closes: nat, returned: nat)

  /** A stop or kill: it owns the fence, loads runners, cancels them, then joins them all. */
  datatype Stop = Loading(found: set<nat>) | Cancelling(found: set<nat>) | Joining(found: set<nat>)

  datatype Owner = Free | ByRunner(r: nat) | ByStop | ByOther

  /** One session tree: its runner objects, the registry by session id, and its fence. */
  datatype Tree = Tree(
    runners: map<nat, Runner>, byId: map<int, nat>, fence: Owner, stop: Option<Stop>, lifeClosed: bool)

  const QUIET := Tree(map[], map[], Free, None, false)

  datatype Step =
    | Register(r: nat, session: int)
    | LeaveLoop(r: nat)
    | ReadContext(r: nat)
    | Remove(r: nat)
    | Complete(r: nat)
    | AcquireFence(r: nat)
    | FenceLookupFails(r: nat)
    | ContextDone(r: nat)
    | FinishFenced(r: nat)
    | Unlock(r: nat)
    | StopLocks
    | StopLoads(session: int)
    | StopSignals
    | StopCancels(r: nat)
    | StopWaits
    | StopUnlocks
    | OtherLocks
    | OtherUnlocks
    | Shutdown
    | ShutdownCancels(r: nat)

  predicate Enabled(t: Tree, e: Step) {
    match e
    // A start registers under the fence; the registry refuses a second runner.
    case Register(r, session) => r !in t.runners && session !in t.byId && t.fence.ByOther?
    case LeaveLoop(r) => r in t.runners && t.runners[r].pc.Working?
    case ReadContext(r) => r in t.runners && t.runners[r].pc.Read?
    case Remove(r) => r in t.runners
      && (t.runners[r].pc.Removing? || t.runners[r].pc.Fenced? || t.runners[r].pc.Unfenced?)
    case Complete(r) => r in t.runners && t.runners[r].pc.Completing?
    case AcquireFence(r) => r in t.runners
      && (t.runners[r].pc.WaitsCancellably? || t.runners[r].pc.WaitsUncancellably?) && t.fence.Free?
    case FenceLookupFails(r) =>
      r in t.runners && ((t.runners[r].pc.WaitsCancellably? && !t.runners[r].cancelled)
        || t.runners[r].pc.WaitsUncancellably?)
    case ContextDone(r) => r in t.runners && t.runners[r].pc.WaitsCancellably? && t.runners[r].cancelled
    case FinishFenced(r) => r in t.runners && (t.runners[r].pc.FencedRemoved? || t.runners[r].pc.UnfencedRemoved?)
    case Unlock(r) => r in t.runners && t.runners[r].pc.FencedDone?
    case StopLocks => t.fence.Free? && t.stop.None?
    case StopLoads(session) => t.stop.Some? && t.stop.value.Loading? && session in t.byId
    case StopSignals => t.stop.Some? && t.stop.value.Loading?
    case StopCancels(r) => t.stop.Some? && t.stop.value.Cancelling? && r in t.stop.value.found && r in t.runners
    case StopWaits => t.stop.Some? && t.stop.value.Cancelling?
                   && forall r | r in t.stop.value.found && r in t.runners :: t.runners[r].cancelled
    case StopUnlocks => t.stop.Some? && t.stop.value.Joining?
                     && forall r | r in t.stop.value.found && r in t.runners :: t.runners[r].closes > 0
    case OtherLocks => t.fence.Free?
    case OtherUnlocks => t.fence.ByOther?
    case Shutdown => true
    case ShutdownCancels(r) => t.lifeClosed && r in t.runners
  }

  function Move(t: Tree, r: nat, pc: Pc): Tree
    requires r in t.runners
  {
    t.(runners := t.runners[r := t.runners[r].(pc := pc)])
  }

  /** `runnerSet.remove`: whoever is registered under the session gets its slot returned. */
  function Drop(t: Tree, session: int): Tree {
    if session !in t.byId then t else
    var owner := t.byId[session];
    t.(byId := t.byId - {session},
       runners := if owner in t.runners
         then t.runners[owner := t.runners[owner].(returned := t.runners[owner].returned + 1)] else t.runners)
  }

  function Close(t: Tree, r: nat): Tree
    requires r in t.runners
  {
    t.(runners := t.runners[r := t.runners[r].(closes := t.runners[r].closes + 1)])
  }

  function Take(t: Tree, e: Step): Tree
    requires Enabled(t, e)
  {
    match e
    case Register(r, session) =>
      t.(runners := t.runners[r := Runner(session, false, Working, 0, 0)], byId := t.byId[session := r])
    case LeaveLoop(r) => Move(t, r, Read(t.lifeClosed))
    case ReadContext(r) =>
      var closing := t.runners[r].pc.closing;
      Move(t, r, if t.runners[r].cancelled || closing then Removing(closing) else WaitsCancellably)
    case Remove(r) =>
      var pc := t.runners[r].pc;
      if pc.Removing? then Move(Drop(t, t.runners[r].session), r, Completing(pc.closing))
      else if pc.Fenced? && pc.released then Move(t, r, FencedDone)
      else if pc.Unfenced? && pc.released then Move(t, r, Gone)
      else if pc.Fenced? then Move(Drop(t, t.runners[r].session), r, FencedRemoved)
      else Move(Drop(t, t.runners[r].session), r, UnfencedRemoved)
    case Complete(r) => Move(Close(t, r), r, if t.runners[r].pc.closing then Gone else WaitsUncancellably)
    case AcquireFence(r) => Move(t, r, Fenced(t.runners[r].pc.WaitsUncancellably?)).(fence := ByRunner(r))
    case FenceLookupFails(r) => Move(t, r, Unfenced(t.runners[r].pc.WaitsUncancellably?))
    case ContextDone(r) => Move(t, r, Removing(false))
    case FinishFenced(r) => Move(Close(t, r), r, if t.runners[r].pc.FencedRemoved? then FencedDone else Gone)
    case Unlock(r) => Move(t, r, Gone).(fence := Free)
    case StopLocks => t.(fence := ByStop, stop := Some(Loading({})))
    case StopLoads(session) => t.(stop := Some(Loading(t.stop.value.found + {t.byId[session]})))
    case StopSignals => t.(stop := Some(Cancelling(t.stop.value.found)))
    case StopCancels(r) => t.(runners := t.runners[r := t.runners[r].(cancelled := true)])
    case StopWaits => t.(stop := Some(Joining(t.stop.value.found)))
    case StopUnlocks => t.(fence := Free, stop := None)
    case OtherLocks => t.(fence := ByOther)
    case OtherUnlocks => t.(fence := Free)
    case Shutdown => t.(lifeClosed := true)
    case ShutdownCancels(r) => t.(runners := t.runners[r := t.runners[r].(cancelled := true)])
  }

  // ----- what holds of every runner in every reachable state -----

  /** Not yet removed from the registry. */
  predicate StillRegistered(pc: Pc) {
    pc.Working? || pc.Read? || pc.Removing? || pc.WaitsCancellably?
    || ((pc.Fenced? || pc.Unfenced?) && !pc.released)
  }

  predicate DoneOpen(pc: Pc) { StillRegistered(pc) || pc.Completing? || pc.FencedRemoved? || pc.UnfencedRemoved? }

  predicate HoldsFence(pc: Pc) { pc.Fenced? || pc.FencedRemoved? || pc.FencedDone? }

  predicate RunnerOk(t: Tree, r: nat)
    requires r in t.runners
  {
    var x := t.runners[r];
    && x.closes == (if DoneOpen(x.pc) then 0 else 1)
    && x.returned == (if StillRegistered(x.pc) then 0 else 1)
    && (StillRegistered(x.pc) <==> x.session in t.byId && t.byId[x.session] == r)
    && (HoldsFence(x.pc) <==> t.fence == ByRunner(r))
  }

  predicate Inv(t: Tree) {
    && (forall r | r in t.runners :: RunnerOk(t, r))
    && (forall s | s in t.byId :: t.byId[s] in t.runners && t.runners[t.byId[s]].session == s)
    && (t.fence.ByRunner? ==> t.fence.r in t.runners)
    && (t.stop.Some? <==> t.fence.ByStop?)
    && (t.stop.Some? ==> forall r | r in t.stop.value.found :: r in t.runners)
    && (t.stop.Some? && t.stop.value.Joining? ==> forall r | r in t.stop.value.found :: t.runners[r].cancelled)
  }

  predicate Own(e: Step, r: nat) {
    (e.LeaveLoop? || e.ReadContext? || e.Remove? || e.Complete? || e.AcquireFence? || e.FenceLookupFails?
     || e.ContextDone? || e.FinishFenced? || e.Unlock?) && e.r == r
  }

  lemma OwnRemoveKeepsRunnerOk(t: Tree, r: nat)
    requires Inv(t) && Enabled(t, Remove(r))
    ensures RunnerOk(Take(t, Remove(r)), r)
  {
    assert RunnerOk(t, r);
    var x := t.runners[r];
    if StillRegistered(x.pc) {
      var d := Drop(t, x.session);
      assert d.runners[r] == x.(returned := x.returned + 1) && x.session !in d.byId;
    }
  }

  lemma OwnMoveKeepsRunnerOk(t: Tree, e: Step, r: nat)
    requires Inv(t) && Enabled(t, e) && Own(e, r) && !e.Remove?
    ensures RunnerOk(Take(t, e), r)
  {
    assert RunnerOk(t, r);
    var u := Take(t, e);
    assert u.byId == t.byId && u.runners[r].session == t.runners[r].session;
  }

  /** Another runner's removal drops that runner's registration, never this one's. */
  lemma OtherRemoveKeepsRunnerOk(t: Tree, e: Step, r: nat)
    requires Inv(t) && Enabled(t, e) && e.Remove? && e.r != r && r in t.runners
    ensures r in Take(t, e).runners && RunnerOk(Take(t, e), r)
  {
    assert RunnerOk(t, r) && RunnerOk(t, e.r);
    assert Take(t, e).runners[r] == t.runners[r];
  }

  lemma OtherStepKeepsRunnerOk(t: Tree, e: Step, r: nat)
    requires Inv(t) && Enabled(t, e) && !Own(e, r) && !e.Remove? && r in Take(t, e).runners
    ensures RunnerOk(Take(t, e), r)
  {
    if r in t.runners { assert RunnerOk(t, r); }
    if e.AcquireFence? || e.Unlock? || e.FinishFenced? { assert RunnerOk(t, e.r); }
  }

  lemma StepKeepsRunnerOk(t: Tree, e: Step, r: nat)
    requires Inv(t) && Enabled(t, e) && r in Take(t, e).runners
    ensures RunnerOk(Take(t, e), r)
  {
    if e.Remove? && e.r == r { OwnRemoveKeepsRunnerOk(t, r); }
    else if Own(e, r) { OwnMoveKeepsRunnerOk(t, e, r); }
    else if e.Remove? { OtherRemoveKeepsRunnerOk(t, e, r); }
    else { OtherStepKeepsRunnerOk(t, e, r); }
  }

  lemma StepKeepsRegistry(t: Tree, e: Step)
    requires Inv(t) && Enabled(t, e)
    ensures forall s | s in Take(t, e).byId ::
      Take(t, e).byId[s] in Take(t, e).runners && Take(t, e).runners[Take(t, e).byId[s]].session == s
  {
    var u := Take(t, e);
    forall s | s in u.byId ensures u.byId[s] in u.runners && u.runners[u.byId[s]].session == s {
      if s in t.byId { assert t.byId[s] in t.runners && t.runners[t.byId[s]].session == s; }
    }
  }

  lemma StepKeepsRunners(t: Tree, e: Step)
    requires Enabled(t, e)
    ensures forall r | r in t.runners ::
      r in Take(t, e).runners && (t.runners[r].cancelled ==> Take(t, e).runners[r].cancelled)
  {}

  lemma StepKeepsStop(t: Tree, e: Step)
    requires Inv(t) && Enabled(t, e)
    ensures
      var u := Take(t, e);
      && (u.fence.ByRunner? ==> u.fence.r in u.runners)
      && (u.stop.Some? <==> u.fence.ByStop?)
      && (u.stop.Some? ==> forall r | r in u.stop.value.found :: r in u.runners)
      && (u.stop.Some? && u.stop.value.Joining? ==> forall r | r in u.stop.value.found :: u.runners[r].cancelled)
  {
    StepKeepsRegistry(t, e);
    StepKeepsRunners(t, e);
    if e.Unlock? { assert RunnerOk(t, e.r); }
  }

  lemma StepKeepsInv(t: Tree, e: Step)
    requires Inv(t) && Enabled(t, e)
    ensures Inv(Take(t, e))
  {
    StepKeepsRegistry(t, e);
    StepKeepsStop(t, e);
    forall r | r in Take(t, e).runners ensures RunnerOk(Take(t, e), r) { StepKeepsRunnerOk(t, e, r); }
  }

  ghost predicate ReachedIn(n: nat, t: Tree) {
    if n == 0 then t == QUIET
    else exists b: Tree, e: Step :: ReachedIn(n - 1, b) && Enabled(b, e) && t == Take(b, e)
  }

  lemma {:induction false} InvOverRuns(n: nat, t: Tree)
    requires ReachedIn(n, t)
    ensures Inv(t)
  {
    if n > 0 {
      var b: Tree, e: Step :| ReachedIn(n - 1, b) && Enabled(b, e) && t == Take(b, e);
      InvOverRuns(n - 1, b);
      StepKeepsInv(b, e);
    }
  }

  /** `done` is never closed twice and the slot never returned twice; a runner that is gone has
      done both, and has left the fence and the registry. */
  lemma ExitHappensOnce(n: nat, t: Tree, r: nat)
    requires ReachedIn(n, t) && r in t.runners
    ensures t.runners[r].closes <= 1 && t.runners[r].returned <= 1
    ensures t.runners[r].pc.Gone? ==>
      t.runners[r].closes == 1 && t.runners[r].returned == 1 && t.fence != ByRunner(r)
      && forall s | s in t.byId :: t.byId[s] != r
  {
    InvOverRuns(n, t);
    assert RunnerOk(t, r);
  }

  // ----- no deadlock between a joining fence holder and the runners it joins -----

  /** How far a runner is from closing `done`, without the fence. */
  function Distance(pc: Pc): nat {
    match pc
    case Working => 5
    case Read(_) => 4
    case WaitsCancellably => 3
    case Removing(_) => 2
    case Completing(_) => 1
    case Fenced(released) => if released then 0 else 2
    case Unfenced(released) => if released then 0 else 2
    case FencedRemoved => 1
    case UnfencedRemoved => 1
    case _ => 0
  }

  /** The runner's own next step towards `done` once it has been cancelled. */
  function NextOwn(r: nat, pc: Pc): Step {
    match pc
    case Working => LeaveLoop(r)
    case Read(_) => ReadContext(r)
    case WaitsCancellably => ContextDone(r)
    case Completing(_) => Complete(r)
    case FencedRemoved => FinishFenced(r)
    case UnfencedRemoved => FinishFenced(r)
    case _ => Remove(r)
  }

  /** While a stop holds the fence and joins a runner whose `done` is open, that runner does not
      wait uncancellably and always has an enabled step of its own that brings it closer. */
  lemma JoinedRunnerCanAlwaysFinish(n: nat, t: Tree, r: nat)
    requires ReachedIn(n, t) && t.stop.Some? && t.stop.value.Joining? && r in t.stop.value.found
    ensures r in t.runners && t.runners[r].cancelled
    ensures t.runners[r].closes == 0 ==>
      && !t.runners[r].pc.WaitsUncancellably?
      && Enabled(t, NextOwn(r, t.runners[r].pc))
      && Distance(Take(t, NextOwn(r, t.runners[r].pc)).runners[r].pc) < Distance(t.runners[r].pc)
    ensures t.runners[r].closes == 0 <==> Distance(t.runners[r].pc) > 0
  {
    InvOverRuns(n, t);
    assert RunnerOk(t, r);
  }

  /** No step of anyone moves a cancelled runner further from `done`. */
  lemma NobodyPushesRunnerBack(n: nat, t: Tree, e: Step, r: nat)
    requires ReachedIn(n, t) && Enabled(t, e) && r in t.runners && t.runners[r].cancelled
    ensures r in Take(t, e).runners && Take(t, e).runners[r].cancelled
    ensures Distance(Take(t, e).runners[r].pc) <= Distance(t.runners[r].pc)
  {
    InvOverRuns(n, t);
    if Own(e, r) {
      OwnStepIsCloser(t, e, r);
    } else {
      OthersKeepPlace(t, e, r);
    }
  }

  lemma OwnStepIsCloser(t: Tree, e: Step, r: nat)
    requires Inv(t) && Enabled(t, e) && Own(e, r) && t.runners[r].cancelled
    ensures r in Take(t, e).runners && Take(t, e).runners[r].cancelled
    ensures Distance(Take(t, e).runners[r].pc) <= Distance(t.runners[r].pc)
  {
    assert RunnerOk(t, r);
  }

  /** The other actors' steps leave a runner where it is. */
  lemma OthersKeepPlace(t: Tree, e: Step, r: nat)
    requires Inv(t) && Enabled(t, e) && !Own(e, r) && r in t.runners
    ensures r in Take(t, e).runners && Take(t, e).runners[r].pc == t.runners[r].pc
    ensures t.runners[r].cancelled ==> Take(t, e).runners[r].cancelled
  {
    assert RunnerOk(t, r);
    if e.Remove? { assert RunnerOk(t, e.r); }
  }

  /** The stop's own steps, and the runners' it joins that need neither the fence nor a failed lookup. */
  predicate Helps(t: Tree, e: Step) {
    && Enabled(t, e) && t.stop.Some?
    && (e.StopSignals? || e.StopCancels? || e.StopWaits? || e.StopUnlocks?
        || ((e.LeaveLoop? || e.ReadContext? || e.ContextDone? || e.Remove? || e.Complete? || e.FinishFenced?)
            && e.r in t.stop.value.found))
  }

  ghost predicate EndsIn(n: nat, t: Tree) {
    if n == 0 then t.stop.None? && t.fence.Free?
    else exists e: Step :: Helps(t, e) && EndsIn(n - 1, Take(t, e))
  }

  ghost predicate StopCanEnd(t: Tree) { exists n: nat :: EndsIn(n, t) }

  lemma EndsAfter(t: Tree, e: Step)
    requires Helps(t, e) && StopCanEnd(Take(t, e))
    ensures StopCanEnd(t)
  {
    var n: nat :| EndsIn(n, Take(t, e));
    assert EndsIn(n + 1, t);
  }

  function Open(t: Tree): set<nat>
    requires t.stop.Some?
  {
    set r | r in t.stop.value.found && r in t.runners && t.runners[r].closes == 0
  }

  function Uncancelled(t: Tree): set<nat>
    requires t.stop.Some?
  {
    set r | r in t.stop.value.found && r in t.runners && !t.runners[r].cancelled
  }

  lemma OwnStepTouchesNoOther(t: Tree, e: Step, r: nat)
    requires Inv(t) && Enabled(t, e) && Own(e, r)
    ensures Take(t, e).stop == t.stop && Take(t, e).runners.Keys == t.runners.Keys
    ensures forall q | q in t.runners && q != r :: Take(t, e).runners[q].closes == t.runners[q].closes
  {}

  lemma NextOwnHelps(t: Tree, r: nat)
    requires Inv(t) && t.stop.Some? && t.stop.value.Joining? && r in Open(t)
    ensures
      var e := NextOwn(r, t.runners[r].pc);
      Helps(t, e) && Own(e, r) && Distance(Take(t, e).runners[r].pc) < Distance(t.runners[r].pc)
  {
    assert RunnerOk(t, r) && t.runners[r].cancelled;
  }

  lemma OneStepCloser(t: Tree, r: nat)
    requires Inv(t) && t.stop.Some? && t.stop.value.Joining? && r in Open(t)
    ensures
      var e := NextOwn(r, t.runners[r].pc);
      && Helps(t, e) && Take(t, e).stop == t.stop && Inv(Take(t, e))
      && Distance(Take(t, e).runners[r].pc) < Distance(t.runners[r].pc)
      && Open(Take(t, e)) == if Distance(Take(t, e).runners[r].pc) == 0 then Open(t) - {r} else Open(t)
  {
    NextOwnHelps(t, r);
    var e := NextOwn(r, t.runners[r].pc);
    StepKeepsInv(t, e);
    OwnStepTouchesNoOther(t, e, r);
    assert RunnerOk(Take(t, e), r);
  }

  lemma {:induction false} JoinEnds(t: Tree, r: nat)
    requires Inv(t) && t.stop.Some? && t.stop.value.Joining? && (Open(t) != {} ==> r in Open(t))
    ensures StopCanEnd(t)
    decreases |Open(t)|, if r in t.runners then Distance(t.runners[r].pc) else 0
  {
    if Open(t) == {} {
      forall q | q in t.stop.value.found && q in t.runners ensures t.runners[q].closes > 0 {
        assert q !in Open(t);
      }
      assert EndsIn(0, Take(t, StopUnlocks));
      EndsAfter(t, StopUnlocks);
    } else {
      OneStepCloser(t, r);
      var e := NextOwn(r, t.runners[r].pc);
      var u := Take(t, e);
      var next := if r in Open(u) || Open(u) == {} then r else var q :| q in Open(u); q;
      JoinEnds(u, next);
      EndsAfter(t, e);
    }
  }

  lemma {:induction false} SignalEnds(t: Tree)
    requires Inv(t) && t.stop.Some? && t.stop.value.Cancelling?
    ensures StopCanEnd(t)
    decreases |Uncancelled(t)|
  {
    if Uncancelled(t) == {} {
      forall q | q in t.stop.value.found && q in t.runners ensures t.runners[q].cancelled {
        assert q !in Uncancelled(t);
      }
      var u := Take(t, StopWaits);
      StepKeepsInv(t, StopWaits);
      JoinEnds(u, if Open(u) == {} then 0 else var q :| q in Open(u); q);
      EndsAfter(t, StopWaits);
    } else {
      var r :| r in Uncancelled(t);
      StepKeepsInv(t, StopCancels(r));
      assert Uncancelled(Take(t, StopCancels(r))) == Uncancelled(t) - {r};
      SignalEnds(Take(t, StopCancels(r)));
      EndsAfter(t, StopCancels(r));
    }
  }

  /** No deadlock: from wherever a stop is, its own steps and those of the runners it joins bring it
      to the point where it gives the fence back, whoever else waits for that fence. */
  lemma StopCanAlwaysEnd(n: nat, t: Tree)
    requires ReachedIn(n, t) && t.stop.Some?
    ensures StopCanEnd(t)
  {
    InvOverRuns(n, t);
    if t.stop.value.Loading? {
      StepKeepsInv(t, StopSignals);
      SignalEnds(Take(t, StopSignals));
      EndsAfter(t, StopSignals);
    } else if t.stop.value.Cancelling? {
      SignalEnds(t);
    } else {
      JoinEnds(t, if Open(t) == {} then 0 else var q :| q in Open(t); q);
    }
  }

  /** `t` is `n` steps after `b`, and the stop of `b` has not ended on the way. */
  ghost predicate During(n: nat, b: Tree, t: Tree) {
    if n == 0 then t == b
    else exists m: Tree, e: Step :: During(n - 1, b, m) && Enabled(m, e) && !e.StopUnlocks? && t == Take(m, e)
  }

  lemma FoundGrows(t: Tree, e: Step)
    requires Inv(t) && t.stop.Some? && Enabled(t, e) && !e.StopUnlocks?
    ensures Take(t, e).stop.Some? && t.stop.value.found <= Take(t, e).stop.value.found
  {}

  lemma {:induction false} FoundStays(n: nat, b: Tree, t: Tree)
    requires Inv(b) && b.stop.Some? && During(n, b, t)
    ensures Inv(t) && t.stop.Some? && b.stop.value.found <= t.stop.value.found
  {
    if n > 0 {
      var m: Tree, e: Step :| During(n - 1, b, m) && Enabled(m, e) && !e.StopUnlocks? && t == Take(m, e);
      FoundStays(n - 1, b, m);
      FoundGrows(m, e);
      StepKeepsInv(m, e);
    }
  }

  /** When a stop gives the fence back, every runner registered under a session it loaded has been
      cancelled, has given its slot back and closed `done`, and is out of the registry. */
  lemma StopOutlastsWhatItLoaded(i: nat, b: Tree, session: int, n: nat, t: Tree)
    requires ReachedIn(i, b) && Enabled(b, StopLoads(session))
    requires During(n, Take(b, StopLoads(session)), t) && Enabled(t, StopUnlocks)
    ensures
      var r := b.byId[session];
      && r in t.runners && t.runners[r].cancelled && t.runners[r].closes == 1 && t.runners[r].returned == 1
      && forall q | q in t.byId :: t.byId[q] != r
  {
    InvOverRuns(i, b);
    StepKeepsInv(b, StopLoads(session));
    FoundStays(n, Take(b, StopLoads(session)), t);
    assert RunnerOk(t, b.byId[session]);
  }

  // ----- who may leave without the fence -----

  predicate ClosingSeen(pc: Pc) { (pc.Read? || pc.Removing? || pc.Completing?) && pc.closing }

  predicate LeavesFor(t: Tree, x: Runner) {
    && (ClosingSeen(x.pc) ==> t.lifeClosed)
    && (x.pc.Removing? ==> x.cancelled || x.pc.closing)
  }

  lemma ClosingLasts(t: Tree, e: Step)
    requires Enabled(t, e) && t.lifeClosed
    ensures Take(t, e).lifeClosed
  {}

  lemma OwnStepKeepsReason(t: Tree, e: Step, r: nat)
    requires Inv(t) && Enabled(t, e) && Own(e, r) && LeavesFor(t, t.runners[r])
    ensures r in Take(t, e).runners && LeavesFor(Take(t, e), Take(t, e).runners[r])
  {
    assert RunnerOk(t, r);
    if t.lifeClosed { ClosingLasts(t, e); }
  }

  lemma NewRunnerWorks(t: Tree, e: Step, r: nat)
    requires Enabled(t, e) && r !in t.runners && r in Take(t, e).runners
    ensures Take(t, e).runners[r].pc.Working?
  {}

  lemma OtherStepKeepsReason(t: Tree, e: Step, r: nat)
    requires Inv(t) && Enabled(t, e) && !Own(e, r) && r in t.runners && LeavesFor(t, t.runners[r])
    ensures r in Take(t, e).runners && LeavesFor(Take(t, e), Take(t, e).runners[r])
  {
    OthersKeepPlace(t, e, r);
    if t.lifeClosed { ClosingLasts(t, e); }
  }

  ghost predicate Reasoned(t: Tree) { Inv(t) && forall r | r in t.runners :: LeavesFor(t, t.runners[r]) }

  lemma StepKeepsReasoned(t: Tree, e: Step)
    requires Reasoned(t) && Enabled(t, e)
    ensures Reasoned(Take(t, e))
  {
    StepKeepsInv(t, e);
    forall r | r in Take(t, e).runners ensures LeavesFor(Take(t, e), Take(t, e).runners[r]) {
      if r !in t.runners { NewRunnerWorks(t, e, r); }
      else if Own(e, r) { OwnStepKeepsReason(t, e, r); }
      else { OtherStepKeepsReason(t, e, r); }
    }
  }

  lemma {:induction false} ReasonedOverRuns(n: nat, t: Tree)
    requires ReachedIn(n, t)
    ensures Reasoned(t)
  {
    if n > 0 {
      var b: Tree, e: Step :| ReachedIn(n - 1, b) && Enabled(b, e) && t == Take(b, e);
      ReasonedOverRuns(n - 1, b);
      StepKeepsReasoned(b, e);
    }
  }

  /** A runner nobody cancelled, in a daemon that is not closing, gives its slot back holding the
      fence, unless the session could not be looked up. */
  lemma UncancelledExitIsFenced(n: nat, t: Tree, r: nat)
    requires ReachedIn(n, t) && Enabled(t, Remove(r)) && !t.runners[r].cancelled && !t.lifeClosed
    requires Take(t, Remove(r)).runners[r].returned > t.runners[r].returned
    ensures t.fence == ByRunner(r) || t.runners[r].pc == Unfenced(false)
  {
    ReasonedOverRuns(n, t);
    assert RunnerOk(t, r);
  }

  /** Whoever holds the fence, a runner that ends while the daemon closes leaves without it. */
  lemma ClosingRunnerNeedsNoFence(n: nat, t: Tree, r: nat)
    requires ReachedIn(n, t) && r in t.runners && t.runners[r].pc.Working?
    ensures
      && Enabled(t, Shutdown) && var a := Take(t, Shutdown);
      && Enabled(a, LeaveLoop(r)) && var b := Take(a, LeaveLoop(r));
      && Enabled(b, ReadContext(r)) && var c := Take(b, ReadContext(r));
      && Enabled(c, Remove(r)) && var d := Take(c, Remove(r));
      && Enabled(d, Complete(r)) && var u := Take(d, Complete(r));
      && u.runners[r].pc.Gone? && u.runners[r].closes == 1 && u.runners[r].returned == 1 && u.fence == t.fence
  {
    InvOverRuns(n, t);
    assert RunnerOk(t, r);
    var x := t.runners[r];
    var c := Take(Take(Take(t, Shutdown), LeaveLoop(r)), ReadContext(r));
    assert c.byId == t.byId && c.runners[r] == x.(pc := Removing(true));
  }

  /** A closing daemon cancels any runner, and the runner's wait for the fence then ends. */
  lemma ShutdownEndsAnyWait(t: Tree, r: nat)
    requires r in t.runners && t.runners[r].pc.WaitsCancellably?
    ensures
      && Enabled(t, Shutdown) && Enabled(Take(t, Shutdown), ShutdownCancels(r))
      && Enabled(Take(Take(t, Shutdown), ShutdownCancels(r)), ContextDone(r))
  {}

  /** A session without a runner can be given one whenever the fence is free. */
  lemma StartRegisters(n: nat, t: Tree, r: nat, session: int)
    requires ReachedIn(n, t) && t.fence.Free? && r !in t.runners && session !in t.byId
    ensures
      && Enabled(t, OtherLocks) && var a := Take(t, OtherLocks);
      && Enabled(a, Register(r, session)) && var b := Take(a, Register(r, session));
      && Enabled(b, OtherUnlocks) && var u := Take(b, OtherUnlocks);
      && u.fence.Free? && u.stop == t.stop && u.byId == t.byId[session := r]
      && u.runners == t.runners[r := Runner(session, false, Working, 0, 0)]
  {
    InvOverRuns(n, t);
  }

  // ----- the exit path of one runner, statement by statement -----

  ghost predicate Reachable(t: Tree) { exists n: nat :: ReachedIn(n, t) }

  lemma NextReachable(t: Tree, e: Step)
    requires Reachable(t) && Enabled(t, e)
    ensures Reachable(Take(t, e)) && Inv(t)
  {
    var n: nat :| ReachedIn(n, t);
    InvOverRuns(n, t);
    assert ReachedIn(n + 1, Take(t, e));
  }

  /** How a wait for the fence ends: with the lock, a failed session lookup, or an ended context. */
  datatype Answer = Locked | LookupFailed | ContextEnded

  function AnswerStep(a: Answer, r: nat): Step {
    match a
    case Locked => AcquireFence(r)
    case LookupFailed => FenceLookupFails(r)
    case ContextEnded => ContextDone(r)
  }

  /** What the other actors try to do at each point of the exit path. */
  type Others = nat -> seq<Step>

  /** One runner of a tree it shares with everyone else. */
  class LiveRunner {
    const r: nat
    var tree: Tree

    constructor (r: nat, tree: Tree)
      ensures this.r == r && this.tree == tree
    {
      this.r, this.tree := r, tree;
    }

    ghost predicate At(pc: Pc)
      reads this
    {
      Reachable(tree) && r in tree.runners && tree.runners[r].pc == pc
    }

    /** One step of the machine, then whatever the others do before the next one. */
    method Do(e: Step, others: seq<Step>)
      requires Reachable(tree) && Own(e, r) && Enabled(tree, e)
      modifies this
      ensures At(Take(old(tree), e).runners[r].pc)
    {
      NextReachable(tree, e);
      tree := Take(tree, e);
      ghost var pc := tree.runners[r].pc;
      var i := 0;
      while i < |others|
        invariant 0 <= i <= |others| && At(pc)
      {
        if Enabled(tree, others[i]) && !Own(others[i], r) {
          NextReachable(tree, others[i]);
          OthersKeepPlace(tree, others[i], r);
          tree := Take(tree, others[i]);
        }
        i := i + 1;
      }
    }

    method ReleaseRunner(closing: bool, others: Others)
      requires At(Removing(closing))
      modifies this
      ensures At(if closing then Gone else WaitsUncancellably)
    {
      Do(Remove(r), others(2));
      Do(Complete(r), others(3));
    }

    /** Waits for the fence; false while the wait cannot end in the given way. */
    method Await(a: Answer, others: seq<Step>) returns (ended: bool)
      requires At(WaitsCancellably) || At(WaitsUncancellably)
      modifies this
      ensures !ended ==> tree == old(tree)
      ensures ended && a.ContextEnded? ==> old(At(WaitsCancellably)) && At(Removing(false))
      ensures ended && a.Locked? ==> At(Fenced(old(At(WaitsUncancellably))))
      ensures ended && a.LookupFailed? ==> At(Unfenced(old(At(WaitsUncancellably))))
    {
      ended := Enabled(tree, AnswerStep(a, r));
      if ended { Do(AnswerStep(a, r), others); }
    }

    /** `released` selects the uncancellable wait; otherwise an ended context releases the join first. */
    method FinishFence(released: bool, first: Answer, second: Answer, others: Others)
        returns (ended: bool, releasedNow: bool)
      requires At(if released then WaitsUncancellably else WaitsCancellably)
      modifies this
      ensures !ended ==> At(WaitsCancellably) || At(WaitsUncancellably)
      ensures ended ==> At(Fenced(released || releasedNow)) || At(Unfenced(released || releasedNow))
      ensures releasedNow ==> !released && first.ContextEnded?
      ensures ended && !released ==> (releasedNow <==> first.ContextEnded?)
    {
      releasedNow := false;
      ended := Await(first, others(4));
      if !ended || !first.ContextEnded? { return; }
      ReleaseRunner(false, others);
      releasedNow := true;
      ended := Await(second, others(5));
    }

    /** Gives back what is not given back yet, then the fence if it was taken. */
    method LeaveFence(released: bool, others: Others)
      requires At(Fenced(released)) || At(Unfenced(released))
      modifies this
      ensures At(Gone)
    {
      Do(Remove(r), others(6));
      if !released { Do(FinishFenced(r), others(7)); }
      if tree.runners[r].pc.FencedDone? { Do(Unlock(r), others(8)); }
    }

    /** The whole exit is a run of the machine, in step with everyone else. It can be held up only
        waiting for the fence; otherwise the runner is gone, its slot given back and its `done`
        closed once each, the fence left. */
    method FinishRunner(first: Answer, second: Answer, others: Others) returns (gone: bool)
      requires At(Working)
      modifies this
      ensures Reachable(tree) && r in tree.runners
      ensures gone ==>
        && tree.runners[r].pc.Gone? && tree.runners[r].closes == 1 && tree.runners[r].returned == 1
        && tree.fence != ByRunner(r) && forall s | s in tree.byId :: tree.byId[s] != r
      ensures !gone ==> At(WaitsCancellably) || At(WaitsUncancellably)
    {
      var closing := tree.lifeClosed;
      Do(LeaveLoop(r), others(0));
      var released := tree.runners[r].cancelled || closing;
      Do(ReadContext(r), others(1));
      if released { ReleaseRunner(closing, others); }
      if !closing {
        var ended, releasedNow := FinishFence(released, first, second, others);
        if !ended { return false; }
        LeaveFence(released || releasedNow, others);
      }
      ghost var n: nat :| ReachedIn(n, tree);
      ExitHappensOnce(n, tree, r);
      return true;
    }
  }
}
