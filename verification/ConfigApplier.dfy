/** The applier that serializes configuration changes inside one daemon process: a single claim
    flag, and per session the staged calls waiting to be applied or answered. */
module ConfigApplier {

  import opened Options

  type Cand = nat

  datatype Key = Key(session: int, call: string)

  /** A staged call: the candidate not yet taken, and whether its result is waiting. */
  datatype Call = Call(apply: Option<Cand>, answered: bool)

  datatype Fate = Committed | Answered | Withdrawn

  datatype End = End(cand: Cand, fate: Fate)

  /** What a goroutine is in the middle of, between two locked sections. */
  datatype Pc =
    | Staging(key: Key, cand: Cand)
    | Taken(key: Key, cand: Cand)
    | Refused(key: Key, cand: Cand)
    | Answering(key: Key, cand: Cand)
    | Withdrawing(key: Key, cand: Cand)
    | Settling(todo: set<Key>)

  /** `used`, `seen`, `taken` and `ended` are history: calls and candidates ever staged,
      candidates ever taken, and how taken ones ended. */
  datatype State = State(
    claimed: bool, calls: map<Key, Call>, workers: map<nat, Pc>,
    used: set<Key>, seen: set<Cand>, taken: set<Cand>, ended: seq<End>)

  const BOOT := State(false, map[], map[], {}, {}, {}, [])

  datatype Step =
    | Claim(w: nat, key: Key, cand: Cand)
    | Insert(w: nat)
    | TakePending(w: nat, key: Key)
    | GiveBack(w: nat, fate: Fate)
    | Commit(w: nat, ok: bool)
    | Answer(w: nat)
    | Withdraw(w: nat)
    | Snapshot(w: nat, session: int)
    | Resolve(w: nat, key: Key)
    | Leave(w: nat)

  predicate Waiting(s: State, k: Key) { k in s.calls && s.calls[k].apply.Some? }

  predicate Enabled(s: State, e: Step, reuse: bool) {
    match e
    case Claim(w, key, cand) => w !in s.workers && !s.claimed && cand !in s.seen && (reuse || key !in s.used)
    case Insert(w) => w in s.workers && s.workers[w].Staging?
    case TakePending(w, key) => w !in s.workers && Waiting(s, key)
    case GiveBack(w, fate) =>
      && w in s.workers
      && ((s.workers[w].Taken? && !fate.Committed?) || (s.workers[w].Refused? && fate.Answered?))
    case Commit(w, _) => w in s.workers && s.workers[w].Taken?
    case Answer(w) => w in s.workers && s.workers[w].Answering?
    case Withdraw(w) => w in s.workers && s.workers[w].Withdrawing?
    case Snapshot(w, _) => w !in s.workers
    case Resolve(w, key) => w in s.workers && s.workers[w].Settling? && key in s.workers[w].todo
    case Leave(w) => w in s.workers && s.workers[w].Settling?
  }

  function Results(calls: map<Key, Call>, session: int): set<Key> {
    set k | k in calls && k.session == session && calls[k].answered
  }

  function Take(s: State, e: Step): State
    requires Enabled(s, e, true)
  {
    match e
    case Claim(w, key, cand) =>
      s.(claimed := true, workers := s.workers[w := Staging(key, cand)], used := s.used + {key},
        seen := s.seen + {cand})
    case Insert(w) =>
      var p := s.workers[w];
      s.(calls := s.calls[p.key := Call(Some(p.cand), false)], workers := s.workers - {w})
    case TakePending(w, key) =>
      var c := s.calls[key];
      s.(calls := s.calls[key := c.(apply := None)], workers := s.workers[w := Taken(key, c.apply.value)],
         taken := s.taken + {c.apply.value})
    case GiveBack(w, fate) =>
      var p := s.workers[w];
      var next := if fate.Answered? then Answering(p.key, p.cand) else Withdrawing(p.key, p.cand);
      s.(claimed := false, workers := s.workers[w := next])
    case Commit(w, ok) =>
      var p := s.workers[w];
      if ok then s.(workers := s.workers - {w}, ended := s.ended + [End(p.cand, Committed)])
      else s.(workers := s.workers[w := Refused(p.key, p.cand)])
    case Answer(w) =>
      var p := s.workers[w];
      s.(calls := s.calls[p.key := Call(None, true)], workers := s.workers - {w},
         ended := s.ended + [End(p.cand, Answered)])
    case Withdraw(w) =>
      var p := s.workers[w];
      s.(calls := s.calls - {p.key}, workers := s.workers - {w}, ended := s.ended + [End(p.cand, Withdrawn)])
    case Snapshot(w, session) => s.(workers := s.workers[w := Settling(Results(s.calls, session))])
    case Resolve(w, key) =>
      s.(calls := s.calls - {key}, workers := s.workers[w := Settling(s.workers[w].todo - {key})])
    case Leave(w) => s.(workers := s.workers - {w})
  }

  ghost predicate ReachedIn(n: nat, s: State, reuse: bool) {
    if n == 0 then s == BOOT
    else exists b: State, e: Step :: ReachedIn(n - 1, b, reuse) && Enabled(b, e, reuse) && s == Take(b, e)
  }

  ghost predicate Reachable(s: State, reuse: bool) { exists n: nat :: ReachedIn(n, s, reuse) }

  // ----- one candidate at a time -----

  /** Where a candidate can be: staged in a call, in a goroutine's hands, or committed. */
  datatype Place = InCall(key: Key) | InHand(w: nat) | OnDisk(i: nat)

  predicate Holds(p: Pc) { p.Staging? || p.Taken? || p.Refused? }

  predicate At(s: State, p: Place) {
    match p
    case InCall(key) => Waiting(s, key)
    case InHand(w) => w in s.workers && Holds(s.workers[w])
    case OnDisk(i) => i < |s.ended| && s.ended[i].fate.Committed?
  }

  ghost predicate Single(s: State) {
    && (forall p, q | At(s, p) && At(s, q) :: p == q)
    && (forall p | At(s, p) :: s.claimed)
  }

  /** Where the place `p` of the new state was before the step. */
  function Before(s: State, e: Step, p: Place): Place
    requires Enabled(s, e, true)
  {
    match e
    case Insert(w) => if p == InCall(s.workers[w].key) then InHand(w) else p
    case TakePending(w, key) => if p == InHand(w) then InCall(key) else p
    case Commit(w, ok) => if ok && p == OnDisk(|s.ended|) then InHand(w) else p
    case _ => p
  }

  lemma StepMovesPlaces(s: State, e: Step, p: Place)
    requires Enabled(s, e, true) && At(Take(s, e), p)
    ensures At(s, Before(s, e, p)) || (e.Claim? && p == InHand(e.w))
    ensures e.GiveBack? ==> p != InHand(e.w)
  {}

  lemma StepKeepsSingle(s: State, e: Step)
    requires Enabled(s, e, true) && Single(s)
    ensures Single(Take(s, e))
  {
    var t := Take(s, e);
    forall p, q | At(t, p) && At(t, q) ensures p == q {
      StepMovesPlaces(s, e, p);
      StepMovesPlaces(s, e, q);
    }
    forall p | At(t, p) ensures t.claimed {
      StepMovesPlaces(s, e, p);
      if e.GiveBack? { assert At(s, InHand(e.w)); }
    }
  }

  // ----- every taken candidate ends exactly once -----

  predicate Owns(p: Pc) { p.Taken? || p.Refused? || p.Answering? || p.Withdrawing? }

  predicate EndedAs(s: State, c: Cand, i: nat) { i < |s.ended| && s.ended[i].cand == c }

  predicate Owned(s: State, c: Cand, w: nat) { w in s.workers && Owns(s.workers[w]) && s.workers[w].cand == c }

  predicate Untaken(s: State, c: Cand) { c in s.seen && c !in s.taken }

  ghost predicate Accounted(s: State) {
    && s.taken <= s.seen
    && (forall w | w in s.workers && s.workers[w].Staging? :: Untaken(s, s.workers[w].cand))
    && (forall k | Waiting(s, k) :: Untaken(s, s.calls[k].apply.value))
    && (forall c, w | Owned(s, c, w) :: c in s.taken)
    && (forall c, i | EndedAs(s, c, i) :: c in s.taken)
    && (forall c, v, w | Owned(s, c, v) && Owned(s, c, w) :: v == w)
    && (forall c, i, j | EndedAs(s, c, i) && EndedAs(s, c, j) :: i == j)
    && (forall c, i, w | EndedAs(s, c, i) && Owned(s, c, w) :: false)
    && (forall c | c in s.taken :: (exists i :: EndedAs(s, c, i)) || exists w :: Owned(s, c, w))
  }

  /** The owner of `c` after a step was its owner before, unless the step took it. */
  lemma OwnerBefore(s: State, e: Step, c: Cand, w: nat)
    requires Enabled(s, e, true) && Owned(Take(s, e), c, w)
    ensures Owned(s, c, w) || (e.TakePending? && w == e.w && c == s.calls[e.key].apply.value)
  {}

  lemma EndBefore(s: State, e: Step, c: Cand, i: nat)
    requires Enabled(s, e, true) && EndedAs(Take(s, e), c, i)
    ensures EndedAs(s, c, i)
      || (i == |s.ended| && (e.Commit? || e.Answer? || e.Withdraw?) && Owned(s, c, e.w) && !Owned(Take(s, e), c, e.w))
  {}

  lemma StillSomewhere(s: State, e: Step, c: Cand)
    requires Enabled(s, e, true) && c in Take(s, e).taken
    requires c in s.taken ==> (exists i :: EndedAs(s, c, i)) || exists w :: Owned(s, c, w)
    ensures (exists i :: EndedAs(Take(s, e), c, i)) || exists w :: Owned(Take(s, e), c, w)
  {
    var t := Take(s, e);
    if c !in s.taken {
      assert Owned(t, c, e.w);
    } else if i :| EndedAs(s, c, i) {
      assert EndedAs(t, c, i);
    } else {
      var w :| Owned(s, c, w);
      assert Owned(t, c, w) || EndedAs(t, c, |s.ended|);
    }
  }

  lemma StepKeepsUntaken(s: State, e: Step)
    requires Enabled(s, e, true) && Accounted(s) && Single(s)
    ensures Take(s, e).taken <= Take(s, e).seen
    ensures forall w | w in Take(s, e).workers && Take(s, e).workers[w].Staging? ::
      Untaken(Take(s, e), Take(s, e).workers[w].cand)
    ensures forall k | Waiting(Take(s, e), k) :: Untaken(Take(s, e), Take(s, e).calls[k].apply.value)
  {
    var t := Take(s, e);
    if e.TakePending? {
      assert At(s, InCall(e.key));
      if w :| w in t.workers && t.workers[w].Staging? { assert At(s, InHand(w)); assert false; }
      if k :| Waiting(t, k) { assert At(s, InCall(k)); assert false; }
    }
  }

  lemma StepKeepsAccounted(s: State, e: Step)
    requires Enabled(s, e, true) && Accounted(s) && Single(s)
    ensures Accounted(Take(s, e))
  {
    var t := Take(s, e);
    StepKeepsUntaken(s, e);
    forall c, w | Owned(t, c, w) ensures c in t.taken { OwnerBefore(s, e, c, w); }
    forall c, i | EndedAs(t, c, i) ensures c in t.taken { EndBefore(s, e, c, i); }
    forall c, v, w | Owned(t, c, v) && Owned(t, c, w) ensures v == w {
      OwnerBefore(s, e, c, v);
      OwnerBefore(s, e, c, w);
    }
    forall c, i, j | EndedAs(t, c, i) && EndedAs(t, c, j) ensures i == j {
      EndBefore(s, e, c, i);
      EndBefore(s, e, c, j);
    }
    forall c, i, w | EndedAs(t, c, i) && Owned(t, c, w) ensures false {
      EndBefore(s, e, c, i);
      OwnerBefore(s, e, c, w);
    }
    forall c | c in t.taken ensures (exists i :: EndedAs(t, c, i)) || exists w :: Owned(t, c, w) {
      StillSomewhere(s, e, c);
    }
  }

  lemma {:induction false} OverRuns(n: nat, s: State, reuse: bool)
    requires ReachedIn(n, s, reuse)
    ensures Single(s) && Accounted(s)
  {
    if n > 0 {
      var b: State, e: Step :| ReachedIn(n - 1, b, reuse) && Enabled(b, e, reuse) && s == Take(b, e);
      OverRuns(n - 1, b, reuse);
      StepKeepsSingle(b, e);
      StepKeepsAccounted(b, e);
    }
  }

  /** Over every run and all sessions: two places with a candidate are the same place, the claim
      is set whenever there is one, and a commit is never attempted after one succeeded. */
  lemma AtMostOneCandidate(s: State, reuse: bool, p: Place, q: Place)
    requires Reachable(s, reuse) && At(s, p) && At(s, q)
    ensures p == q && s.claimed
    ensures forall w, ok, i: nat | Enabled(s, Commit(w, ok), reuse) && i < |s.ended| :: !s.ended[i].fate.Committed?
  {
    var n: nat :| ReachedIn(n, s, reuse);
    OverRuns(n, s, reuse);
    forall w, ok, i: nat | Enabled(s, Commit(w, ok), reuse) && i < |s.ended| ensures !s.ended[i].fate.Committed? {
      assert At(s, InHand(w));
      if s.ended[i].fate.Committed? { assert At(s, OnDisk(i)); }
    }
  }

  /** A taken candidate is in one goroutine's hands or has ended, never both; it ends once, as
      committed, answered or withdrawn; and nothing ends that was not taken. */
  lemma TakenEndsExactlyOnce(s: State, reuse: bool, c: Cand)
    requires Reachable(s, reuse)
    ensures c in s.taken <==> (exists i :: EndedAs(s, c, i)) || exists w :: Owned(s, c, w)
    ensures forall i, j | EndedAs(s, c, i) && EndedAs(s, c, j) :: i == j
    ensures !((exists i :: EndedAs(s, c, i)) && exists w :: Owned(s, c, w))
  {
    var n: nat :| ReachedIn(n, s, reuse);
    OverRuns(n, s, reuse);
  }

  // ----- the claim is never leaked, exactly when no call is staged twice -----

  /** Nobody else touches a call between its taking and its own resolution. */
  ghost predicate Separate(s: State) {
    && (forall k | k in s.calls :: k in s.used && (s.calls[k].apply.Some? ==> !s.calls[k].answered))
    && (forall w | w in s.workers && s.workers[w].Staging? ::
      s.workers[w].key in s.used && s.workers[w].key !in s.calls)
    && (forall w | w in s.workers && Owns(s.workers[w]) ::
          s.workers[w].key in s.calls && s.calls[s.workers[w].key] == Call(None, false))
    && (forall v, w | v in s.workers && w in s.workers && Owns(s.workers[v]) && Owns(s.workers[w])
          && s.workers[v].key == s.workers[w].key :: v == w)
    && (forall w, k | w in s.workers && s.workers[w].Settling? && k in s.workers[w].todo ::
          k in s.used && (k in s.calls ==> s.calls[k].answered))
    && (forall v, w | v in s.workers && w in s.workers && s.workers[v].Staging? && s.workers[w].Settling? ::
          s.workers[v].key !in s.workers[w].todo)
  }

  lemma ClaimKeepsSeparate(s: State, e: Step)
    requires e.Claim? && Enabled(s, e, false) && Separate(s)
    ensures Separate(Take(s, e))
  {}

  lemma TakePendingKeepsSeparate(s: State, e: Step)
    requires e.TakePending? && Enabled(s, e, false) && Separate(s)
    ensures Separate(Take(s, e))
  {}

  lemma GiveBackKeepsSeparate(s: State, e: Step)
    requires e.GiveBack? && Enabled(s, e, false) && Separate(s)
    ensures Separate(Take(s, e))
  {}

  lemma CommitKeepsSeparate(s: State, e: Step)
    requires e.Commit? && Enabled(s, e, false) && Separate(s)
    ensures Separate(Take(s, e))
  {}

  lemma SnapshotKeepsSeparate(s: State, e: Step)
    requires (e.Snapshot? || e.Leave?) && Enabled(s, e, false) && Separate(s)
    ensures Separate(Take(s, e))
  {}

  lemma ResolveKeepsSeparate(s: State, e: Step)
    requires e.Resolve? && Enabled(s, e, false) && Separate(s)
    ensures Separate(Take(s, e))
  {}

  lemma InsertKeepsSeparate(s: State, e: Step)
    requires e.Insert? && Enabled(s, e, false) && Separate(s) && Single(s)
    ensures Separate(Take(s, e))
  {
    forall v | v in s.workers && s.workers[v].Staging? ensures v == e.w {
      assert At(s, InHand(v)) && At(s, InHand(e.w));
    }
  }

  lemma AnswerKeepsSeparate(s: State, e: Step)
    requires (e.Answer? || e.Withdraw?) && Enabled(s, e, false) && Separate(s)
    ensures Separate(Take(s, e))
  {}

  lemma StepKeepsSeparate(s: State, e: Step)
    requires Enabled(s, e, false) && Separate(s) && Single(s)
    ensures Separate(Take(s, e))
  {
    match e
    case Claim(_, _, _) => ClaimKeepsSeparate(s, e);
    case Insert(_) => InsertKeepsSeparate(s, e);
    case TakePending(_, _) => TakePendingKeepsSeparate(s, e);
    case GiveBack(_, _) => GiveBackKeepsSeparate(s, e);
    case Commit(_, _) => CommitKeepsSeparate(s, e);
    case Answer(_) => AnswerKeepsSeparate(s, e);
    case Withdraw(_) => AnswerKeepsSeparate(s, e);
    case Snapshot(_, _) => SnapshotKeepsSeparate(s, e);
    case Resolve(_, _) => ResolveKeepsSeparate(s, e);
    case Leave(_) => SnapshotKeepsSeparate(s, e);
  }

  /** Where the place `p` of the old state is after the step. */
  function After(s: State, e: Step, p: Place): Place
    requires Enabled(s, e, true)
  {
    match e
    case Insert(w) => if p == InHand(w) then InCall(s.workers[w].key) else p
    case TakePending(w, key) => if p == InCall(key) then InHand(w) else p
    case Commit(w, ok) => if ok && p == InHand(w) then OnDisk(|s.ended|) else p
    case _ => p
  }

  lemma PlacesSurvive(s: State, e: Step, p: Place)
    requires Enabled(s, e, false) && Separate(s) && At(s, p)
    ensures At(Take(s, e), After(s, e, p)) || (e.GiveBack? && p == InHand(e.w))
  {}

  ghost predicate ClaimedForSomething(s: State) { s.claimed ==> exists p :: At(s, p) }

  lemma {:induction false} ClaimOverRuns(n: nat, s: State)
    requires ReachedIn(n, s, false)
    ensures Single(s) && Separate(s) && ClaimedForSomething(s)
  {
    if n > 0 {
      var b: State, e: Step :| ReachedIn(n - 1, b, false) && Enabled(b, e, false) && s == Take(b, e);
      ClaimOverRuns(n - 1, b);
      StepKeepsSingle(b, e);
      StepKeepsSeparate(b, e);
      if s.claimed {
        if e.Claim? {
          assert At(s, InHand(e.w));
        } else {
          var p :| At(b, p);
          PlacesSurvive(b, e, p);
        }
      }
    }
  }

  /** Without a call staged twice, writing a result always finds the call it answers: the
      session's table cannot have been dropped meanwhile. */
  lemma AnswerFindsItsCall(s: State, w: nat)
    requires Reachable(s, false) && Enabled(s, Answer(w), false)
    ensures s.workers[w].key in s.calls && s.calls[s.workers[w].key] == Call(None, false)
  {
    var n: nat :| ReachedIn(n, s, false);
    ClaimOverRuns(n, s);
  }

  ghost predicate ClaimNeverLeaks(reuse: bool) {
    forall s | Reachable(s, reuse) :: s.claimed <==> exists p :: At(s, p)
  }

  lemma BootReachable()
    ensures Reachable(BOOT, true)
  {
    assert ReachedIn(0, BOOT, true);
  }

  lemma NextReachable(s: State, e: Step, t: State)
    requires Reachable(s, true) && Enabled(s, e, true) && t == Take(s, e)
    ensures Reachable(t, true)
  {
    var n: nat :| ReachedIn(n, s, true);
    assert ReachedIn(n + 1, t, true);
  }

  /** The first call is answered: its claim is given back, its result not yet written. */
  lemma HalfAnswered(k: Key) returns (s: State)
    ensures s == State(false, map[k := Call(None, false)], map[0 := Answering(k, 1)], {k}, {1}, {1}, [])
    ensures Reachable(s, true)
  {
    var a := State(true, map[], map[0 := Staging(k, 1)], {k}, {1}, {}, []);
    BootReachable();
    NextReachable(BOOT, Claim(0, k, 1), a);
    var b := State(true, map[k := Call(Some(1), false)], map[], {k}, {1}, {}, []);
    NextReachable(a, Insert(0), b);
    var c := State(true, map[k := Call(None, false)], map[0 := Taken(k, 1)], {k}, {1}, {1}, []);
    NextReachable(b, TakePending(0, k), c);
    s := State(false, map[k := Call(None, false)], map[0 := Answering(k, 1)], {k}, {1}, {1}, []);
    NextReachable(c, GiveBack(0, Answered), s);
  }

  /** The same call is claimed and staged again. */
  lemma StagedAgain(k: Key) returns (s: State)
    ensures s == State(true, map[k := Call(Some(2), false)], map[0 := Answering(k, 1)], {k}, {1, 2}, {1}, [])
    ensures Reachable(s, true)
  {
    var d := HalfAnswered(k);
    var two := map[0 := Answering(k, 1), 1 := Staging(k, 2)];
    assert two - {1} == map[0 := Answering(k, 1)];
    var e := State(true, map[k := Call(None, false)], two, {k}, {1, 2}, {1}, []);
    NextReachable(d, Claim(1, k, 2), e);
    s := State(true, map[k := Call(Some(2), false)], map[0 := Answering(k, 1)], {k}, {1, 2}, {1}, []);
    NextReachable(e, Insert(1), s);
  }

  /** A call staged again while its first result is being written: the result overwrites the
      second candidate, and the claim stays set with nothing to show for it. */
  lemma ClaimLeaks() returns (s: State)
    ensures Reachable(s, true) && s.claimed && s.workers == map[] && forall p :: !At(s, p)
  {
    var k := Key(1, "call");
    var f := StagedAgain(k);
    s := State(true, map[k := Call(None, true)], map[], {k}, {1, 2}, {1}, [End(1, Answered)]);
    NextReachable(f, Answer(0), s);
  }

  /** The claim is set exactly while a candidate is staged, held or committed, if and only if no
      call is ever staged a second time. */
  lemma ClaimExactExactlyWhenCallsAreFresh(reuse: bool)
    ensures ClaimNeverLeaks(reuse) <==> !reuse
  {
    if reuse {
      var s := ClaimLeaks();
    } else {
      forall s | Reachable(s, false) ensures s.claimed <==> exists p :: At(s, p) {
        var n: nat :| ReachedIn(n, s, false);
        ClaimOverRuns(n, s);
      }
    }
  }

  /** A candidate whose commit failed can only be answered, never withdrawn or committed again. */
  lemma RefusedIsAnswered(s: State, w: nat, e: Step)
    requires Enabled(s, Commit(w, false), true) && Enabled(Take(s, Commit(w, false)), e, true) && e.w == w
    ensures e == GiveBack(w, Answered)
  {}

  // ----- results found by a snapshot -----

  /** `t` is `n` steps after `b`, and `w` has not left on the way. */
  ghost predicate Since(n: nat, b: State, w: nat, t: State) {
    if n == 0 then t == b
    else exists m: State, e: Step ::
      Since(n - 1, b, w, m) && Enabled(m, e, false) && e != Leave(w) && t == Take(m, e)
  }

  /** Of the results `ks`, `w` still has to settle those that are left, and those only. */
  ghost predicate Settles(t: State, w: nat, ks: set<Key>) {
    && w in t.workers && t.workers[w].Settling? && t.workers[w].todo <= ks
    && (forall k | k in ks :: k in t.used && (k in t.calls ==> t.calls[k].answered && k in t.workers[w].todo))
    && (forall v | v in t.workers && t.workers[v].Staging? :: t.workers[v].key !in ks)
  }

  lemma StepKeepsSettles(s: State, e: Step, w: nat, ks: set<Key>)
    requires Enabled(s, e, false) && Separate(s) && Settles(s, w, ks) && e != Leave(w)
    ensures Settles(Take(s, e), w, ks)
  {}

  lemma {:induction false} SettlesSince(n: nat, b: State, w: nat, ks: set<Key>, t: State)
    requires Single(b) && Separate(b) && Settles(b, w, ks) && Since(n, b, w, t)
    ensures Single(t) && Separate(t) && Settles(t, w, ks)
  {
    if n > 0 {
      var m: State, e: Step :| Since(n - 1, b, w, m) && Enabled(m, e, false) && e != Leave(w) && t == Take(m, e);
      SettlesSince(n - 1, b, w, ks, m);
      StepKeepsSingle(m, e);
      StepKeepsSeparate(m, e);
      StepKeepsSettles(m, e, w, ks);
    }
  }

  lemma SnapshotSettles(s: State, w: nat, session: int)
    requires Single(s) && Separate(s) && Enabled(s, Snapshot(w, session), false)
    ensures
      var t := Take(s, Snapshot(w, session));
      Single(t) && Separate(t) && Settles(t, w, Results(s.calls, session))
  {
    StepKeepsSingle(s, Snapshot(w, session));
    StepKeepsSeparate(s, Snapshot(w, session));
  }

  lemma ResolvesOnce(t: State, w: nat, k: Key)
    requires Enabled(t, Resolve(w, k), false)
    ensures k !in Take(t, Resolve(w, k)).calls && !Enabled(Take(t, Resolve(w, k)), Resolve(w, k), false)
  {}

  lemma SettledAreGone(t: State, w: nat, ks: set<Key>)
    requires Settles(t, w, ks)
    ensures t.workers[w].todo <= ks && (t.workers[w].todo == {} ==> forall k | k in ks :: k !in t.calls)
    ensures Enabled(t, Leave(w), false) && w !in Take(t, Leave(w)).workers
  {}

  /** The results a snapshot finds are settled by it or by someone else: once the goroutine has
      nothing left to do none of them is in the table, and none comes back. It settles no other call,
      no call twice, and can leave. */
  lemma SnapshotIsSettled(i: nat, b: State, w: nat, session: int, n: nat, t: State)
    requires ReachedIn(i, b, false) && Enabled(b, Snapshot(w, session), false)
    requires Since(n, Take(b, Snapshot(w, session)), w, t)
    ensures w in t.workers && t.workers[w].Settling?
    ensures forall k | k in t.workers[w].todo :: k in b.calls && k.session == session && b.calls[k].answered
    ensures t.workers[w].todo == {} ==> forall k | k in b.calls && k.session == session && b.calls[k].answered ::
      k !in t.calls
    ensures forall k | Enabled(t, Resolve(w, k), false) ::
      k !in Take(t, Resolve(w, k)).calls && !Enabled(Take(t, Resolve(w, k)), Resolve(w, k), false)
    ensures Enabled(t, Leave(w), false) && w !in Take(t, Leave(w)).workers
  {
    var ks := Results(b.calls, session);
    assert Settles(t, w, ks) by {
      ClaimOverRuns(i, b);
      SnapshotSettles(b, w, session);
      SettlesSince(n, Take(b, Snapshot(w, session)), w, ks, t);
    }
    SettledAreGone(t, w, ks);
    forall k | Enabled(t, Resolve(w, k), false)
      ensures k !in Take(t, Resolve(w, k)).calls && !Enabled(Take(t, Resolve(w, k)), Resolve(w, k), false)
    {
      ResolvesOnce(t, w, k);
    }
  }

  // ----- in every run, leaked exactly when a staged candidate was struck -----

  ghost predicate Leaked(s: State) { s.claimed && forall p :: !At(s, p) }

  /** The step ends or settles a call under which a candidate waits: the call was staged again
      while its earlier result was still being written, withdrawn or settled. */
  predicate Strikes(s: State, e: Step)
    requires Enabled(s, e, true)
  {
    || ((e.Answer? || e.Withdraw?) && Waiting(s, s.workers[e.w].key))
    || (e.Resolve? && Waiting(s, e.key))
  }

  predicate Follows(b: State, was: bool, e: Step, s: State, struck: bool) {
    Enabled(b, e, true) && s == Take(b, e) && struck == (was || Strikes(b, e))
  }

  /** States reached in `n` steps, and whether one of them struck. */
  ghost predicate RanTo(n: nat, s: State, struck: bool) {
    if n == 0 then s == BOOT && !struck
    else exists b: State, was: bool, e: Step :: RanTo(n - 1, b, was) && Follows(b, was, e, s, struck)
  }

  lemma {:induction false} ReachedByRuns(n: nat, s: State) returns (struck: bool)
    requires ReachedIn(n, s, true)
    ensures RanTo(n, s, struck)
  {
    struck := false;
    if n > 0 {
      var b: State, e: Step :| ReachedIn(n - 1, b, true) && Enabled(b, e, true) && s == Take(b, e);
      var was := ReachedByRuns(n - 1, b);
      struck := was || Strikes(b, e);
      assert Follows(b, was, e, s, struck);
    }
  }

  lemma StrikeLeaks(s: State, e: Step)
    requires Enabled(s, e, true) && Single(s) && Strikes(s, e)
    ensures Leaked(Take(s, e))
  {
    var key := if e.Resolve? then e.key else s.workers[e.w].key;
    assert At(s, InCall(key));
    forall p ensures !At(Take(s, e), p) {
      if At(Take(s, e), p) { StepMovesPlaces(s, e, p); }
    }
  }

  /** A leaked claim is never given back. */
  lemma LeakStays(s: State, e: Step)
    requires Enabled(s, e, true) && Leaked(s)
    ensures Leaked(Take(s, e))
  {
    forall p ensures !At(Take(s, e), p) {
      if At(Take(s, e), p) { StepMovesPlaces(s, e, p); }
    }
    if e.GiveBack? { assert At(s, InHand(e.w)); }
  }

  lemma NoStrikeNoLeak(s: State, e: Step)
    requires Enabled(s, e, true) && Single(s) && !Leaked(s) && !Strikes(s, e)
    ensures !Leaked(Take(s, e))
  {
    var t := Take(s, e);
    if t.claimed {
      if e.Claim? {
        assert At(t, InHand(e.w));
      } else {
        var p :| At(s, p);
        if e.Insert? { assert At(s, InHand(e.w)); }
        assert At(t, After(s, e, p));
      }
    }
  }

  /** In every run, whatever is staged again: the claim is set with no candidate anywhere if and
      only if some step struck one, and from then on for good. */
  lemma {:induction false} LeakedExactlyWhenStruck(n: nat, s: State, struck: bool)
    requires RanTo(n, s, struck)
    ensures Single(s) && (Leaked(s) <==> struck)
  {
    if n > 0 {
      var b: State, was: bool, e: Step :| RanTo(n - 1, b, was) && Follows(b, was, e, s, struck);
      LeakedExactlyWhenStruck(n - 1, b, was);
      StepKeepsSingle(b, e);
      if was { LeakStays(b, e); } else if Strikes(b, e) { StrikeLeaks(b, e); } else { NoStrikeNoLeak(b, e); }
    }
  }

  // ----- the service object, its table nested by session -----

  function Flatten(calls: Table): map<Key, Call> {
    map s, c | s in calls && c in calls[s] :: Key(s, c) := calls[s][c]
  }

  type Table = map<int, map<string, Call>>

  function PutCall(calls: Table, s: int, c: string, v: Call): Table {
    calls[s := (if s in calls then calls[s] else map[])[c := v]]
  }

  function DropCall(calls: Table, s: int, c: string): Table {
    if s !in calls then calls
    else if calls[s] - {c} == map[] then calls - {s}
    else calls[s := calls[s] - {c}]
  }

  /** A session without staged calls has no table. */
  predicate NoEmptyTables(calls: Table) { forall s | s in calls :: calls[s] != map[] }

  lemma FlatAt(calls: Table, k: Key)
    ensures k in Flatten(calls) <==> k.session in calls && k.call in calls[k.session]
    ensures k in Flatten(calls) ==> Flatten(calls)[k] == calls[k.session][k.call]
  {
    if k.session in calls && k.call in calls[k.session] { assert k == Key(k.session, k.call); }
  }

  lemma PutKeepsTables(calls: Table, s: int, c: string, v: Call)
    requires NoEmptyTables(calls)
    ensures NoEmptyTables(PutCall(calls, s, c, v))
  {
    assert c in PutCall(calls, s, c, v)[s];
  }

  lemma PutFlattens(calls: Table, s: int, c: string, v: Call)
    ensures Flatten(PutCall(calls, s, c, v)) == Flatten(calls)[Key(s, c) := v]
  {
    var flat, after := Flatten(PutCall(calls, s, c, v)), Flatten(calls)[Key(s, c) := v];
    forall k ensures k in flat <==> k in after { FlatAt(calls, k); FlatAt(PutCall(calls, s, c, v), k); }
    forall k | k in flat ensures flat[k] == after[k] { FlatAt(calls, k); FlatAt(PutCall(calls, s, c, v), k); }
  }

  lemma DropFlattens(calls: Table, s: int, c: string)
    ensures Flatten(DropCall(calls, s, c)) == Flatten(calls) - {Key(s, c)}
  {
    var flat, after := Flatten(DropCall(calls, s, c)), Flatten(calls) - {Key(s, c)};
    forall k ensures k in flat <==> k in after {
      FlatAt(calls, k);
      FlatAt(DropCall(calls, s, c), k);
      if k in after && k.session == s { assert k.call in calls[s] - {c}; }
    }
    forall k | k in flat ensures flat[k] == after[k] { FlatAt(calls, k); FlatAt(DropCall(calls, s, c), k); }
  }

  lemma PutTwice(m: map<Key, Call>, k: Key, v: Call, w: Call)
    ensures m[k := v][k := w] == m[k := w] && m[k := v] - {k} == m - {k}
  {}

  /** What the stores say about a taken call, and what `Commit` says of its candidate. */
  datatype Check = Unverifiable | Settled | SessionEnded | Proceed(commits: bool)

  function AnsweredCalls(calls: Table, session: int): set<string> {
    if session in calls then set c | c in calls[session] && calls[session][c].answered else {}
  }

  function KeysOf(session: int, names: set<string>): set<Key> { set c | c in names :: Key(session, c) }

  lemma AnsweredAreResults(calls: Table, session: int)
    ensures KeysOf(session, AnsweredCalls(calls, session)) == Results(Flatten(calls), session)
  {
    forall k | k in Results(Flatten(calls), session) ensures k in KeysOf(session, AnsweredCalls(calls, session)) {
      assert k == Key(session, k.call) && k.call in AnsweredCalls(calls, session);
    }
  }

  /** The calls once all but `left` of the results `all` are settled. */
  function Remaining(flat: map<Key, Call>, all: set<Key>, left: set<Key>): map<Key, Call> { flat - (all - left) }

  lemma DropKey(flat: map<Key, Call>, all: set<Key>, session: int, rest: set<string>, c: string)
    requires c in rest && KeysOf(session, rest) <= all
    ensures Remaining(flat, all, KeysOf(session, rest)) - {Key(session, c)} ==
      Remaining(flat, all, KeysOf(session, rest - {c}))
    ensures KeysOf(session, rest - {c}) <= all
  {
    assert KeysOf(session, rest) == KeysOf(session, rest - {c}) + {Key(session, c)};
    assert Key(session, c) !in KeysOf(session, rest - {c});
  }

  predicate Ended(
    before: map<Key, Call>, held: bool, session: int, check: Check, end: (string, Cand, Fate), after: map<Key, Call>,
      holds: bool)
  {
    var k, fate := Key(session, end.0), end.2;
    && k in before && before[k].apply == Some(end.1)
    && (fate.Committed? <==> check == Proceed(true))
    && (fate.Withdrawn? <==> check.Settled?)
    && holds == (fate.Committed? && held)
    && after == match fate
                case Committed => before[k := before[k].(apply := None)]
                case Answered => before[k := Call(None, true)]
                case Withdrawn => before - {k}
  }

  class Service {
    var claimed: bool
    var calls: Table

    constructor ()
      ensures Valid() && !claimed && Flatten(calls) == map[]
    {
      claimed, calls := false, map[];
    }

    predicate Valid()
      reads this
    {
      NoEmptyTables(calls)
    }

    method ClaimApply() returns (ok: bool)
      modifies `claimed
      ensures ok == !old(claimed) && claimed
    {
      if claimed { return false; }
      claimed := true;
      ok := true;
    }

    method ReleaseApply()
      modifies `claimed
      ensures !claimed
    {
      claimed := false;
    }

    method StageApply(session: int, call: string, cand: Cand) returns (ok: bool)
      requires Valid()
      modifies this
      ensures Valid() && claimed
      ensures ok == !old(claimed)
      ensures Flatten(calls) == if ok then old(Flatten(calls))[Key(session, call) := Call(Some(cand), false)]
        else old(Flatten(calls))
    {
      ok := ClaimApply();
      if ok {
        PutFlattens(calls, session, call, Call(Some(cand), false));
        PutKeepsTables(calls, session, call, Call(Some(cand), false));
        calls := PutCall(calls, session, call, Call(Some(cand), false));
      }
    }

    /** Finds a candidate staged for the session, if there is one, and leaves its call behind. */
    method TakePendingApply(session: int) returns (taken: Option<(string, Cand)>)
      requires Valid()
      modifies `calls
      ensures Valid()
      ensures taken.None? ==> calls == old(calls) && forall k | k in Flatten(calls) && k.session == session ::
        Flatten(calls)[k].apply.None?
      ensures taken.Some? ==>
        var k := Key(session, taken.value.0);
        && k in old(Flatten(calls)) && old(Flatten(calls))[k].apply == Some(taken.value.1)
        && Flatten(calls) == old(Flatten(calls))[k := old(Flatten(calls))[k].(apply := None)]
    {
      taken := None;
      if session !in calls { return; }
      var rest := calls[session].Keys;
      while rest != {}
        invariant rest <= calls[session].Keys
        invariant forall c | c in calls[session] && c !in rest :: calls[session][c].apply.None?
        decreases |rest|
      {
        if forall c :: c !in rest { assert false; }
        var c :| c in rest;
        if calls[session][c].apply.Some? {
          taken := Some((c, calls[session][c].apply.value));
          PutFlattens(calls, session, c, calls[session][c].(apply := None));
          PutKeepsTables(calls, session, c, calls[session][c].(apply := None));
          calls := PutCall(calls, session, c, calls[session][c].(apply := None));
          return;
        }
        rest := rest - {c};
      }
    }

    method Resolve(session: int, call: string)
      requires Valid()
      modifies `calls
      ensures Valid() && Flatten(calls) == old(Flatten(calls)) - {Key(session, call)}
    {
      DropFlattens(calls, session, call);
      calls := DropCall(calls, session, call);
    }

    /** The session's table must exist: `AnswerFindsItsCall` is why it does. */
    method StageResult(session: int, call: string)
      requires Valid() && session in calls
      modifies `calls
      ensures Valid() && Flatten(calls) == old(Flatten(calls))[Key(session, call) := Call(None, true)]
    {
      PutFlattens(calls, session, call, Call(None, true));
      PutKeepsTables(calls, session, call, Call(None, true));
      calls := PutCall(calls, session, call, Call(None, true));
    }

    /** Settles the results the session had when it was called, until a store fails; `fails`
        are the calls whose delivery fails. Staged candidates are not touched. */
    method SettleStagedResults(session: int, fails: set<string>) returns (ok: bool, ghost left: set<Key>)
      requires Valid()
      modifies `calls
      ensures Valid() && left <= Results(old(Flatten(calls)), session) && (ok <==> left == {})
      ensures Flatten(calls) == Remaining(old(Flatten(calls)), Results(old(Flatten(calls)), session), left)
    {
      ghost var flat, all := Flatten(calls), Results(Flatten(calls), session);
      var rest := AnsweredCalls(calls, session);
      AnsweredAreResults(calls, session);
      left := KeysOf(session, rest);
      while rest != {}
        invariant Valid() && left == KeysOf(session, rest) && left <= all
        invariant Flatten(calls) == Remaining(flat, all, left)
        decreases |rest|
      {
        if forall c :: c !in rest { assert false; }
        var c :| c in rest;
        assert Key(session, c) in left;
        if c in fails { return false, left; }
        Resolve(session, c);
        DropKey(flat, all, session, rest, c);
        rest := rest - {c};
        left := KeysOf(session, rest);
      }
      ok := true;
    }

    /** Takes the session's candidate and ends it in exactly one way. Only a commit keeps the
        claim; a withdrawn call is gone, an answered one waits for its result to be settled. */
    method RunStagedApply(session: int, check: Check) returns (end: Option<(string, Cand, Fate)>)
      requires Valid()
      modifies this
      ensures Valid()
      ensures end.None? ==> claimed == old(claimed) && calls == old(calls)
      ensures end.Some? ==> Ended(old(Flatten(calls)), old(claimed), session, check, end.value, Flatten(calls), claimed)
    {
      var taken := TakePendingApply(session);
      if taken.None? { return None; }
      var (call, cand) := taken.value;
      ghost var k, before := Key(session, call), old(Flatten(calls));
      PutTwice(before, k, before[k].(apply := None), Call(None, true));
      assert k in Flatten(calls);
      if check == Proceed(true) { return Some((call, cand, Committed)); }
      ReleaseApply();
      if check.Settled? {
        Resolve(session, call);
        return Some((call, cand, Withdrawn));
      }
      StageResult(session, call);
      end := Some((call, cand, Answered));
    }
  }
}
