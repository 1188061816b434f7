/** The in-memory half of background processes: admission counters, tracked processes and
    fallback intents, as a machine in which starts, supervisors, cancellers, shutdown and
    crashes interleave over the durable ledger. */
module ProcessService {
  import opened Options
  import opened ProcessLedger

  const BACKGROUND_LIMIT := 4
  const CANDIDATE_LIMIT := 1

  datatype Class = Candidate | Background

  datatype Entry = Entry(session: SessionId, class_: Class)

  /** The service's fields. The Go maps `cancels`, `liveRecords` and `classes` always share
      their keys, so they are one map here. */
  datatype Memory = Memory(
    live: map<SessionId, int>, background: map<SessionId, int>, candidates: map<SessionId, int>,
    tracked: map<ProcessId, Entry>, fallback: map<ProcessId, Intent>, closed: bool, ids: nat)

  const FRESH := Memory(map[], map[], map[], map[], map[], false, 0)

  function Get(m: map<SessionId, int>, s: SessionId): int { if s in m then m[s] else 0 }

  function Bump(m: map<SessionId, int>, s: SessionId, d: int): map<SessionId, int> { m[s := Get(m, s) + d] }

  function ClassFor(advertise: bool): Class { if advertise then Background else Candidate }

  predicate HasRoom(m: Memory, s: SessionId, c: Class) {
    if c == Background then Get(m.background, s) < BACKGROUND_LIMIT else Get(m.candidates, s) < CANDIDATE_LIMIT
  }

  function Add(m: Memory, s: SessionId, c: Class, d: int): Memory {
    m.(live := Bump(m.live, s, d),
       background := if c == Background then Bump(m.background, s, d) else m.background,
       candidates := if c == Candidate then Bump(m.candidates, s, d) else m.candidates)
  }

  /** The release as written: each decrement is skipped when its counter is not positive. */
  function Release(m: Memory, s: SessionId, c: Class): Memory {
    m.(live := if Get(m.live, s) > 0 then Bump(m.live, s, -1) else m.live,
       background := if c == Background && Get(m.background, s) > 0 then Bump(m.background, s, -1) else m.background,
       candidates := if c == Candidate && Get(m.candidates, s) > 0 then Bump(m.candidates, s, -1) else m.candidates)
  }

  function Forget(m: Memory, id: ProcessId): Memory {
    m.(tracked := m.tracked - {id}, fallback := m.fallback - {id})
  }

  function FallbackOf(m: Memory, id: ProcessId): Intent { if id in m.fallback then m.fallback[id] else NoIntent }

  function WithFallback(m: Memory, id: ProcessId, intent: Intent): Memory {
    if id in m.tracked && FallbackOf(m, id) == NoIntent then m.(fallback := m.fallback[id := intent]) else m
  }

  function ReleaseTracked(m: Memory, id: ProcessId): Memory {
    if id in m.tracked then Release(Forget(m, id), m.tracked[id].session, m.tracked[id].class_) else m
  }

  /** A candidate moves to the background class only with room and a won durable update. */
  function AdvertiseOp(m: Memory, id: ProcessId, up: bool): Option<Op> {
    if id in m.tracked && m.tracked[id].class_ == Candidate
      && Get(m.background, m.tracked[id].session) >= BACKGROUND_LIMIT
    then None else Some(Op.Advertise(id, up))
  }

  function Promote(m: Memory, id: ProcessId): Memory
    requires id in m.tracked
  {
    var s := m.tracked[id].session;
    m.(candidates := Bump(m.candidates, s, -1), background := Bump(m.background, s, 1),
       tracked := m.tracked[id := Entry(s, Background)])
  }

  // ----- the machine -----

  /** Where a `Start` call stands between its locked or durable steps. */
  datatype Pc =
    | Reserved
    | Launched(id: ProcessId)
    | Tracking(id: ProcessId)
    | InsertFailed(id: ProcessId)
    | Untracked
    | Inserted(id: ProcessId)
    | SawClosed(id: ProcessId)
    | NeedsFallback(id: ProcessId)
    | Ready(id: ProcessId)

  datatype Start = Start(session: SessionId, root: SessionId, advertise: bool, pc: Pc)

  /** `listed` is the answer of the shutdown's `ListRunning`, once it was read. */
  datatype System = System(
    ledger: Ledger, mem: Memory, starts: map<nat, Start>, supervised: set<ProcessId>, listed: Option<set<ProcessId>>)

  const BOOT := System(EMPTY, FRESH, map[], {}, None)

  datatype Step =
    | Reserve(tok: nat, session: SessionId, root: SessionId, advertise: bool)
    | LaunchFails(tok: nat)
    | Launch(tok: nat, stamp: int)
    | Track(tok: nat)
    | InsertRow(tok: nat, up: bool)
    | Untrack(tok: nat)
    | AbortRelease(tok: nat)
    | CheckClosed(tok: nat)
    | ShutdownIntent(tok: nat, up: bool)
    | ShutdownFallback(tok: nat)
    | Supervise(tok: nat)
    | FinalizeTracked(id: ProcessId, natural: State, exitCode: Option<int>, size: int, up: bool)
    | SupervisorPanics(id: ProcessId)
    | Advertise(id: ProcessId, up: bool)
    | CancelFallback(id: ProcessId, intent: Intent)
    | CloseAdmission
    | ListForShutdown
    | Call(op: Op)
    | Crash

  predicate Enabled(s: System, e: Step) {
    match e
    case Reserve(tok, session, root, advertise) =>
      tok !in s.starts && !s.mem.closed && HasRoom(s.mem, session, ClassFor(advertise))
    case LaunchFails(tok) => tok in s.starts && (s.starts[tok].pc.Reserved? || s.starts[tok].pc.Launched?)
    // Ids carry a nanosecond clock: they do not repeat across restarts.
    case Launch(tok, stamp) => tok in s.starts && s.starts[tok].pc.Reserved?
      && ProcessId(stamp, s.mem.ids + 1) !in s.ledger.rows
    case Track(tok) => tok in s.starts && s.starts[tok].pc.Launched?
    case InsertRow(tok, _) => tok in s.starts && s.starts[tok].pc.Tracking?
    case Untrack(tok) => tok in s.starts && s.starts[tok].pc.InsertFailed?
    case AbortRelease(tok) => tok in s.starts && s.starts[tok].pc.Untracked?
    case CheckClosed(tok) => tok in s.starts && s.starts[tok].pc.Inserted?
    case ShutdownIntent(tok, _) => tok in s.starts && s.starts[tok].pc.SawClosed?
    case ShutdownFallback(tok) => tok in s.starts && s.starts[tok].pc.NeedsFallback?
    case Supervise(tok) => tok in s.starts && s.starts[tok].pc.Ready?
    case FinalizeTracked(id, _, _, _, _) => id in s.supervised
    case SupervisorPanics(id) => id in s.supervised
    case Advertise(_, _) => true
    case CancelFallback(_, intent) => intent != NoIntent
    case CloseAdmission => true
    case ListForShutdown => s.mem.closed
    // Rows are inserted and advertised by the steps above only.
    case Call(op) => !op.Insert? && !op.Advertise?
    case Crash => true
  }

  function Move(s: System, tok: nat, pc: Pc): System
    requires tok in s.starts
  {
    s.(starts := s.starts[tok := s.starts[tok].(pc := pc)])
  }

  function LaunchRow(st: Start): Row { Row(st.session, st.root, st.advertise, 0, None, NoIntent, Running) }

  /** The ledger call a step makes, if any. */
  function OpOf(s: System, e: Step): Option<Op>
    requires Enabled(s, e)
  {
    match e
    case InsertRow(tok, up) => Some(Op.Insert(s.starts[tok].pc.id, LaunchRow(s.starts[tok]), up))
    case ShutdownIntent(tok, up) => Some(Op.RecordIntent(s.starts[tok].pc.id, DaemonShutdown, up))
    case FinalizeTracked(id, natural, exitCode, size, up) =>
      Some(Op.Finalize(id, natural, exitCode, size, FallbackOf(s.mem, id), up))
    case Advertise(id, up) => AdvertiseOp(s.mem, id, up)
    case Call(op) => Some(op)
    case _ => None
  }

  function Ledger'(s: System, e: Step): Ledger
    requires Enabled(s, e)
  {
    var o := OpOf(s, e);
    if o.Some? then Apply(s.ledger, o.value) else s.ledger
  }

  function Take(s: System, e: Step): System
    requires Enabled(s, e)
  {
    var t := s.(ledger := Ledger'(s, e));
    match e
    case Reserve(tok, session, root, advertise) =>
      t.(mem := Add(s.mem, session, ClassFor(advertise), 1),
         starts := s.starts[tok := Start(session, root, advertise, Reserved)])
    case LaunchFails(tok) =>
      t.(mem := Release(s.mem, s.starts[tok].session, ClassFor(s.starts[tok].advertise)), starts := s.starts - {tok})
    case Launch(tok, stamp) =>
      Move(t, tok, Launched(ProcessId(stamp, s.mem.ids + 1))).(mem := s.mem.(ids := s.mem.ids + 1))
    case Track(tok) =>
      var st := s.starts[tok];
      Move(t, tok, Tracking(st.pc.id)).(
        mem := s.mem.(tracked := s.mem.tracked[st.pc.id := Entry(st.session, ClassFor(st.advertise))]))
    case InsertRow(tok, up) =>
      var won := ReplyOf(s.ledger, OpOf(s, e).value) == Won;
      Move(t, tok, if won then Inserted(s.starts[tok].pc.id) else InsertFailed(s.starts[tok].pc.id))
    case Untrack(tok) => Move(t, tok, Untracked).(mem := Forget(s.mem, s.starts[tok].pc.id))
    case AbortRelease(tok) =>
      t.(mem := Release(s.mem, s.starts[tok].session, ClassFor(s.starts[tok].advertise)), starts := s.starts - {tok})
    case CheckClosed(tok) =>
      Move(t, tok, if s.mem.closed then SawClosed(s.starts[tok].pc.id) else Ready(s.starts[tok].pc.id))
    case ShutdownIntent(tok, up) =>
      var failed := ReplyOf(s.ledger, OpOf(s, e).value) == Error;
      Move(t, tok, if failed then NeedsFallback(s.starts[tok].pc.id) else Ready(s.starts[tok].pc.id))
    case ShutdownFallback(tok) =>
      Move(t, tok, Ready(s.starts[tok].pc.id)).(mem := WithFallback(s.mem, s.starts[tok].pc.id, DaemonShutdown))
    case Supervise(tok) => t.(starts := s.starts - {tok}, supervised := s.supervised + {s.starts[tok].pc.id})
    case FinalizeTracked(id, _, _, _, _) =>
      t.(mem := ReleaseTracked(s.mem, id), supervised := s.supervised - {id})
    case SupervisorPanics(id) =>
      t.(mem := ReleaseTracked(s.mem, id), supervised := s.supervised - {id})
    case Advertise(id, up) =>
      if id in s.mem.tracked && s.mem.tracked[id].class_ == Candidate && OpOf(s, e).Some?
        && ReplyOf(s.ledger, OpOf(s, e).value) == Won
      then t.(mem := Promote(s.mem, id)) else t
    case CancelFallback(id, intent) => t.(mem := WithFallback(s.mem, id, intent))
    case CloseAdmission => t.(mem := s.mem.(closed := true))
    case ListForShutdown => t.(listed := Some(set id | id in s.ledger.rows && s.ledger.rows[id].state == Running))
    case Call(op) => t
    case Crash => System(s.ledger, FRESH, map[], {}, None)
  }

  /** Every finite run from an empty installation, oldest step first. */
  predicate IsRun(steps: seq<Step>)
    decreases |steps|, 0
  {
    steps == [] || (IsRun(steps[..|steps| - 1]) && Enabled(Reached(steps[..|steps| - 1]), steps[|steps| - 1]))
  }

  function Reached(steps: seq<Step>): System
    requires IsRun(steps)
    decreases |steps|, 1
  {
    if steps == [] then BOOT else Take(Reached(steps[..|steps| - 1]), steps[|steps| - 1])
  }

  /** The ledger calls a run made, so that every ledger theorem applies to it. */
  function History(steps: seq<Step>): seq<Op>
    requires IsRun(steps)
  {
    if steps == [] then [] else
    var before := steps[..|steps| - 1];
    var o := OpOf(Reached(before), steps[|steps| - 1]);
    History(before) + (if o.Some? then [o.value] else [])
  }

  lemma {:induction false} RunIsLedgerHistory(steps: seq<Step>)
    requires IsRun(steps)
    ensures OnlyFreshInserts(History(steps)) && Reached(steps).ledger == After(History(steps))
  {
    if steps != [] {
      var before, e := steps[..|steps| - 1], steps[|steps| - 1];
      RunIsLedgerHistory(before);
      var o := OpOf(Reached(before), e);
      if o.Some? {
        assert FreshInsert(o.value);
        assert History(steps)[..|History(before)|] == History(before);
      } else {
        assert History(steps) == History(before);
      }
    }
  }

  /** In every state reached by any interleaving: the completion fact is present exactly for the
      rows finalized advertised, unsuppressed and accepted; causes and outcomes are final. */
  lemma LedgerGuaranteesOverRuns(steps: seq<Step>, earlier: nat, id: ProcessId)
    requires IsRun(steps) && earlier <= |History(steps)|
    ensures
      var l, h := Reached(steps).ledger, History(steps);
      && RowsAllowed(l) && Unique(l.inbox)
      && (HasFact(l, id) <==> exists k: nat :: DeliveredAt(h, id, k))
      && (id in l.rows && l.rows[id].session !in l.refusing ==> (HasFact(l, id) <==> OwesFact(l.rows[id])))
      && LedgerEvolves(After(h[..earlier]), l)
  {
    var h := History(steps);
    RunIsLedgerHistory(steps);
    OutcomeMatchesCause(h);
    FactExactlyWhenDelivered(h, id);
    FirstCauseWins(h, earlier);
    if id in After(h).rows && After(h).rows[id].session !in After(h).refusing { FactExactlyWhenOwed(h, id); }
  }

  // ----- ownership of tracked processes -----

  predicate InTrackedPhase(pc: Pc) {
    pc.Tracking? || pc.InsertFailed? || pc.Inserted? || pc.SawClosed? || pc.NeedsFallback? || pc.Ready?
  }

  predicate HasId(pc: Pc) { pc.Launched? || InTrackedPhase(pc) }

  /** Each start's id is its own, and known to the id counter. */
  predicate IdsDistinct(s: System) {
    && (forall t | t in s.starts && HasId(s.starts[t].pc) ::
          s.starts[t].pc.id.serial <= s.mem.ids && s.starts[t].pc.id !in s.supervised)
    && (forall t, u | t in s.starts && u in s.starts && t != u && HasId(s.starts[t].pc) && HasId(s.starts[u].pc) ::
          s.starts[t].pc.id != s.starts[u].pc.id)
    && (forall id | id in s.mem.tracked :: id.serial <= s.mem.ids)
  }

  /** A start past `track` and before its supervisor owns its tracked entry; until its row is
      inserted nobody can have promoted it. */
  predicate StartsOwn(s: System) {
    forall t | t in s.starts :: StartOwns(s, s.starts[t])
  }

  predicate StartOwns(s: System, st: Start) {
    && (st.pc.Launched? ==> st.pc.id !in s.mem.tracked && st.pc.id !in s.ledger.rows)
    && (InTrackedPhase(st.pc) ==> st.pc.id in s.mem.tracked && s.mem.tracked[st.pc.id].session == st.session)
    && (st.pc.Tracking? || st.pc.InsertFailed? ==>
          st.pc.id !in s.ledger.rows && st.pc.id in s.mem.tracked
            && s.mem.tracked[st.pc.id].class_ == ClassFor(st.advertise))
  }

  predicate OwnedByStart(s: System, id: ProcessId) {
    exists t :: t in s.starts && InTrackedPhase(s.starts[t].pc) && s.starts[t].pc.id == id
  }

  predicate EveryEntryOwned(s: System) {
    && s.supervised <= s.mem.tracked.Keys
    && s.mem.fallback.Keys <= s.mem.tracked.Keys
    && (forall id | id in s.mem.tracked :: id in s.supervised || OwnedByStart(s, id))
  }

  // ----- conservation of admission counters -----

  predicate Holds(st: Start, s: SessionId, c: Class) {
    (st.pc.Reserved? || st.pc.Launched? || st.pc.Untracked?) && st.session == s && ClassFor(st.advertise) == c
  }

  /** Reservations still carried by a start, and those carried by a tracked process. */
  function StartHolders(starts: map<nat, Start>, s: SessionId, c: Class): set<nat> {
    set t | t in starts && Holds(starts[t], s, c)
  }

  function TrackedHolders(tracked: map<ProcessId, Entry>, s: SessionId, c: Class): set<ProcessId> {
    set id | id in tracked && tracked[id] == Entry(s, c)
  }

  function Outstanding(sys: System, s: SessionId, c: Class): nat {
    |StartHolders(sys.starts, s, c)| + |TrackedHolders(sys.mem.tracked, s, c)|
  }

  predicate Conserved(sys: System, s: SessionId) {
    && Get(sys.mem.candidates, s) == Outstanding(sys, s, Candidate) <= CANDIDATE_LIMIT
    && Get(sys.mem.background, s) == Outstanding(sys, s, Background) <= BACKGROUND_LIMIT
    && Get(sys.mem.live, s) == Get(sys.mem.candidates, s) + Get(sys.mem.background, s)
  }

  /** Who owns which id and entry, apart from the counters. */
  predicate Owned(s: System) { IdsDistinct(s) && StartsOwn(s) && EveryEntryOwned(s) }

  ghost predicate Inv(s: System) { Owned(s) && forall x: SessionId :: Conserved(s, x) }

  function One(b: bool): int { if b then 1 else 0 }

  lemma PutStart(starts: map<nat, Start>, t: nat, st: Start, s: SessionId, c: Class)
    ensures |StartHolders(starts[t := st], s, c)| ==
      |StartHolders(starts, s, c)| - One(t in starts && Holds(starts[t], s, c)) + One(Holds(st, s, c))
  {
    var before, after := StartHolders(starts, s, c), StartHolders(starts[t := st], s, c);
    assert after - {t} == before - {t};
    assert t in after <==> Holds(st, s, c);
    assert t in before <==> t in starts && Holds(starts[t], s, c);
    assert |after| == |after - {t}| + One(t in after);
    assert |before| == |before - {t}| + One(t in before);
  }

  lemma DropStart(starts: map<nat, Start>, t: nat, s: SessionId, c: Class)
    ensures |StartHolders(starts - {t}, s, c)| ==
      |StartHolders(starts, s, c)| - One(t in starts && Holds(starts[t], s, c))
  {
    var before, after := StartHolders(starts, s, c), StartHolders(starts - {t}, s, c);
    assert after == before - {t};
    assert t in before <==> t in starts && Holds(starts[t], s, c);
    assert |before| == |before - {t}| + One(t in before);
  }

  lemma PutTracked(tracked: map<ProcessId, Entry>, id: ProcessId, e: Entry, s: SessionId, c: Class)
    ensures |TrackedHolders(tracked[id := e], s, c)| ==
      |TrackedHolders(tracked, s, c)| - One(id in tracked && tracked[id] == Entry(s, c)) + One(e == Entry(s, c))
  {
    var before, after := TrackedHolders(tracked, s, c), TrackedHolders(tracked[id := e], s, c);
    assert after - {id} == before - {id};
    assert id in after <==> e == Entry(s, c);
    assert id in before <==> id in tracked && tracked[id] == Entry(s, c);
    assert |after| == |after - {id}| + One(id in after);
    assert |before| == |before - {id}| + One(id in before);
  }

  lemma DropTracked(tracked: map<ProcessId, Entry>, id: ProcessId, s: SessionId, c: Class)
    ensures |TrackedHolders(tracked - {id}, s, c)| ==
      |TrackedHolders(tracked, s, c)| - One(id in tracked && tracked[id] == Entry(s, c))
  {
    var before, after := TrackedHolders(tracked, s, c), TrackedHolders(tracked - {id}, s, c);
    assert after == before - {id};
    assert id in before <==> id in tracked && tracked[id] == Entry(s, c);
    assert |before| == |before - {id}| + One(id in before);
  }

  /** No release in a reachable state finds a counter already at zero. */
  lemma ReleaseIsExact(s: System, session: SessionId, c: Class)
    requires Inv(s) && Outstanding(s, session, c) > 0
    ensures Release(s.mem, session, c) == Add(s.mem, session, c, -1)
  {
    assert Conserved(s, session);
  }

  lemma StartHoldsCounts(s: System, t: nat)
    requires t in s.starts && Holds(s.starts[t], s.starts[t].session, ClassFor(s.starts[t].advertise))
    ensures Outstanding(s, s.starts[t].session, ClassFor(s.starts[t].advertise)) > 0
  {
    assert t in StartHolders(s.starts, s.starts[t].session, ClassFor(s.starts[t].advertise));
  }

  lemma EntryHoldsCounts(s: System, id: ProcessId)
    requires id in s.mem.tracked
    ensures Outstanding(s, s.mem.tracked[id].session, s.mem.tracked[id].class_) > 0
  {
    assert id in TrackedHolders(s.mem.tracked, s.mem.tracked[id].session, s.mem.tracked[id].class_);
  }

  /** The start `tok` moves on without gaining or losing a reservation. */
  lemma QuietMoveConserves(s: System, s': System, tok: nat, x: SessionId)
    requires Conserved(s, x) && tok in s.starts && tok in s'.starts
    requires s'.starts == s.starts[tok := s'.starts[tok]]
    requires s'.mem.live == s.mem.live && s'.mem.background == s.mem.background && s'.mem.candidates == s.mem.candidates
    requires s'.mem.tracked == s.mem.tracked
    requires forall c :: Holds(s'.starts[tok], x, c) == Holds(s.starts[tok], x, c)
    ensures Conserved(s', x)
  {
    PutStart(s.starts, tok, s'.starts[tok], x, Candidate);
    PutStart(s.starts, tok, s'.starts[tok], x, Background);
  }

  lemma ReserveConserves(s: System, e: Step, x: SessionId)
    requires Inv(s) && e.Reserve? && Enabled(s, e)
    ensures Conserved(Take(s, e), x)
  {
    assert Conserved(s, x);
    var st := Start(e.session, e.root, e.advertise, Reserved);
    PutStart(s.starts, e.tok, st, x, Candidate);
    PutStart(s.starts, e.tok, st, x, Background);
  }

  lemma GiveBackConserves(s: System, e: Step, x: SessionId)
    requires Inv(s) && (e.LaunchFails? || e.AbortRelease?) && Enabled(s, e)
    ensures Conserved(Take(s, e), x)
  {
    assert Conserved(s, x);
    var st := s.starts[e.tok];
    StartHoldsCounts(s, e.tok);
    ReleaseIsExact(s, st.session, ClassFor(st.advertise));
    DropStart(s.starts, e.tok, x, Candidate);
    DropStart(s.starts, e.tok, x, Background);
  }

  lemma TrackConserves(s: System, e: Step, x: SessionId)
    requires Inv(s) && e.Track? && Enabled(s, e)
    ensures Conserved(Take(s, e), x)
  {
    assert Conserved(s, x);
    var st := s.starts[e.tok];
    var entry := Entry(st.session, ClassFor(st.advertise));
    assert StartOwns(s, st);
    PutStart(s.starts, e.tok, st.(pc := Tracking(st.pc.id)), x, Candidate);
    PutStart(s.starts, e.tok, st.(pc := Tracking(st.pc.id)), x, Background);
    PutTracked(s.mem.tracked, st.pc.id, entry, x, Candidate);
    PutTracked(s.mem.tracked, st.pc.id, entry, x, Background);
  }

  lemma UntrackConserves(s: System, e: Step, x: SessionId)
    requires Inv(s) && e.Untrack? && Enabled(s, e)
    ensures Conserved(Take(s, e), x)
  {
    assert Conserved(s, x);
    var st := s.starts[e.tok];
    assert StartOwns(s, st);
    PutStart(s.starts, e.tok, st.(pc := Untracked), x, Candidate);
    PutStart(s.starts, e.tok, st.(pc := Untracked), x, Background);
    DropTracked(s.mem.tracked, st.pc.id, x, Candidate);
    DropTracked(s.mem.tracked, st.pc.id, x, Background);
  }

  lemma SuperviseConserves(s: System, e: Step, x: SessionId)
    requires Inv(s) && e.Supervise? && Enabled(s, e)
    ensures Conserved(Take(s, e), x)
  {
    assert Conserved(s, x);
    DropStart(s.starts, e.tok, x, Candidate);
    DropStart(s.starts, e.tok, x, Background);
  }

  lemma ReleaseTrackedConserves(s: System, e: Step, x: SessionId)
    requires Inv(s) && (e.FinalizeTracked? || e.SupervisorPanics?) && Enabled(s, e)
    ensures Conserved(Take(s, e), x)
  {
    assert Conserved(s, x);
    EntryHoldsCounts(s, e.id);
    ReleaseIsExact(s, s.mem.tracked[e.id].session, s.mem.tracked[e.id].class_);
    DropTracked(s.mem.tracked, e.id, x, Candidate);
    DropTracked(s.mem.tracked, e.id, x, Background);
    var m := Release(Forget(s.mem, e.id), s.mem.tracked[e.id].session, s.mem.tracked[e.id].class_);
    assert Take(s, e).mem == m;
  }

  lemma PromoteConserves(s: System, e: Step, x: SessionId)
    requires Conserved(s, x) && e.Advertise? && Enabled(s, e)
    ensures Conserved(Take(s, e), x)
  {
    if e.id in s.mem.tracked {
      var entry := Entry(s.mem.tracked[e.id].session, Background);
      PutTracked(s.mem.tracked, e.id, entry, x, Candidate);
      PutTracked(s.mem.tracked, e.id, entry, x, Background);
    }
  }

  lemma CrashConserves(s: System, x: SessionId)
    ensures Conserved(Take(s, Crash), x) && Conserved(BOOT, x)
  {
    assert StartHolders(map[], x, Candidate) == {} && StartHolders(map[], x, Background) == {};
    assert TrackedHolders(map[], x, Candidate) == {} && TrackedHolders(map[], x, Background) == {};
  }

  predicate IsQuiet(e: Step) { e.Launch? || e.InsertRow? || e.CheckClosed? || e.ShutdownIntent? || e.ShutdownFallback? }

  lemma QuietStepConserves(s: System, e: Step, x: SessionId)
    requires Conserved(s, x) && IsQuiet(e) && Enabled(s, e)
    ensures Conserved(Take(s, e), x)
  {
    QuietMoveConserves(s, Take(s, e), e.tok, x);
  }

  lemma OutsideStepConserves(s: System, e: Step, x: SessionId)
    requires Conserved(s, x) && (e.CancelFallback? || e.CloseAdmission? || e.ListForShutdown? || e.Call?)
      && Enabled(s, e)
    ensures Conserved(Take(s, e), x)
  {}

  lemma StepConserves(s: System, e: Step, x: SessionId)
    requires Inv(s) && Enabled(s, e)
    ensures Conserved(Take(s, e), x)
  {
    assert Conserved(s, x);
    if IsQuiet(e) { QuietStepConserves(s, e, x); return; }
    match e
    case Reserve(_, _, _, _) => ReserveConserves(s, e, x);
    case LaunchFails(_) => GiveBackConserves(s, e, x);
    case AbortRelease(_) => GiveBackConserves(s, e, x);
    case Track(_) => TrackConserves(s, e, x);
    case Untrack(_) => UntrackConserves(s, e, x);
    case Supervise(_) => SuperviseConserves(s, e, x);
    case FinalizeTracked(_, _, _, _, _) => ReleaseTrackedConserves(s, e, x);
    case SupervisorPanics(_) => ReleaseTrackedConserves(s, e, x);
    case Advertise(_, _) => PromoteConserves(s, e, x);
    case Crash => CrashConserves(s, x);
    case _ => OutsideStepConserves(s, e, x);
  }

  /** Only `Launch` mints an id, and only `Supervise` hands one on. */
  lemma StepKeepsIds(s: System, e: Step)
    requires Owned(s) && Enabled(s, e)
    ensures IdsDistinct(Take(s, e))
  {
    var s' := Take(s, e);
    assert s'.mem.ids == s.mem.ids || e.Launch? || e.Crash?;
    forall t | t in s'.starts && HasId(s'.starts[t].pc)
      ensures (e.Launch? && t == e.tok && s'.starts[t].pc.id.serial == s.mem.ids + 1)
           || (t in s.starts && HasId(s.starts[t].pc) && s.starts[t].pc.id == s'.starts[t].pc.id)
    {}
    forall t | t in s.starts && HasId(s.starts[t].pc) ensures s.starts[t].pc.id.serial <= s.mem.ids {}
  }

  predicate Acts(e: Step, t: nat) {
    match e
    case Reserve(tok, _, _, _) => tok == t
    case LaunchFails(tok) => tok == t
    case Launch(tok, _) => tok == t
    case Track(tok) => tok == t
    case InsertRow(tok, _) => tok == t
    case Untrack(tok) => tok == t
    case AbortRelease(tok) => tok == t
    case CheckClosed(tok) => tok == t
    case ShutdownIntent(tok, _) => tok == t
    case ShutdownFallback(tok) => tok == t
    case Supervise(tok) => tok == t
    case _ => false
  }

  lemma OwnMoveKeepsOwner(s: System, e: Step, t: nat)
    requires Owned(s) && Enabled(s, e) && Acts(e, t) && t in s.starts && t in Take(s, e).starts
    ensures StartOwns(Take(s, e), Take(s, e).starts[t])
  {
    assert StartOwns(s, s.starts[t]);
  }

  /** A start stays as it is under a step that neither moves it nor touches its entry or row. */
  lemma UntouchedStartOwns(s: System, s': System, t: nat)
    requires t in s.starts && StartOwns(s, s.starts[t]) && t in s'.starts && s'.starts[t] == s.starts[t]
    requires HasId(s.starts[t].pc) ==>
      var id := s.starts[t].pc.id;
      && (id in s'.mem.tracked <==> id in s.mem.tracked) && (id in s'.ledger.rows <==> id in s.ledger.rows)
      && (id in s.mem.tracked ==> s'.mem.tracked[id].session == s.mem.tracked[id].session)
      && (id in s.mem.tracked && id !in s.ledger.rows ==> s'.mem.tracked[id] == s.mem.tracked[id])
    ensures StartOwns(s', s'.starts[t])
  {}

  lemma OtherLedgerStep(s: System, e: Step, t: nat)
    requires Owned(s) && Enabled(s, e) && !Acts(e, t) && t in s.starts && HasId(s.starts[t].pc)
    ensures s.starts[t].pc.id in Ledger'(s, e).rows <==> s.starts[t].pc.id in s.ledger.rows
  {}

  lemma OtherStepKeepsOwner(s: System, e: Step, t: nat)
    requires Owned(s) && Enabled(s, e) && !Acts(e, t) && t in s.starts && t in Take(s, e).starts
    ensures StartOwns(Take(s, e), Take(s, e).starts[t])
  {
    assert StartOwns(s, s.starts[t]);
    if HasId(s.starts[t].pc) { OtherLedgerStep(s, e, t); }
    UntouchedStartOwns(s, Take(s, e), t);
  }

  lemma StartStaysOwner(s: System, e: Step, t: nat)
    requires Owned(s) && Enabled(s, e) && t in Take(s, e).starts
    ensures StartOwns(Take(s, e), Take(s, e).starts[t])
  {
    if t in s.starts {
      assert StartOwns(s, s.starts[t]);
      if Acts(e, t) {
        OwnMoveKeepsOwner(s, e, t);
      } else {
        OtherStepKeepsOwner(s, e, t);
      }
    }
  }

  lemma EntryStaysOwned(s: System, e: Step, id: ProcessId)
    requires Owned(s) && Enabled(s, e) && id in Take(s, e).mem.tracked
    ensures id in Take(s, e).supervised || OwnedByStart(Take(s, e), id)
  {
    var s' := Take(s, e);
    if id in s.mem.tracked && id !in s.supervised {
      var t :| t in s.starts && InTrackedPhase(s.starts[t].pc) && s.starts[t].pc.id == id;
      assert StartOwns(s, s.starts[t]);
      if t in s'.starts { assert InTrackedPhase(s'.starts[t].pc) && s'.starts[t].pc.id == id; }
    } else if id !in s.mem.tracked {
      assert e.Track?;
      assert s'.starts[e.tok].pc == Tracking(id);
    }
  }

  lemma StepKeepsKeys(s: System, e: Step)
    requires Owned(s) && Enabled(s, e)
    ensures Take(s, e).supervised <= Take(s, e).mem.tracked.Keys
      && Take(s, e).mem.fallback.Keys <= Take(s, e).mem.tracked.Keys
  {
    if e.Untrack? || e.Supervise? { assert StartOwns(s, s.starts[e.tok]); }
  }

  lemma StepKeepsEntriesOwned(s: System, e: Step)
    requires Owned(s) && Enabled(s, e)
    ensures EveryEntryOwned(Take(s, e))
  {
    StepKeepsKeys(s, e);
    forall id | id in Take(s, e).mem.tracked ensures id in Take(s, e).supervised || OwnedByStart(Take(s, e), id) {
      EntryStaysOwned(s, e, id);
    }
  }

  lemma StepKeepsInv(s: System, e: Step)
    requires Inv(s) && Enabled(s, e)
    ensures Inv(Take(s, e))
  {
    StepKeepsIds(s, e);
    forall t | t in Take(s, e).starts ensures StartOwns(Take(s, e), Take(s, e).starts[t]) { StartStaysOwner(s, e, t); }
    StepKeepsEntriesOwned(s, e);
    forall x: SessionId ensures Conserved(Take(s, e), x) {
      StepConserves(s, e, x);
    }
  }

  /** Admission counters equal the outstanding reservations in every reachable state. */
  lemma {:induction false} CountersConserved(steps: seq<Step>)
    requires IsRun(steps)
    ensures Inv(Reached(steps))
  {
    if steps == [] {
      forall x: SessionId ensures Conserved(BOOT, x) { CrashConserves(BOOT, x); }
    } else {
      CountersConserved(steps[..|steps| - 1]);
      StepKeepsInv(Reached(steps[..|steps| - 1]), steps[|steps| - 1]);
    }
  }

  // ----- shutdown -----

  /** A process whose end has a recorded cause, or which the shutdown's own list will cancel. */
  predicate Accounted(s: System, id: ProcessId) {
    || (s.listed.Some? && id in s.listed.value)
    || FallbackOf(s.mem, id) != NoIntent
    || (id in s.ledger.rows && (s.ledger.rows[id].intent != NoIntent || Terminal(s.ledger.rows[id].state)))
  }

  predicate PastInsert(pc: Pc) { pc.Inserted? || pc.SawClosed? || pc.NeedsFallback? || pc.Ready? }

  predicate ShutdownInv(s: System) {
    && RowsPresent(s)
    && (s.listed.Some? ==>
          && s.mem.closed
          && (forall t | t in s.starts && s.starts[t].pc.Ready? :: Accounted(s, s.starts[t].pc.id))
          && (forall id | id in s.supervised :: Accounted(s, id)))
  }

  lemma AccountedStays(s: System, e: Step, id: ProcessId)
    requires Owned(s) && ShutdownInv(s) && Enabled(s, e) && Accounted(s, id) && s.listed.Some? && !e.ListForShutdown?
    requires id in Take(s, e).mem.tracked
    ensures Accounted(Take(s, e), id)
  {
    var s' := Take(s, e);
    if OpOf(s, e).Some? { ApplyEvolves(s.ledger, OpOf(s, e).value); }
    assert s'.listed == s.listed;
  }

  predicate RowsPresent(s: System) {
    && (forall t | t in s.starts && PastInsert(s.starts[t].pc) :: s.starts[t].pc.id in s.ledger.rows)
    && (forall id | id in s.supervised :: id in s.ledger.rows)
  }

  lemma StartRowStays(s: System, e: Step, t: nat)
    requires RowsPresent(s) && Enabled(s, e) && s.ledger.rows.Keys <= Take(s, e).ledger.rows.Keys
    requires t in Take(s, e).starts && PastInsert(Take(s, e).starts[t].pc)
    ensures Take(s, e).starts[t].pc.id in Take(s, e).ledger.rows
  {}

  lemma RowsStay(s: System, e: Step)
    requires Enabled(s, e)
    ensures s.ledger.rows.Keys <= Take(s, e).ledger.rows.Keys
  {
    if OpOf(s, e).Some? { ApplyEvolves(s.ledger, OpOf(s, e).value); }
    assert Take(s, e).ledger == Ledger'(s, e);
  }

  lemma StepKeepsRowsPresent(s: System, e: Step)
    requires RowsPresent(s) && Enabled(s, e)
    ensures RowsPresent(Take(s, e))
  {
    var s' := Take(s, e);
    RowsStay(s, e);
    forall t | t in s'.starts && PastInsert(s'.starts[t].pc)
      ensures s'.starts[t].pc.id in s'.ledger.rows { StartRowStays(s, e, t); }
    forall id | id in s'.supervised ensures id in s'.ledger.rows {}
  }

  /** A start that reads the closed flag records the shutdown before it hands over. */
  lemma ReadyIsAccounted(s: System, e: Step, t: nat)
    requires Owned(s) && ShutdownInv(s) && Enabled(s, e) && Take(s, e).listed.Some?
    requires t in Take(s, e).starts && Take(s, e).starts[t].pc.Ready?
    ensures Accounted(Take(s, e), Take(s, e).starts[t].pc.id)
  {
    var s' := Take(s, e);
    assert t in s.starts;
    assert StartOwns(s, s.starts[t]);
    var id := s'.starts[t].pc.id;
    if e.ListForShutdown? {
      assert id in s.ledger.rows;
    } else if s.starts[t].pc.Ready? {
      StartStaysOwner(s, e, t);
      AccountedStays(s, e, id);
    }
  }

  lemma StepKeepsShutdownInv(s: System, e: Step)
    requires Inv(s) && ShutdownInv(s) && Enabled(s, e)
    ensures ShutdownInv(Take(s, e))
  {
    var s' := Take(s, e);
    StepKeepsRowsPresent(s, e);
    StepKeepsInv(s, e);
    if s'.listed.Some? {
      forall t | t in s'.starts && s'.starts[t].pc.Ready? ensures Accounted(s', s'.starts[t].pc.id) {
        ReadyIsAccounted(s, e, t);
      }
      forall id | id in s'.supervised ensures Accounted(s', id) {
        if e.ListForShutdown? {
          assert id in s.ledger.rows;
        } else if id in s.supervised {
          AccountedStays(s, e, id);
        } else {
          assert e.Supervise? && s.starts[e.tok].pc.Ready?;
          AccountedStays(s, e, id);
        }
      }
    }
  }

  lemma {:induction false} ShutdownInvOverRuns(steps: seq<Step>)
    requires IsRun(steps)
    ensures ShutdownInv(Reached(steps))
  {
    if steps != [] {
      ShutdownInvOverRuns(steps[..|steps| - 1]);
      CountersConserved(steps[..|steps| - 1]);
      StepKeepsShutdownInv(Reached(steps[..|steps| - 1]), steps[|steps| - 1]);
    }
  }

  /** No process slips past a shutdown: once its list is read, every supervised process is in
      the list or already has a durable or fallback cause. */
  lemma NothingEscapesShutdown(steps: seq<Step>, id: ProcessId)
    requires IsRun(steps) && Reached(steps).listed.Some? && id in Reached(steps).supervised
    ensures Reached(steps).mem.closed && Accounted(Reached(steps), id)
  {
    ShutdownInvOverRuns(steps);
  }

  lemma OneMore(steps: seq<Step>, e: Step)
    requires IsRun(steps) && Enabled(Reached(steps), e)
    ensures IsRun(steps + [e]) && Reached(steps + [e]) == Take(Reached(steps), e)
  {
    assert (steps + [e])[..|steps + [e]| - 1] == steps;
  }

  /** A shutdown can begin in every run: admission closes, and its list is then what runs. */
  lemma ShutdownListsWhatRuns(steps: seq<Step>)
    requires IsRun(steps)
    ensures IsRun(steps + [CloseAdmission]) && IsRun(steps + [CloseAdmission] + [ListForShutdown])
    ensures
      var s := Reached(steps + [CloseAdmission] + [ListForShutdown]);
      && s.mem.closed && s.ledger == Reached(steps).ledger && s.supervised == Reached(steps).supervised
      && s.listed.Some?
      && forall id :: id in s.listed.value <==> id in s.ledger.rows && s.ledger.rows[id].state == Running
  {
    OneMore(steps, CloseAdmission);
    OneMore(steps + [CloseAdmission], ListForShutdown);
  }

  lemma ClosedStep(s: System, e: Step)
    requires Enabled(s, e) && s.mem.closed
    ensures !e.Reserve? && (e != Crash ==> Take(s, e).mem.closed)
  {}

  /** Closed admission stays closed, and no start is let in, until the daemon is started again. */
  lemma {:induction false} ClosedAdmitsNoStart(steps: seq<Step>, i: nat)
    requires IsRun(steps) && i < |steps| && steps[i].CloseAdmission? && Crash !in steps[i..]
    ensures Reached(steps).mem.closed
    ensures forall j | i < j < |steps| :: !steps[j].Reserve?
  {
    var before, e := steps[..|steps| - 1], steps[|steps| - 1];
    if i < |before| {
      assert before[i..] == steps[i..][..|steps[i..]| - 1];
      ClosedAdmitsNoStart(before, i);
      assert e == steps[i..][|steps| - 1 - i];
      ClosedStep(Reached(before), e);
    }
  }

  /** The row a start leaves in the store: its session and flag, running, with nothing written yet. */
  lemma StartedRow(steps: seq<Step>, tok: nat, up: bool)
    requires IsRun(steps) && Enabled(Reached(steps), InsertRow(tok, up))
    ensures
      var s, t := Reached(steps), Take(Reached(steps), InsertRow(tok, up));
      var st, id := s.starts[tok], s.starts[tok].pc.id;
      && (t.starts[tok].pc == Inserted(id) || t.starts[tok].pc == InsertFailed(id))
      && (t.starts[tok].pc == Inserted(id) ==>
            && id !in s.ledger.rows
            && t.ledger.rows == s.ledger.rows[id := Row(st.session, st.root, st.advertise, 0, None, NoIntent, Running)])
      && (t.starts[tok].pc == InsertFailed(id) ==> t.ledger.rows == s.ledger.rows)
  {}

  lemma LiveCoversOutstanding(s: System, x: SessionId, c: Class)
    requires Inv(s)
    ensures Outstanding(s, x, c) <= Get(s.mem.live, x)
  {
    assert Conserved(s, x);
    match c
    case Candidate =>
    case Background =>
  }

  /** What `waitForNoLive` waits for: with every live counter at zero nothing is tracked,
      nothing is supervised and no start carries a reservation. */
  lemma NoLiveMeansNothingHeld(steps: seq<Step>)
    requires IsRun(steps) && forall x: SessionId :: Get(Reached(steps).mem.live, x) == 0
    ensures Reached(steps).mem.tracked == map[] && Reached(steps).supervised == {}
    ensures Reached(steps).starts == map[]
  {
    CountersConserved(steps);
    var s := Reached(steps);
    if id :| id in s.mem.tracked {
      EntryHoldsCounts(s, id);
      LiveCoversOutstanding(s, s.mem.tracked[id].session, s.mem.tracked[id].class_);
      assert false;
    }
    assert s.mem.tracked.Keys == {};
    if t :| t in s.starts {
      assert StartOwns(s, s.starts[t]);
      StartHoldsCounts(s, t);
      LiveCoversOutstanding(s, s.starts[t].session, ClassFor(s.starts[t].advertise));
      assert false;
    }
    assert s.starts.Keys == {};
  }

  // ----- the imperative service -----

  datatype Admission = Admitted(class_: Class) | Fenced | SlotLimit | CandidateLimit

  /** The finalize call the supervisor makes: with a fallback the natural outcome is not used. */
  function FinalizeCall(id: ProcessId, fallback: Intent, natural: State, exitCode: Option<int>, size: int,
      up: bool): Op {
    if fallback != NoIntent then Op.Finalize(id, IntentToState(fallback), None, size, fallback, up)
    else Op.Finalize(id, natural, exitCode, size, NoIntent, up)
  }

  lemma FallbackOverridesNatural(l: Ledger, id: ProcessId, fallback: Intent, natural: State, exitCode: Option<int>,
      size: int, up: bool)
    ensures Apply(l, FinalizeCall(id, fallback, natural, exitCode, size, up)) ==
            Apply(l, Op.Finalize(id, natural, exitCode, size, fallback, up))
    ensures ReplyOf(l, FinalizeCall(id, fallback, natural, exitCode, size, up)) ==
            ReplyOf(l, Op.Finalize(id, natural, exitCode, size, fallback, up))
  {}

  class Service {
    const store: Store
    var live: map<SessionId, int>
    var background: map<SessionId, int>
    var candidates: map<SessionId, int>
    var tracked: map<ProcessId, Entry>
    var fallback: map<ProcessId, Intent>
    var closed: bool
    var ids: nat

    constructor (store: Store)
      ensures View() == FRESH && this.store == store
    {
      this.store := store;
      live, background, candidates := map[], map[], map[];
      tracked, fallback, closed, ids := map[], map[], false, 0;
    }

    function View(): Memory reads this { Memory(live, background, candidates, tracked, fallback, closed, ids) }

    method Reserve(session: SessionId, advertise: bool) returns (a: Admission)
      modifies this`live, this`background, this`candidates
      ensures a.Admitted? <==> !closed && HasRoom(old(View()), session, ClassFor(advertise))
      ensures View() == if a.Admitted? then Add(old(View()), session, ClassFor(advertise), 1) else old(View())
      ensures a.Admitted? ==> a.class_ == ClassFor(advertise)
      ensures a.Fenced? <==> closed
      ensures a.SlotLimit? ==> advertise
      ensures a.CandidateLimit? ==> !advertise
    {
      if closed { return Fenced; }
      var class_ := Candidate;
      if advertise {
        class_ := Background;
        if Get(background, session) >= BACKGROUND_LIMIT { return SlotLimit; }
        background := Bump(background, session, 1);
      } else {
        if Get(candidates, session) >= CANDIDATE_LIMIT { return CandidateLimit; }
        candidates := Bump(candidates, session, 1);
      }
      live := Bump(live, session, 1);
      return Admitted(class_);
    }

    method ReleaseReservation(session: SessionId, class_: Class)
      modifies this`live, this`background, this`candidates
      ensures View() == Release(old(View()), session, class_)
    {
      if Get(live, session) > 0 { live := Bump(live, session, -1); }
      if class_ == Background && Get(background, session) > 0 { background := Bump(background, session, -1); }
      if class_ == Candidate && Get(candidates, session) > 0 { candidates := Bump(candidates, session, -1); }
    }

    method ReleaseTrackedProcess(id: ProcessId, session: SessionId)
      requires id in tracked ==> tracked[id].session == session
      modifies this
      ensures View() == ReleaseTracked(old(View()), id)
    {
      if id !in tracked { return; }
      var class_ := tracked[id].class_;
      tracked, fallback := tracked - {id}, fallback - {id};
      ReleaseReservation(session, class_);
    }

    method RecordFallbackIntent(id: ProcessId, intent: Intent) returns (cancellable: bool)
      modifies this`fallback
      ensures View() == WithFallback(old(View()), id, intent) && cancellable == (id in tracked)
    {
      cancellable := id in tracked;
      if cancellable && FallbackOf(View(), id) == NoIntent { fallback := fallback[id := intent]; }
    }

    /** Capacity check, durable update and class switch are one locked transition. */
    method Advertise(id: ProcessId, up: bool) returns (advertised: bool, full: bool)
      modifies this`candidates, this`background, this`tracked, store`rows
      ensures full <==> AdvertiseOp(old(View()), id, up).None?
      ensures full ==> View() == old(View()) && store.View() == old(store.View()) && !advertised
      ensures !full ==>
        && store.View() == Apply(old(store.View()), Op.Advertise(id, up))
        && (advertised <==> ReplyOf(old(store.View()), Op.Advertise(id, up)) == Won)
        && View() == if advertised && id in old(tracked) && old(tracked)[id].class_ == Candidate
                     then Promote(old(View()), id) else old(View())
    {
      full := false;
      if id !in tracked || tracked[id].class_ != Candidate {
        var reply := store.Advertise(id, up);
        return reply == Won, false;
      }
      var session := tracked[id].session;
      if Get(background, session) >= BACKGROUND_LIMIT { return false, true; }
      var reply := store.Advertise(id, up);
      advertised := reply == Won;
      if advertised {
        candidates := Bump(candidates, session, -1);
        background := Bump(background, session, 1);
        tracked := tracked[id := Entry(session, Background)];
      }
    }

    /** Up to three attempts; only an uncommitted transaction is retried. `ups` holds the fate
        of each attempt that the context still allowed. */
    method FinalizeWithRetry(id: ProcessId, fallback: Intent, natural: State, exitCode: Option<int>, size: int,
        ups: seq<bool>)
      returns (reply: Reply)
      modifies store`rows, store`inbox
      ensures
        var op := FinalizeCall(id, fallback, natural, exitCode, size, exists i | 0 <= i < |ups| && i < 3 :: ups[i]);
        store.View() == Apply(old(store.View()), op) && reply == ReplyOf(old(store.View()), op)
    {
      reply := Error;
      var attempt := 0;
      while attempt < 3 && attempt < |ups|
        invariant 0 <= attempt <= 3 && attempt <= |ups|
        invariant reply == Error && store.View() == old(store.View())
        invariant (exists i | 0 <= i < attempt :: ups[i]) ==>
          ReplyOf(old(store.View()), FinalizeCall(id, fallback, natural, exitCode, size, true)) == Error
      {
        var winner;
        if fallback != NoIntent {
          winner, reply := store.FinalizeWithIntent(id, fallback, size, ups[attempt]);
        } else {
          winner, reply := store.Finalize(id, natural, exitCode, size, NoIntent, ups[attempt]);
        }
        if reply != Error { return; }
        attempt := attempt + 1;
      }
    }

    /** Terminalize under the lock, then give back the recorded class exactly once. */
    method FinalizeTracked(id: ProcessId, session: SessionId, natural: State, exitCode: Option<int>, size: int,
        ups: seq<bool>)
      returns (reply: Reply)
      requires id in tracked && tracked[id].session == session
      modifies this, store`rows, store`inbox
      ensures View() == ReleaseTracked(old(View()), id)
      ensures
        var up := exists i | 0 <= i < |ups| && i < 3 :: ups[i];
        var op := Op.Finalize(id, natural, exitCode, size, FallbackOf(old(View()), id), up);
        store.View() == Apply(old(store.View()), op) && reply == ReplyOf(old(store.View()), op)
    {
      ghost var up := exists i | 0 <= i < |ups| && i < 3 :: ups[i];
      var cause := FallbackOf(View(), id);
      FallbackOverridesNatural(store.View(), id, cause, natural, exitCode, size, up);
      reply := FinalizeWithRetry(id, cause, natural, exitCode, size, ups);
      var class_ := tracked[id].class_;
      tracked, fallback := tracked - {id}, fallback - {id};
      ReleaseReservation(session, class_);
    }
  }
}
