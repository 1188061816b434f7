/** The loop that delivers a session's output rows to a chat: at least once, in order, behind a
    durable cursor, with an entry prelude after every change of focus. */
module ChatDelivery {

  import opened Options

  const BATCH := 100
  const PRELUDE := 3

  type Session = int

  /** An output row; its id is its position, counted from 1. Lifecycle rows are silent. */
  datatype Row = Row(session: Session, silent: bool)

  /** A replaced root passes its chat on; a killed one committed its close row with the kill. */
  datatype Life = Live | Ending | Replaced | Killed | Gone

  /** How a row was dealt with: nothing to send, sent, or a failure notice sent in its place. */
  datatype How = Silent | Sent | Noticed

  datatype Handled = Handled(id: nat, how: How)

  datatype Pc =
    | Idle
    | Entering(f: Session)
    | Presenting(f: Session)
    | Tailing(f: Session, after: nat, batch: seq<nat>, again: bool)
    | Delivered(f: Session, after: nat, id: nat, batch: seq<nat>, again: bool)
    | AskKilled(f: Session, after: nat)
    | Resetting(f: Session, after: nat)

  /** The store: rows, sessions, the chat's focus and cursor. The loop's memory: where it is and
      its prelude. History: the snapshot of the last entry and what was dealt with since, and of the
      prelude how many rows there were when it was read and what of it was shown. */
  datatype State = State(
    rows: seq<Row>, life: map<Session, Life>, focus: Option<Session>, cursor: Option<nat>,
    pc: Pc, preludeFor: Option<Session>, newest: nat, prelude: seq<nat>,
    base: nat, log: seq<Handled>, read: Shown, entry: Shown)

  /** The items shown of a prelude that was read when there were `rows` rows. */
  datatype Shown = Shown(rows: nat, items: seq<nat>)

  const BOOT := State([], map[], None, None, Idle, None, 0, [], 0, [], Shown(0, []), Shown(0, []))

  datatype Step =
    // the loop
    | ReadFocus | Prepare | Present(ok: bool) | Enter | Read | Deliver(how: How) | Advance | QueryKilled | Reset
    | Fail | Restart
    // everyone else
    | Open(f: Session) | Emit(f: Session, silent: bool) | Switch(f: Session) | Replace(f: Session, g: Session)
    | Terminate(f: Session) | Kill(f: Session)

  /** The ids of the session's rows after `lo`, up to `hi`. */
  function RowIds(rows: seq<Row>, f: Session, lo: nat, hi: nat): seq<nat>
    requires hi <= |rows|
  {
    if hi <= lo then [] else RowIds(rows, f, lo, hi - 1) + (if rows[hi - 1].session == f then [hi] else [])
  }

  function After(rows: seq<Row>, f: Session, a: nat): seq<nat> { RowIds(rows, f, a, |rows|) }

  function LastOf(ids: seq<nat>): nat { if ids == [] then 0 else ids[|ids| - 1] }

  function Upto(ids: seq<nat>, n: nat): seq<nat> { if |ids| <= n then ids else ids[..n] }

  function Renderable(rows: seq<Row>, ids: seq<nat>): seq<nat>
    requires forall i | 0 <= i < |ids| :: 1 <= ids[i] <= |rows|
  {
    if ids == [] then []
    else Renderable(rows, ids[..|ids| - 1]) + (if rows[LastOf(ids) - 1].silent then [] else [LastOf(ids)])
  }

  function Newest(ids: seq<nat>, n: nat): seq<nat> { if |ids| <= n then ids else ids[|ids| - n..] }

  predicate Dead(l: Life) { l == Killed || l == Gone }

  predicate InTail(pc: Pc) { pc.Tailing? || pc.Delivered? || pc.AskKilled? || pc.Resetting? }

  predicate Enabled(s: State, e: Step) {
    match e
    case ReadFocus => s.pc.Idle?
    case Prepare => s.pc.Entering?
    case Present(_) => s.pc.Presenting? && s.prelude != []
    case Enter => s.pc.Presenting? && s.prelude == []
    case Read => s.pc.Tailing? && s.pc.batch == []
    case Deliver(how) =>
      && s.pc.Tailing? && s.pc.batch != [] && 1 <= s.pc.batch[0] <= |s.rows|
      && (how.Silent? <==> s.rows[s.pc.batch[0] - 1].silent)
    case Advance => s.pc.Delivered?
    case QueryKilled => s.pc.AskKilled?
    case Reset => s.pc.Resetting?
    case Fail => true
    case Restart => true
    case Open(f) => f !in s.life
    case Emit(f, _) => f in s.life && !Dead(s.life[f])
    case Switch(f) => f in s.life && s.life[f] == Live
    case Replace(f, g) => f in s.life && g in s.life && s.life[f] == Live && s.life[g] == Live && f != g
    case Terminate(f) => f in s.life && s.life[f] == Live
    case Kill(f) => f in s.life && !Dead(s.life[f])
  }

  lemma {:induction false} RowIdsBounds(rows: seq<Row>, f: Session, lo: nat, hi: nat)
    requires hi <= |rows|
    ensures forall i | 0 <= i < |RowIds(rows, f, lo, hi)| ::
      lo < RowIds(rows, f, lo, hi)[i] <= hi && rows[RowIds(rows, f, lo, hi)[i] - 1].session == f
    ensures forall i, j | 0 <= i < j < |RowIds(rows, f, lo, hi)| ::
      RowIds(rows, f, lo, hi)[i] < RowIds(rows, f, lo, hi)[j]
  {
    if hi > lo { RowIdsBounds(rows, f, lo, hi - 1); }
  }

  function PreludeOf(rows: seq<Row>, f: Session): seq<nat> {
    RowIdsBounds(rows, f, 0, |rows|);
    [0] + Newest(Renderable(rows, After(rows, f, 0)), PRELUDE)
  }

  function Take(s: State, e: Step): State
    requires Enabled(s, e)
  {
    match e
    case ReadFocus =>
      if s.focus.None? then s.(prelude := [])
      else if s.cursor.None? then s.(pc := Entering(s.focus.value))
      else s.(pc := Tailing(s.focus.value, s.cursor.value, [], false), prelude := [])
    case Prepare =>
      if s.prelude != [] && s.preludeFor == Some(s.pc.f) then s.(pc := Presenting(s.pc.f))
      else s.(pc := Presenting(s.pc.f), preludeFor := Some(s.pc.f), prelude := PreludeOf(s.rows, s.pc.f),
              newest := LastOf(After(s.rows, s.pc.f, 0)), read := Shown(|s.rows|, []))
    case Present(ok) =>
      if ok then s.(prelude := s.prelude[1..], read := s.read.(items := s.read.items + [s.prelude[0]]))
      else s.(pc := Idle)
    case Enter =>
      if s.focus == Some(s.pc.f) && s.cursor.None?
      then s.(cursor := Some(s.newest), pc := Tailing(s.pc.f, s.newest, [], false), base := s.newest, log := [],
              entry := s.read)
      else s.(pc := Idle, prelude := [])
    case Read =>
      var ids := Upto(After(s.rows, s.pc.f, s.pc.after), BATCH);
      if ids != [] then s.(pc := Tailing(s.pc.f, s.pc.after, ids, s.pc.again))
      else if s.pc.again then s.(pc := Resetting(s.pc.f, s.pc.after))
      else s.(pc := AskKilled(s.pc.f, s.pc.after))
    case Deliver(how) =>
      var p := s.pc;
      s.(pc := Delivered(p.f, p.after, p.batch[0], p.batch[1..], p.again), log := s.log + [Handled(p.batch[0], how)])
    case Advance =>
      var p := s.pc;
      if s.focus == Some(p.f) && s.cursor.Some? && s.cursor.value < p.id
      then s.(cursor := Some(p.id), pc := Tailing(p.f, p.id, p.batch, p.again))
      else s.(pc := Idle)
    case QueryKilled =>
      if s.pc.f in s.life && Dead(s.life[s.pc.f]) then s.(pc := Tailing(s.pc.f, s.pc.after, [], true))
        else s.(pc := Idle)
    case Reset =>
      if s.focus == Some(s.pc.f) then s.(focus := None, cursor := None, pc := Idle) else s.(pc := Idle)
    case Fail => s.(pc := Idle)
    case Restart => s.(pc := Idle, preludeFor := None, newest := 0, prelude := [])
    case Open(f) => s.(life := s.life[f := Live])
    case Emit(f, silent) => s.(rows := s.rows + [Row(f, silent)])
    case Switch(f) => s.(focus := Some(f), cursor := None)
    case Replace(f, g) =>
      var t := s.(life := s.life[f := Replaced]);
      if s.focus == Some(f) then t.(focus := Some(g), cursor := None) else t
    case Terminate(f) => s.(life := s.life[f := Ending])
    case Kill(f) =>
      if s.life[f] == Replaced then s.(life := s.life[f := Gone])
      else s.(life := s.life[f := Killed], rows := s.rows + [Row(f, false)])
  }

  ghost predicate ReachedIn(n: nat, s: State) {
    if n == 0 then s == BOOT
    else exists b: State, e: Step :: ReachedIn(n - 1, b) && Enabled(b, e) && s == Take(b, e)
  }

  ghost predicate Reachable(s: State) { exists n: nat :: ReachedIn(n, s) }

  // ----- rows -----

  lemma {:induction false} MoreRows(rows: seq<Row>, more: seq<Row>, f: Session, lo: nat, hi: nat)
    requires hi <= |rows|
    ensures RowIds(rows + more, f, lo, hi) == RowIds(rows, f, lo, hi)
  {
    if hi > lo { MoreRows(rows, more, f, lo, hi - 1); }
  }

  lemma AfterMore(rows: seq<Row>, r: Row, f: Session, a: nat)
    requires a <= |rows|
    ensures After(rows + [r], f, a) == After(rows, f, a) + (if r.session == f then [|rows| + 1] else [])
  {
    MoreRows(rows, [r], f, a, |rows|);
  }

  lemma {:induction false} RowIdsSplit(rows: seq<Row>, f: Session, lo: nat, mid: nat, hi: nat)
    requires lo <= mid <= hi <= |rows|
    ensures RowIds(rows, f, lo, hi) == RowIds(rows, f, lo, mid) + RowIds(rows, f, mid, hi)
  {
    if hi > mid { RowIdsSplit(rows, f, lo, mid, hi - 1); }
  }

  /** The first row after `a` is the only one up to itself, and the others come after it. */
  lemma {:induction false} FirstAfter(rows: seq<Row>, f: Session, a: nat, hi: nat)
    requires hi <= |rows| && RowIds(rows, f, a, hi) != []
    ensures
      var ids := RowIds(rows, f, a, hi);
      && a < ids[0] <= hi && RowIds(rows, f, a, ids[0]) == [ids[0]] && RowIds(rows, f, ids[0], hi) == ids[1..]
  {
    if RowIds(rows, f, a, hi - 1) == [] {
      assert RowIds(rows, f, a, hi) == [hi];
    } else {
      FirstAfter(rows, f, a, hi - 1);
      var ids := RowIds(rows, f, a, hi - 1);
      assert RowIds(rows, f, a, hi)[1..] == ids[1..] + (if rows[hi - 1].session == f then [hi] else []);
    }
  }

  // ----- the delivery log -----

  /** The ids dealt with, a row delivered again in a row counted once. */
  function Collapse(log: seq<Handled>): seq<nat> {
    if log == [] then []
    else
      var n := |log| - 1;
      if n > 0 && log[n].id == log[n - 1].id then Collapse(log[..n]) else Collapse(log[..n]) + [log[n].id]
  }

  lemma {:induction false} CollapseLast(log: seq<Handled>)
    requires log != []
    ensures Collapse(log) != [] && LastOf(Collapse(log)) == log[|log| - 1].id
  {
    var n := |log| - 1;
    if n > 0 { CollapseLast(log[..n]); }
  }

  /** One more delivery adds its id, unless it repeats the last. */
  lemma CollapseNext(log: seq<Handled>, h: Handled)
    ensures Collapse(log + [h]) == if log != [] && LastOf(Collapse(log)) == h.id then Collapse(log)
      else Collapse(log) + [h.id]
  {
    var more := log + [h];
    assert more[..|log|] == log;
    if log != [] { CollapseLast(log); }
  }

  /** Every delivery in the log suits its row: silent rows only, and exactly they, go unsent. */
  predicate Suits(rows: seq<Row>, h: Handled) {
    1 <= h.id <= |rows| && (h.how.Silent? <==> rows[h.id - 1].silent)
  }

  /** The rows up to the cursor were dealt with in order, and perhaps the next one already. */
  predicate LogOk(s: State, f: Session, c: nat) {
    && s.base <= c <= |s.rows|
    && (|| Collapse(s.log) == RowIds(s.rows, f, s.base, c)
        || (After(s.rows, f, c) != [] && Collapse(s.log) == RowIds(s.rows, f, s.base, c) + [After(s.rows, f, c)[0]]))
  }

  predicate Logged(s: State) {
    && (s.cursor.Some? ==> s.focus.Some? && LogOk(s, s.focus.value, s.cursor.value))
    && (forall i | 0 <= i < |s.log| :: Suits(s.rows, s.log[i]))
  }

  /** Where the loop is agrees with the store. */
  predicate Placed(s: State) {
    match s.pc
    case Idle => true
    case Entering(_) => s.cursor.None?
    case Presenting(_) => s.cursor.None? && s.newest <= |s.rows|
    case Tailing(f, a, batch, again) =>
      && a <= |s.rows| && batch <= After(s.rows, f, a)
      && (again ==> f in s.life && Dead(s.life[f]))
      && (s.cursor.Some? ==> s.focus == Some(f) && s.cursor.value == a)
    case Delivered(f, a, id, batch, again) =>
      && a <= |s.rows| && [id] + batch <= After(s.rows, f, a)
      && (again ==> f in s.life && Dead(s.life[f]))
      && (s.cursor.Some? ==> s.focus == Some(f) && s.cursor.value == a)
      && (s.cursor.Some? ==> s.base <= a && Collapse(s.log) == RowIds(s.rows, f, s.base, a) + [id])
    case AskKilled(f, a) =>
      a <= |s.rows| && (s.cursor.Some? ==> s.focus == Some(f) && s.cursor.value == a)
    case Resetting(f, a) =>
      && a <= |s.rows| && f in s.life && Dead(s.life[f]) && After(s.rows, f, a) == []
      && (s.cursor.Some? ==> s.focus == Some(f) && s.cursor.value == a)
  }

  /** The focus is never a session that passed its chat on, and while an entry is owed to a killed
      focus its close row is still ahead of the loop. */
  predicate Owed(s: State) {
    && (s.focus.Some? ==> s.focus.value in s.life && s.life[s.focus.value] != Replaced && s.life[s.focus.value] != Gone)
    && (InTail(s.pc) && s.focus == Some(s.pc.f) && s.cursor.None? && s.life[s.pc.f] == Killed ==>
          After(s.rows, s.pc.f, s.pc.after) != [])
  }

  predicate PreludeOk(s: State) { s.newest <= |s.rows| }

  predicate Inv(s: State) { PreludeOk(s) && Logged(s) && Placed(s) && Owed(s) }

  // ----- every step keeps it -----

  lemma AppendKeepsLogged(s: State, r: Row)
    requires Logged(s)
    ensures Logged(s.(rows := s.rows + [r]))
  {
    var t := s.(rows := s.rows + [r]);
    if s.cursor.Some? {
      var f, c := s.focus.value, s.cursor.value;
      MoreRows(s.rows, [r], f, s.base, c);
      AfterMore(s.rows, r, f, c);
    }
    forall i | 0 <= i < |t.log| ensures Suits(t.rows, t.log[i]) { assert Suits(s.rows, s.log[i]); }
  }

  lemma AppendKeepsPlaced(s: State, r: Row)
    requires Placed(s) && r.session in s.life && !Dead(s.life[r.session])
    ensures Placed(s.(rows := s.rows + [r]))
  {
    if InTail(s.pc) { AfterMore(s.rows, r, s.pc.f, s.pc.after); }
    if s.pc.Delivered? && s.cursor.Some? { MoreRows(s.rows, [r], s.pc.f, s.base, s.pc.after); }
  }

  lemma AppendKeepsInv(s: State, r: Row)
    requires Inv(s) && r.session in s.life && !Dead(s.life[r.session])
    ensures Inv(s.(rows := s.rows + [r]))
  {
    AppendKeepsLogged(s, r);
    AppendKeepsPlaced(s, r);
    if InTail(s.pc) { AfterMore(s.rows, r, s.pc.f, s.pc.after); }
  }

  /** A session that dies with its close row. */
  lemma KillKeepsInv(s: State, f: Session)
    requires Inv(s) && Enabled(s, Kill(f))
    ensures Inv(Take(s, Kill(f)))
  {
    if s.life[f] != Replaced {
      AppendKeepsInv(s, Row(f, false));
      if InTail(s.pc) { AfterMore(s.rows, Row(f, false), s.pc.f, s.pc.after); }
    }
  }

  lemma OthersKeepInv(s: State, e: Step)
    requires Inv(s) && Enabled(s, e) && (e.Open? || e.Switch? || e.Replace? || e.Terminate?)
    ensures Inv(Take(s, e))
  {}

  lemma LastIsInRows(rows: seq<Row>, f: Session)
    ensures LastOf(After(rows, f, 0)) <= |rows|
  {
    RowIdsBounds(rows, f, 0, |rows|);
  }

  lemma EntryKeepsInv(s: State, e: Step)
    requires Inv(s) && Enabled(s, e) && (e.ReadFocus? || e.Prepare? || e.Present? || e.Fail? || e.Restart?)
    ensures Inv(Take(s, e))
  {
    if e.Prepare? { LastIsInRows(s.rows, s.pc.f); }
  }

  lemma EnterKeepsInv(s: State, e: Step)
    requires Inv(s) && Enabled(s, e) && (e.Enter? || e.QueryKilled? || e.Reset?)
    ensures Inv(Take(s, e))
  {}

  lemma ReadKeepsInv(s: State, e: Step)
    requires Inv(s) && Enabled(s, e) && e.Read?
    ensures Inv(Take(s, e))
  {}

  lemma DeliverExtendsLog(s: State, h: Handled, f: Session, c: nat)
    requires LogOk(s, f, c) && After(s.rows, f, c) != [] && h.id == After(s.rows, f, c)[0]
    ensures Collapse(s.log + [h]) == RowIds(s.rows, f, s.base, c) + [h.id]
  {
    CollapseNext(s.log, h);
    RowIdsBounds(s.rows, f, s.base, c);
    FirstAfter(s.rows, f, c, |s.rows|);
    if s.log != [] { CollapseLast(s.log); }
  }

  lemma DeliverKeepsInv(s: State, e: Step)
    requires Inv(s) && Enabled(s, e) && e.Deliver?
    ensures Inv(Take(s, e))
  {
    var p, h := s.pc, Handled(s.pc.batch[0], e.how);
    assert p.batch == [p.batch[0]] + p.batch[1..];
    assert After(s.rows, p.f, p.after)[0] == p.batch[0];
    if s.cursor.Some? { DeliverExtendsLog(s, h, p.f, p.after); }
    var t := Take(s, e);
    forall i | 0 <= i < |t.log| ensures Suits(t.rows, t.log[i]) {
      if i < |s.log| { assert Suits(s.rows, s.log[i]); }
    }
  }

  lemma AdvanceKeepsInv(s: State, e: Step)
    requires Inv(s) && Enabled(s, e) && e.Advance?
    ensures Inv(Take(s, e))
  {
    var p := s.pc;
    var ids := After(s.rows, p.f, p.after);
    assert ids[0] == p.id && ids[1..] == ([p.id] + ids[1..])[1..];
    FirstAfter(s.rows, p.f, p.after, |s.rows|);
    assert p.batch <= ids[1..];
    if s.cursor.Some? { RowIdsSplit(s.rows, p.f, s.base, p.after, p.id); }
  }

  lemma StepKeepsInv(s: State, e: Step)
    requires Inv(s) && Enabled(s, e)
    ensures Inv(Take(s, e))
  {
    match e
    case Enter => EnterKeepsInv(s, e);
    case QueryKilled => EnterKeepsInv(s, e);
    case Reset => EnterKeepsInv(s, e);
    case Read => ReadKeepsInv(s, e);
    case Deliver(_) => DeliverKeepsInv(s, e);
    case Advance => AdvanceKeepsInv(s, e);
    case Emit(f, silent) => AppendKeepsInv(s, Row(f, silent));
    case Kill(f) => KillKeepsInv(s, f);
    case Open(_) => OthersKeepInv(s, e);
    case Switch(_) => OthersKeepInv(s, e);
    case Replace(_, _) => OthersKeepInv(s, e);
    case Terminate(_) => OthersKeepInv(s, e);
    case _ => EntryKeepsInv(s, e);
  }

  lemma {:induction false} OverRuns(n: nat, s: State)
    requires ReachedIn(n, s)
    ensures Inv(s)
  {
    if n > 0 {
      var b: State, e: Step :| ReachedIn(n - 1, b) && Enabled(b, e) && s == Take(b, e);
      OverRuns(n - 1, b);
      StepKeepsInv(b, e);
    }
  }

  // ----- what holds over every run -----

  /** Across failures, restarts and focus changes: while a cursor stands, the deliveries since the
      entry snapshot are, repetitions aside, exactly the focus's rows from the snapshot to the
      cursor in id order, with at most the next row besides; silent rows and only they went
      unsent, and every other one was sent or replaced by a delivered notice. */
  lemma NoGapsNoReordering(s: State)
    requires Reachable(s) && s.cursor.Some?
    ensures s.focus.Some? && s.base <= s.cursor.value <= |s.rows|
    ensures
      var f, c := s.focus.value, s.cursor.value;
      var upTo := RowIds(s.rows, f, s.base, c);
      Collapse(s.log) == upTo || (After(s.rows, f, c) != [] && Collapse(s.log) == upTo + [After(s.rows, f, c)[0]])
    ensures forall i | 0 <= i < |s.log| :: Suits(s.rows, s.log[i])
  {
    var n: nat :| ReachedIn(n, s);
    OverRuns(n, s);
  }

  lemma {:induction false} CollapseComes(log: seq<Handled>, k: nat) returns (i: nat)
    requires k < |Collapse(log)|
    ensures i < |log| && log[i].id == Collapse(log)[k]
  {
    var n := |log| - 1;
    if k < |Collapse(log[..n])| { i := CollapseComes(log[..n], k); } else { i := n; }
  }

  lemma {:induction false} RowIdsHolds(rows: seq<Row>, f: Session, lo: nat, hi: nat, id: nat)
    requires hi <= |rows| && lo < id <= hi && rows[id - 1].session == f
    ensures id in RowIds(rows, f, lo, hi)
  {
    if id < hi { RowIdsHolds(rows, f, lo, hi - 1, id); }
  }

  /** In particular no row between the snapshot and the cursor was skipped. */
  lemma NoRowSkipped(s: State, id: nat) returns (i: nat)
    requires Reachable(s) && s.cursor.Some? && s.base < id <= s.cursor.value <= |s.rows|
    requires s.focus.Some? && s.rows[id - 1].session == s.focus.value
    ensures i < |s.log| && s.log[i].id == id && Suits(s.rows, s.log[i])
  {
    NoGapsNoReordering(s);
    var upTo := RowIds(s.rows, s.focus.value, s.base, s.cursor.value);
    RowIdsHolds(s.rows, s.focus.value, s.base, s.cursor.value, id);
    var k :| 0 <= k < |upTo| && upTo[k] == id;
    i := CollapseComes(s.log, k);
  }

  /** The cursor only moves forward under a standing focus, one row of that focus at a time. */
  lemma CursorStepsRowByRow(s: State, e: Step)
    requires Reachable(s) && Enabled(s, e) && s.cursor.Some? && Take(s, e).cursor.Some? && Take(s, e).cursor != s.cursor
    ensures
      var c, d := s.cursor.value, Take(s, e).cursor.value;
      Take(s, e).focus == s.focus && c < d <= |s.rows| && RowIds(s.rows, s.focus.value, c, d) == [d]
  {
    var n: nat :| ReachedIn(n, s);
    OverRuns(n, s);
    FirstAfter(s.rows, s.pc.f, s.pc.after, |s.rows|);
  }

  /** The focus is given up only for a dead session all of whose rows the cursor has passed. */
  lemma ResetOnlyWhenDrained(s: State)
    requires Reachable(s) && Enabled(s, Reset) && s.focus.Some? && Take(s, Reset).focus.None?
    ensures s.focus.value in s.life && s.life[s.focus.value] == Killed
    ensures s.cursor.Some? && s.cursor.value <= |s.rows| && After(s.rows, s.focus.value, s.cursor.value) == []
  {
    var n: nat :| ReachedIn(n, s);
    OverRuns(n, s);
  }

  // ----- what an entry shows, and where it starts -----

  /** A row of the session that can be shown, among the first `n`. */
  predicate Showable(rows: seq<Row>, f: Session, n: nat, id: nat)
    requires n <= |rows|
  {
    1 <= id <= n && rows[id - 1].session == f && !rows[id - 1].silent
  }

  /** The header, item 0, and then the newest three showable rows of the first `n`, in id order. */
  predicate IsPrelude(rows: seq<Row>, f: Session, n: nat, items: seq<nat>) {
    && n <= |rows| && items != [] && items[0] == 0 && |items| <= 4
    && (forall i | 1 <= i < |items| :: Showable(rows, f, n, items[i]))
    && (forall i, j | 1 <= i < j < |items| :: items[i] < items[j])
    && (forall id | 1 <= id <= n && Showable(rows, f, n, id) && id !in items :: |items| == 4 && id < items[1])
  }

  /** `newest` is the session's last row among the first `n`, 0 when there is none. */
  predicate IsNewest(rows: seq<Row>, f: Session, n: nat, newest: nat) {
    && newest <= n <= |rows| && (newest > 0 ==> rows[newest - 1].session == f)
    && forall i | newest <= i < n :: rows[i].session != f
  }

  lemma {:induction false} RenderableHolds(rows: seq<Row>, ids: seq<nat>, id: nat)
    requires forall i | 0 <= i < |ids| :: 1 <= ids[i] <= |rows|
    ensures id in Renderable(rows, ids) <==> id in ids && !rows[id - 1].silent
  {
    if ids != [] {
      var front := ids[..|ids| - 1];
      RenderableHolds(rows, front, id);
      assert ids == front + [LastOf(ids)];
    }
  }

  predicate Rising(ids: seq<nat>) { forall i, j | 0 <= i < j < |ids| :: ids[i] < ids[j] }

  lemma {:induction false} RenderableRises(rows: seq<Row>, ids: seq<nat>)
    requires (forall i | 0 <= i < |ids| :: 1 <= ids[i] <= |rows|) && Rising(ids)
    ensures Rising(Renderable(rows, ids))
  {
    if ids != [] {
      var front := ids[..|ids| - 1];
      RenderableRises(rows, front);
      var r := Renderable(rows, front);
      forall i | 0 <= i < |r| ensures r[i] < LastOf(ids) {
        RenderableHolds(rows, front, r[i]);
        assert r[i] in front;
      }
    }
  }

  /** The header and the last three: in order, all from the list, and what is left out is older. */
  lemma LastThree(shown: seq<nat>, items: seq<nat>)
    requires Rising(shown) && items == [0] + Newest(shown, 3)
    ensures |items| <= 4 && forall i | 1 <= i < |items| :: items[i] in shown
    ensures forall i, j | 1 <= i < j < |items| :: items[i] < items[j]
    ensures forall x | x in shown && x !in items :: |items| == 4 && x < items[1]
  {
    var older := |shown| + 1 - |items|;
    assert forall i | 1 <= i < |items| :: items[i] == shown[older + i - 1];
    forall k | older <= k < |shown| ensures shown[k] in items { assert items[k - older + 1] == shown[k]; }
  }

  lemma PreludeIsPrelude(rows: seq<Row>, f: Session)
    ensures IsPrelude(rows, f, |rows|, PreludeOf(rows, f))
  {
    var n, all := |rows|, After(rows, f, 0);
    RowIdsBounds(rows, f, 0, n);
    var shown, items := Renderable(rows, all), PreludeOf(rows, f);
    RenderableRises(rows, all);
    LastThree(shown, items);
    forall i | 1 <= i < |items| ensures Showable(rows, f, n, items[i]) { RenderableHolds(rows, all, items[i]); }
    forall id | 1 <= id <= n && Showable(rows, f, n, id) ensures id in shown {
      RowIdsHolds(rows, f, 0, n, id);
      RenderableHolds(rows, all, id);
    }
  }

  lemma LastIsNewest(rows: seq<Row>, f: Session)
    ensures IsNewest(rows, f, |rows|, LastOf(After(rows, f, 0)))
  {
    var ids := After(rows, f, 0);
    RowIdsBounds(rows, f, 0, |rows|);
    forall i | LastOf(ids) <= i < |rows| ensures rows[i].session != f {
      if rows[i].session == f { RowIdsHolds(rows, f, 0, |rows|, i + 1); }
    }
  }

  /** While a prelude is under way, what was shown and what is left are the prelude as it was read;
      once entered, it was shown whole and the cursor started from the newest row of that moment. */
  predicate EntryOk(s: State) {
    && (s.prelude != [] || s.pc.Presenting? ==>
          && s.preludeFor.Some? && IsNewest(s.rows, s.preludeFor.value, s.read.rows, s.newest)
          && IsPrelude(s.rows, s.preludeFor.value, s.read.rows, s.read.items + s.prelude))
    && (s.pc.Presenting? ==> s.preludeFor == Some(s.pc.f))
    && (s.cursor.Some? ==>
          && s.focus.Some? && IsNewest(s.rows, s.focus.value, s.entry.rows, s.base)
          && IsPrelude(s.rows, s.focus.value, s.entry.rows, s.entry.items))
  }

  lemma MoreRowsKeepEntry(rows: seq<Row>, r: Row, f: Session, n: nat, items: seq<nat>, newest: nat)
    requires n <= |rows|
    ensures IsPrelude(rows, f, n, items) ==> IsPrelude(rows + [r], f, n, items)
    ensures IsNewest(rows, f, n, newest) ==> IsNewest(rows + [r], f, n, newest)
  {}

  lemma AppendKeepsEntry(s: State, r: Row)
    requires EntryOk(s)
    ensures EntryOk(s.(rows := s.rows + [r]))
  {
    if s.prelude != [] || s.pc.Presenting? {
      MoreRowsKeepEntry(s.rows, r, s.preludeFor.value, s.read.rows, s.read.items + s.prelude, s.newest);
    }
    if s.cursor.Some? { MoreRowsKeepEntry(s.rows, r, s.focus.value, s.entry.rows, s.entry.items, s.base); }
  }

  lemma PrepareKeepsEntry(s: State)
    requires EntryOk(s) && Enabled(s, Prepare)
    ensures EntryOk(Take(s, Prepare))
  {
    PreludeIsPrelude(s.rows, s.pc.f);
    LastIsNewest(s.rows, s.pc.f);
    assert [] + PreludeOf(s.rows, s.pc.f) == PreludeOf(s.rows, s.pc.f);
  }

  lemma PresentKeepsEntry(s: State, ok: bool)
    requires EntryOk(s) && Enabled(s, Present(ok))
    ensures EntryOk(Take(s, Present(ok)))
  {
    assert s.read.items + [s.prelude[0]] + s.prelude[1..] == s.read.items + s.prelude;
  }

  lemma EnterKeepsEntry(s: State)
    requires EntryOk(s) && Enabled(s, Enter)
    ensures EntryOk(Take(s, Enter))
  {
    assert s.read.items + [] == s.read.items;
  }

  /** Nothing of the entry was touched; a prelude may have been dropped, a cursor may be gone. */
  lemma UntouchedKeepsEntry(s: State, t: State)
    requires EntryOk(s) && t.rows == s.rows && t.preludeFor == s.preludeFor && t.newest == s.newest && t.read == s.read
    requires ((t.prelude == s.prelude || t.prelude == []) && !t.pc.Presenting?)
      || (t.pc == s.pc && t.prelude == s.prelude)
    requires t.cursor.Some? ==> s.cursor.Some? && t.focus == s.focus && t.entry == s.entry && t.base == s.base
    ensures EntryOk(t)
  {}

  lemma StepKeepsEntry(s: State, e: Step)
    requires EntryOk(s) && Enabled(s, e)
    ensures EntryOk(Take(s, e))
  {
    match e
    case Prepare => PrepareKeepsEntry(s);
    case Present(ok) => PresentKeepsEntry(s, ok);
    case Enter => EnterKeepsEntry(s);
    case Emit(f, silent) => AppendKeepsEntry(s, Row(f, silent));
    case Kill(f) => if s.life[f] != Replaced { AppendKeepsEntry(s, Row(f, false)); }
    case Restart =>
    case _ => UntouchedKeepsEntry(s, Take(s, e));
  }

  lemma {:induction false} EntryOverRuns(n: nat, s: State)
    requires ReachedIn(n, s)
    ensures EntryOk(s)
  {
    if n > 0 {
      var b: State, e: Step :| ReachedIn(n - 1, b) && Enabled(b, e) && s == Take(b, e);
      EntryOverRuns(n - 1, b);
      StepKeepsEntry(b, e);
    }
  }

  /** Over every run, while a cursor stands: the header and the newest three showable rows were shown
      before it, and it started at the newest row there was when they were read, so that no row of
      the focus from before lies ahead of it and none from after it was left behind. */
  lemma EntryStartsWhereItsPreludeEnds(s: State)
    requires Reachable(s) && s.cursor.Some?
    ensures s.focus.Some? && IsPrelude(s.rows, s.focus.value, s.entry.rows, s.entry.items)
    ensures s.base <= s.entry.rows <= |s.rows| && (s.base > 0 ==> s.rows[s.base - 1].session == s.focus.value)
    ensures forall i | s.base <= i < s.entry.rows :: s.rows[i].session != s.focus.value
  {
    var n: nat :| ReachedIn(n, s);
    EntryOverRuns(n, s);
  }

  // ----- the loop's own code, the others interleaved -----

  datatype SendClass = SendOK | Transient | RowPermanent | ChatFailure

  /** What happens around one port call: the others' steps before it, whether the store fails, and
      what the transport says to a send and to the notice after it. */
  datatype Turn = Turn(others: seq<Step>, err: bool, send: SendClass, probe: SendClass)

  predicate OfOthers(e: Step) { e.Open? || e.Emit? || e.Switch? || e.Replace? || e.Terminate? || e.Kill? }

  /** The loop's memory and history are untouched. */
  predicate SameLoop(s: State, t: State) {
    && t.pc == s.pc && t.prelude == s.prelude && t.preludeFor == s.preludeFor && t.newest == s.newest
    && t.base == s.base && t.log == s.log && t.read == s.read && t.entry == s.entry
  }

  /** A row's result and how it was dealt with: a refused row is replaced by a notice, and a
      refused notice means the chat itself fails. */
  method DeliverRow(row: Row, t: Turn) returns (result: SendClass, how: How)
    ensures how.Silent? <==> row.silent
    ensures how.Noticed? ==> t.send == RowPermanent
    ensures result == SendOK <==> row.silent || t.send == SendOK || (t.send == RowPermanent && t.probe == SendOK)
    ensures result != RowPermanent
  {
    if row.silent { return SendOK, Silent; }
    if t.send != RowPermanent { return t.send, Sent; }
    result, how := t.probe, Noticed;
    if result == RowPermanent { result := ChatFailure; }
  }

  /** Nobody else acts. */
  predicate Calm(script: seq<Turn>) { forall i | 0 <= i < |script| :: script[i].others == [] }

  /** Every store call and every send succeeds. */
  predicate Smooth(script: seq<Turn>) { forall i | 0 <= i < |script| :: !script[i].err && script[i].send == SendOK }

  /** The store is as it was, but perhaps for a cursor that has moved on. */
  predicate SameStore(s: State, t: State) {
    t.rows == s.rows && t.life == s.life && t.focus == s.focus && (s.cursor.Some? ==> t.cursor.Some?)
  }

  /** The chat is entered and the loop is at it. */
  predicate Entered(s: State, f: Session) { s.focus == Some(f) && s.cursor.Some? }

  /** Under a standing focus an acknowledged row moves the loop on. */
  lemma StandingFocusAdvances(s: State)
    requires Reachable(s) && s.pc.Delivered? && Entered(s, s.pc.f)
    ensures Take(s, Advance).pc.Tailing? && Take(s, Advance).cursor.Some?
  {
    var n: nat :| ReachedIn(n, s);
    OverRuns(n, s);
    FirstAfter(s.rows, s.pc.f, s.pc.after, |s.rows|);
    assert After(s.rows, s.pc.f, s.pc.after)[0] == s.pc.id;
  }

  lemma CursorIsPlace(s: State)
    requires Reachable(s) && InTail(s.pc) && s.cursor.Some?
    ensures s.focus == Some(s.pc.f) && s.cursor == Some(s.pc.after)
  {
    var n: nat :| ReachedIn(n, s);
    OverRuns(n, s);
  }

  /** The rows of the focus still ahead of the loop. */
  function Ahead(s: State): seq<nat>
    requires InTail(s.pc)
  {
    After(s.rows, s.pc.f, s.pc.after)
  }

  lemma {:induction false} FewAhead(rows: seq<Row>, f: Session, lo: nat, hi: nat)
    requires hi <= |rows|
    ensures |RowIds(rows, f, lo, hi)| <= hi
  {
    if hi > lo { FewAhead(rows, f, lo, hi - 1); }
  }

  lemma BatchIsAhead(s: State)
    requires Reachable(s) && s.pc.Tailing?
    ensures s.pc.batch <= Ahead(s)
  {
    var n: nat :| ReachedIn(n, s);
    OverRuns(n, s);
  }

  /** An acknowledged row is behind, and the others are still ahead. */
  lemma AdvancePassesOne(s: State)
    requires Reachable(s) && s.pc.Delivered? && Take(s, Advance).pc.Tailing?
    ensures Ahead(s) != [] && Ahead(Take(s, Advance)) == Ahead(s)[1..]
  {
    var n: nat :| ReachedIn(n, s);
    OverRuns(n, s);
    assert Ahead(s)[0] == s.pc.id;
    FirstAfter(s.rows, s.pc.f, s.pc.after, |s.rows|);
  }

  lemma PreludeIsShort(s: State)
    requires Reachable(s) && s.pc.Presenting?
    ensures |s.prelude| <= 4
  {
    var n: nat :| ReachedIn(n, s);
    EntryOverRuns(n, s);
    assert |s.read.items + s.prelude| <= 4;
  }

  /** What a pass that met no failure leaves behind when nobody else acted: nothing to do, or a chat
      entered with every row of its focus behind the cursor, or, if that session is dead, no focus. */
  predicate PassDone(before: State, after: State) {
    && after.rows == before.rows && after.life == before.life
    && (before.focus.None? ==> after.focus.None?)
    && (before.focus.Some? ==>
          var f := before.focus.value;
          if f in before.life && Dead(before.life[f]) then after.focus.None?
          else Entered(after, f) && After(after.rows, f, after.cursor.value) == [])
  }

  class ChatLoop {
    var s: State
    var script: seq<Turn>

    ghost predicate Valid()
      reads this
    {
      Reachable(s)
    }

    constructor (script: seq<Turn>)
      ensures Valid() && s == BOOT && this.script == script
    {
      this.s, this.script := BOOT, script;
      new;
      assert ReachedIn(0, s);
    }

    /** One step of the machine. */
    method Do(e: Step)
      requires Valid() && Enabled(s, e)
      modifies `s
      ensures Valid() && s == Take(old(s), e)
    {
      ghost var n: nat :| ReachedIn(n, s);
      s := Take(s, e);
      assert ReachedIn(n + 1, s);
    }

    /** The next turn, with the others' steps taken; once the script is over the loop is stopped. */
    method NextTurn() returns (t: Turn)
      requires Valid()
      modifies this
      ensures Valid() && SameLoop(old(s), s)
      ensures |script| < |old(script)| || (t.err && t.send == Transient && script == old(script) == [])
      ensures |script| >= |old(script)| - 1
      ensures Calm(old(script)) ==> Calm(script) && s == old(s)
      ensures Smooth(old(script)) ==> Smooth(script) && (old(script) != [] ==> !t.err && t.send == SendOK)
    {
      if script == [] { return Turn([], true, Transient, Transient); }
      t := script[0];
      script := script[1..];
      assert Calm(old(script)) ==> t.others == [];
      assert forall i | 0 <= i < |script| :: script[i] == old(script)[i + 1];
      var i := 0;
      while i < |t.others|
        invariant Valid() && SameLoop(old(s), s) && script == old(script)[1..]
        invariant 0 <= i <= |t.others| && (i == 0 ==> s == old(s))
      {
        if OfOthers(t.others[i]) && Enabled(s, t.others[i]) { Do(t.others[i]); }
        i := i + 1;
      }
    }

    /** Sends the prelude, then acknowledges the entry; the focus may have moved on meanwhile. */
    method EnterChat() returns (entered: bool, failed: bool)
      requires Valid() && s.pc.Entering?
      modifies this
      ensures Valid() && !(entered && failed) && |script| <= |old(script)|
      ensures if entered then s.pc.Tailing? && s.pc.batch == [] && s.pc.f == old(s.pc.f) && !s.pc.again
        && s.prelude == [] else s.pc.Idle?
      ensures failed && Smooth(old(script)) ==> script == [] && |old(script)| < 6
      ensures Smooth(old(script)) ==> Smooth(script)
      ensures |script| >= |old(script)| - 6
      ensures Calm(old(script)) ==> Calm(script) && SameStore(old(s), s)
      ensures Calm(old(script)) && old(s.focus) == Some(old(s.pc.f)) && old(s.cursor).None? ==>
        entered || failed
      ensures entered && Calm(old(script)) ==> Entered(s, old(s.pc.f))
    {
      var f := s.pc.f;
      var t := NextTurn();
      if t.err { Do(Fail); return false, true; }
      Do(Prepare);
      PreludeIsShort(s);
      while s.prelude != []
        invariant Valid() && s.pc == Presenting(f) && |script| <= |old(script)|
        invariant |s.prelude| <= 4 && |script| >= |old(script)| - 5 + |s.prelude|
        invariant Smooth(old(script)) ==> Smooth(script)
        invariant Calm(old(script)) ==> Calm(script) && SameStore(old(s), s) && s.cursor == old(s.cursor)
        decreases |s.prelude|
      {
        t := NextTurn();
        Do(Present(t.send == SendOK || (s.prelude[0] > 0 && t.send == RowPermanent && t.probe == SendOK)));
        if s.pc.Idle? { return false, true; }
      }
      t := NextTurn();
      if t.err { Do(Fail); return false, true; }
      Do(Enter);
      entered, failed := s.pc.Tailing?, false;
    }

    /** Delivers and acknowledges the rows of one batch. */
    method DeliverBatch() returns (ok: bool)
      requires Valid() && s.pc.Tailing?
      modifies this
      ensures Valid()
      ensures if ok then s.pc.Idle?
        || (s.pc.Tailing? && s.pc.batch == [] && s.pc.f == old(s.pc.f) && s.pc.again == old(s.pc.again)) else s.pc.Idle?
      ensures |script| <= |old(script)|
      ensures !ok && Smooth(old(script)) ==> script == [] && |old(script)| < 2 * |old(s.pc.batch)|
      ensures |script| >= |old(script)| - 2 * |old(s.pc.batch)|
      ensures Calm(old(script)) && ok && s.pc.Tailing? ==>
        |old(s.pc.batch)| <= |Ahead(old(s))| && Ahead(s) == Ahead(old(s))[|old(s.pc.batch)|..]
      ensures Smooth(old(script)) ==> Smooth(script)
      ensures Calm(old(script)) ==> Calm(script) && SameStore(old(s), s)
      ensures Calm(old(script)) && ok && Entered(old(s), old(s.pc.f)) ==> s.pc.Tailing?
    {
      var f, again := s.pc.f, s.pc.again;
      ghost var all, ahead := s.pc.batch, Ahead(s);
      BatchIsAhead(s);
      while s.pc.batch != []
        invariant Valid() && s.pc.Tailing? && s.pc.f == f && s.pc.again == again && |script| <= |old(script)|
        invariant |s.pc.batch| <= |all| && |script| >= |old(script)| - 2 * (|all| - |s.pc.batch|)
        invariant Calm(old(script)) ==> Ahead(s) == ahead[|all| - |s.pc.batch|..]
        invariant Smooth(old(script)) ==> Smooth(script)
        invariant Calm(old(script)) ==> Calm(script) && SameStore(old(s), s)
        decreases |s.pc.batch|
      {
        var going := DeliverNext();
        if going.None? { return false; }
        if !going.value { return true; }
      }
      ok := true;
    }

    /** One row: `None` when it could not be delivered or acknowledged, `Some(false)` when the focus
        has moved on. */
    method DeliverNext() returns (going: Option<bool>)
      requires Valid() && s.pc.Tailing? && s.pc.batch != []
      modifies this
      ensures Valid() && |script| <= |old(script)|
      ensures going == Some(true) ==>
        s.pc.Tailing? && s.pc.batch == old(s.pc.batch)[1..] && s.pc.f == old(s.pc.f) && s.pc.again == old(s.pc.again)
      ensures going != Some(true) ==> s.pc.Idle?
      ensures going.None? && Smooth(old(script)) ==> script == [] && |old(script)| < 2
      ensures |script| >= |old(script)| - 2
      ensures Calm(old(script)) && going == Some(true) ==> Ahead(old(s)) != [] && Ahead(s) == Ahead(old(s))[1..]
      ensures Smooth(old(script)) ==> Smooth(script)
      ensures Calm(old(script)) ==> Calm(script) && SameStore(old(s), s)
      ensures Calm(old(script)) && Entered(old(s), old(s.pc.f)) ==> going != Some(false)
    {
      var t := NextTurn();
      BatchIsInRows(s);
      var result, how := DeliverRow(s.rows[s.pc.batch[0] - 1], t);
      if result != SendOK { Do(Fail); return None; }
      Do(Deliver(how));
      t := NextTurn();
      if t.err { Do(Fail); return None; }
      if Entered(s, s.pc.f) { StandingFocusAdvances(s); }
      if Take(s, Advance).pc.Tailing? { AdvancePassesOne(s); }
      Do(Advance);
      return Some(s.pc.Tailing?);
    }

    /** Reads and delivers until a read finds nothing; `changed` when the focus moved on. */
    method Tail() returns (changed: bool, ok: bool)
      requires Valid() && s.pc.Tailing? && s.pc.batch == []
      modifies this
      ensures Valid() && |script| <= |old(script)|
      ensures !ok || changed ==> s.pc.Idle?
      ensures ok && !changed ==>
        && (if old(s.pc.again) then s.pc.Resetting? else s.pc.AskKilled?) && s.pc.f == old(s.pc.f)
        && After(s.rows, s.pc.f, s.pc.after) == []
      ensures Smooth(old(script)) ==> Smooth(script)
      ensures Calm(old(script)) ==> Calm(script) && SameStore(old(s), s)
      ensures Calm(old(script)) && ok && Entered(old(s), old(s.pc.f)) ==> !changed
      ensures !ok && Smooth(old(script)) ==> script == []
      ensures var due := 3 * |Ahead(old(s))| + 1;
        Calm(old(script)) && Smooth(old(script)) && Entered(old(s), old(s.pc.f)) && |old(script)| >= due ==>
          ok && |script| >= |old(script)| - due
    {
      var f, again := s.pc.f, s.pc.again;
      while |script| > 0
        invariant Valid() && s.pc.Tailing? && s.pc.batch == [] && s.pc.f == f && s.pc.again == again
        invariant |script| <= |old(script)| && (Smooth(old(script)) ==> Smooth(script))
        invariant Calm(old(script)) ==> Calm(script) && SameStore(old(s), s)
        invariant Calm(old(script)) && Smooth(old(script)) && Entered(old(s), f) ==>
          |script| - 3 * |Ahead(s)| >= |old(script)| - 3 * |Ahead(old(s))|
        decreases |script|
      {
        var t := NextTurn();
        if t.err { Do(Fail); return false, false; }
        Do(Read);
        if !s.pc.Tailing? { return false, true; }
        var delivered := DeliverBatch();
        if !delivered { return false, false; }
        if s.pc.Idle? { return true, true; }
      }
      Do(Fail);
      return false, false;
    }

    /** One pass: enter if an entry is owed, deliver, and give up the focus of a killed session once
        a read after the kill finds nothing more. Every port call is one step of the machine. If
        nothing fails and nobody else acts it does not fail, within three calls a row and a dozen more,
        and whenever it does not and nobody else acted its work is done. */
    method Pass() returns (failed: bool)
      requires Valid() && s.pc.Idle?
      modifies this
      ensures Valid() && s.pc.Idle?
      ensures failed && Smooth(old(script)) ==> script == []
      ensures failed && Smooth(old(script)) && Calm(old(script)) ==> |old(script)| < 3 * |old(s.rows)| + 12
      ensures !failed && Calm(old(script)) ==> PassDone(old(s), s)
    {
      ghost var before := s;
      var t := NextTurn();
      if t.err { return true; }
      Do(ReadFocus);
      if s.pc.Idle? { return false; }
      if s.pc.Entering? {
        var entered;
        entered, failed := EnterChat();
        if !entered { return; }
      }
      FewAhead(s.rows, s.pc.f, s.pc.after, |s.rows|);
      if s.focus.Some? && s.cursor.Some? { CursorIsPlace(s); }
      failed := PassTail();
    }

    /** The rest of a pass, with the chat entered. */
    method PassTail() returns (failed: bool)
      requires Valid() && s.pc.Tailing? && s.pc.batch == [] && !s.pc.again
      modifies this
      ensures Valid() && s.pc.Idle?
      ensures failed && Smooth(old(script)) ==> script == []
      ensures var due := 3 * |Ahead(old(s))| + 4;
        Calm(old(script)) && Smooth(old(script)) && Entered(old(s), old(s.pc.f)) && |old(script)| >= due ==> !failed
      ensures !failed && Calm(old(script)) && Entered(old(s), old(s.pc.f)) ==> PassDone(old(s), s)
    {
      var f := s.pc.f;
      var changed, ok := Tail();
      if !ok || changed { return !ok; }
      var t := NextTurn();
      if t.err { Do(Fail); return true; }
      if s.cursor.Some? { CursorIsPlace(s); }
      Do(QueryKilled);
      if s.pc.Idle? { return false; }
      changed, ok := Tail();
      if !ok || changed { return !ok; }
      t := NextTurn();
      if t.err { Do(Fail); return true; }
      Do(Reset);
      return false;
    }
  }

  lemma BatchIsInRows(s: State)
    requires Reachable(s) && s.pc.Tailing? && s.pc.batch != []
    ensures 1 <= s.pc.batch[0] <= |s.rows|
  {
    var n: nat :| ReachedIn(n, s);
    OverRuns(n, s);
    RowIdsBounds(s.rows, s.pc.f, s.pc.after, |s.rows|);
    assert s.pc.batch[0] == After(s.rows, s.pc.f, s.pc.after)[0];
  }
}
