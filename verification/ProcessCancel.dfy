/** Cancellation of a set of sessions' processes: record the intent, signal or terminalize each
    running record, then poll until every one of them is terminal. Between any two store calls
    other actors change the service's memory at will and act on the ledger, except that they
    insert no row: the caller holds the tree lock under which inserts happen. */
module ProcessCancel {
  import opened Options
  import opened ProcessLedger
  import opened ProcessService

  /** What another actor does: a ledger call, or any change of the service's counters and tables. */
  datatype Event = OnLedger(op: Op) | OnMemory(memory: Memory)

  predicate NoInserts(events: seq<Event>) {
    forall i | 0 <= i < |events| && events[i].OnLedger? :: !events[i].op.Insert?
  }

  /** What holds between two points of an interleaving without inserts. */
  predicate Settles(l: Ledger, l': Ledger) { LedgerEvolves(l, l') && l'.rows.Keys == l.rows.Keys }

  lemma SettlesChains(a: Ledger, b: Ledger, c: Ledger)
    requires Settles(a, b) && Settles(b, c)
    ensures Settles(a, c)
  {}

  method Interleave(svc: Service, events: seq<Event>)
    requires NoInserts(events)
    modifies svc, svc.store
    ensures Settles(old(svc.store.View()), svc.store.View())
    ensures events == [] ==> svc.View() == old(svc.View()) && svc.store.View() == old(svc.store.View())
  {
    var store := svc.store;
    var i := 0;
    while i < |events|
      invariant 0 <= i <= |events| && Settles(old(svc.store.View()), store.View())
      invariant i == 0 ==> svc.View() == old(svc.View()) && svc.store.View() == old(svc.store.View())
    {
      match events[i] {
      case OnMemory(m) =>
        svc.live, svc.background, svc.candidates := m.live, m.background, m.candidates;
        svc.tracked, svc.fallback, svc.closed, svc.ids := m.tracked, m.fallback, m.closed, m.ids;
      case OnLedger(op) =>
        ghost var before := store.View();
        var l := Apply(store.View(), op);
        ApplyEvolves(before, op);
        store.rows, store.inbox, store.refusing := l.rows, l.inbox, l.refusing;
        SettlesChains(old(svc.store.View()), before, store.View());
      }
      i := i + 1;
    }
  }

  /** One round of polling: what others did before it, and which rows could not be read. */
  datatype Poll = Poll(between: seq<Event>, unreadable: set<ProcessId>)

  predicate Readable(polls: seq<Poll>, ids: set<ProcessId>) {
    forall i | 0 <= i < |polls| :: polls[i].unreadable !! ids
  }

  predicate TerminalIn(rows: map<ProcessId, Row>, id: ProcessId) { id in rows && Terminal(rows[id].state) }

  /** Removes from `pending` every row now terminal; an unreadable row is dropped as a failure. */
  method PollOnce(store: Store, pending: set<ProcessId>, unreadable: set<ProcessId>)
    returns (still: set<ProcessId>, failed: bool)
    ensures still <= pending
    ensures !failed ==> forall id | id in pending - still :: TerminalIn(store.rows, id)
    ensures !failed <==> forall id | id in pending :: id !in unreadable && id in store.rows
    ensures forall id | id in still :: !TerminalIn(store.rows, id)
  {
    still, failed := pending, false;
    var todo := pending;
    while todo != {}
      invariant todo <= still <= pending
      invariant !failed ==> forall id | id in pending - still :: TerminalIn(store.rows, id)
      invariant !failed <==> forall id | id in pending - todo :: id !in unreadable && id in store.rows
      invariant forall id | id in still - todo :: !TerminalIn(store.rows, id)
      decreases |todo|
    {
      var id :| id in todo;
      todo := todo - {id};
      if id in unreadable || id !in store.rows {
        still, failed := still - {id}, true;
      } else if Terminal(store.rows[id].state) {
        still := still - {id};
      }
    }
  }

  /** Success means every listed process was seen terminal, and terminal rows stay terminal; failure
      that one is not, unless a row could not be read. */
  method JoinCancelled(svc: Service, running: set<ProcessId>, polls: seq<Poll>) returns (ok: bool)
    requires forall i | 0 <= i < |polls| :: NoInserts(polls[i].between)
    modifies svc, svc.store
    ensures Settles(old(svc.store.View()), svc.store.View())
    ensures ok ==> forall id | id in running :: TerminalIn(svc.store.rows, id)
    ensures !ok && polls != [] && Readable(polls, running) && running <= svc.store.rows.Keys ==>
      exists id | id in running :: !TerminalIn(svc.store.rows, id)
  {
    if running == {} { return true; }
    var pending, failed := running, false;
    var i := 0;
    while i < |polls|
      invariant 0 <= i <= |polls| && pending <= running
      invariant Settles(old(svc.store.View()), svc.store.View())
      invariant !failed ==> forall id | id in running - pending :: TerminalIn(svc.store.rows, id)
      invariant failed && Readable(polls, running) ==> !(running <= svc.store.rows.Keys)
      invariant i > 0 ==> pending != {} && forall id | id in pending :: !TerminalIn(svc.store.rows, id)
    {
      ghost var before := svc.store.View();
      Interleave(svc, polls[i].between);
      SettlesChains(old(svc.store.View()), before, svc.store.View());
      assert forall id | TerminalIn(before.rows, id) :: TerminalIn(svc.store.rows, id);
      var bad;
      ghost var were := pending;
      pending, bad := PollOnce(svc.store, pending, polls[i].unreadable);
      assert forall id | id in running - pending :: id in running - were || id in were - pending;
      if bad && Readable(polls, running) { assert exists id | id in were :: id !in svc.store.rows; }
      failed := failed || bad;
      if pending == {} { return !failed; }
      i := i + 1;
    }
    return false;
  }

  /** The database's and the other actors' part in cancelling one record. */
  datatype Fate = Fate(recordUp: bool, between: seq<Event>, ups: seq<bool>)

  /** No row but that of `id` changed. */
  predicate OnlyRow(rows: map<ProcessId, Row>, rows': map<ProcessId, Row>, id: ProcessId) {
    rows'.Keys == rows.Keys && forall j | j in rows && j != id :: rows'[j] == rows[j]
  }

  method Terminalize(svc: Service, id: ProcessId, cause: Intent, state: State, size: int, ups: seq<bool>)
      returns (reply: Reply)
    modifies svc.store
    ensures Settles(old(svc.store.View()), svc.store.View())
    ensures reply != Error ==> TerminalIn(svc.store.rows, id)
    ensures OnlyRow(old(svc.store.rows), svc.store.rows, id)
  {
    ghost var before := svc.store.View();
    reply := svc.FinalizeWithRetry(id, cause, state, None, size, ups);
    ApplyEvolves(before, FinalizeCall(id, cause, state, None, size, exists i | 0 <= i < |ups| && i < 3 :: ups[i]));
  }

  /** A tracked process is signalled; a detached one is terminalized here. */
  method CancelRecord(svc: Service, id: ProcessId, listed: Row, intent: Intent, fate: Fate)
    returns (won: bool, signalled: bool, failed: bool)
    requires NoInserts(fate.between)
    modifies svc, svc.store
    ensures Settles(old(svc.store.View()), svc.store.View())
    ensures won <==>
      && fate.recordUp && intent != NoIntent && id in old(svc.store.rows)
      && old(svc.store.rows)[id].state == Running && old(svc.store.rows)[id].intent == NoIntent
    ensures won ==> id in svc.store.rows && svc.store.rows[id].intent == intent
    ensures !fate.recordUp ==> failed
    ensures !fate.recordUp && signalled ==> FallbackOf(svc.View(), id) != NoIntent || intent == NoIntent
    ensures fate.between == [] ==> OnlyRow(old(svc.store.rows), svc.store.rows, id)
    ensures fate.between == [] && fate.recordUp ==> (signalled <==> id in old(svc.tracked))
    ensures !failed && !signalled && (won || listed.intent != NoIntent) ==> TerminalIn(svc.store.rows, id)
  {
    var reply := svc.store.RecordIntent(id, intent, fate.recordUp);
    ApplyEvolves(old(svc.store.View()), Op.RecordIntent(id, intent, fate.recordUp));
    won, failed := reply == Won, reply == Error;
    ghost var recorded := svc.store.View();
    Interleave(svc, fate.between);
    SettlesChains(old(svc.store.View()), recorded, svc.store.View());
    signalled := id in svc.tracked;
    if failed { signalled := svc.RecordFallbackIntent(id, intent); }
    if signalled { return; }
    var terminal := if won || failed then intent else listed.intent;
    if terminal == NoIntent { return; }
    ghost var before := svc.store.View();
    var finalized := Terminalize(svc, id, if failed then intent else NoIntent, IntentToState(terminal),
      listed.outputSize, fate.ups);
    SettlesChains(old(svc.store.View()), before, svc.store.View());
    failed := failed || finalized == Error;
  }

  /** The listed processes without a cause yet, whose intent the store will take. */
  function Cancellable(listed: map<ProcessId, Row>, fates: map<ProcessId, Fate>): set<ProcessId> {
    set id | id in listed && listed[id].intent == NoIntent && id in fates && fates[id].recordUp
  }

  predicate Quiet(fates: map<ProcessId, Fate>) { forall id | id in fates :: fates[id].between == [] }

  predicate AsListed(rows: map<ProcessId, Row>, listed: map<ProcessId, Row>, ids: set<ProcessId>) {
    forall id | id in ids :: id in rows && id in listed && rows[id] == listed[id]
  }

  /** Undisturbed, the processes still to be cancelled are as listed, and `n` of the cancellable ones
      are done. */
  predicate Counted(
    rows: map<ProcessId, Row>, listed: map<ProcessId, Row>, fates: map<ProcessId, Fate>, todo: set<ProcessId>, n: nat) {
    AsListed(rows, listed, todo) && n + |Cancellable(listed, fates) * todo| == |Cancellable(listed, fates)|
  }

  lemma OneCounted(
    rows: map<ProcessId, Row>, rows': map<ProcessId, Row>, listed: map<ProcessId, Row>, fates: map<ProcessId, Fate>,
    todo: set<ProcessId>, n: nat, id: ProcessId, won: bool)
    requires Counted(rows, listed, fates, todo, n) && id in todo && OnlyRow(rows, rows', id) && id in fates
    requires won <==> fates[id].recordUp && listed[id].intent == NoIntent
    ensures Counted(rows', listed, fates, todo - {id}, if won then n + 1 else n)
  {
    var all := Cancellable(listed, fates);
    assert all * (todo - {id}) == all * todo - {id};
  }

  /** One record, as `CancelRecord` cancels it, read for the count. */
  method CancelOne(svc: Service, id: ProcessId, listed: Row, intent: Intent, fate: Fate)
      returns (won: bool, failed: bool)
    requires NoInserts(fate.between)
    modifies svc, svc.store
    ensures Settles(old(svc.store.View()), svc.store.View())
    ensures fate.between == [] ==> OnlyRow(old(svc.store.rows), svc.store.rows, id)
    ensures intent != NoIntent && id in old(svc.store.rows) && old(svc.store.rows)[id].state == Running ==>
      (won <==> fate.recordUp && old(svc.store.rows)[id].intent == NoIntent)
  {
    var signalled;
    won, signalled, failed := CancelRecord(svc, id, listed, intent, fate);
  }

  /** How far a cancellation has come: nothing was unsettled since `first`, and if `counts`, the
      count is right. */
  predicate Going(
    first: Ledger, now: Ledger, listed: map<ProcessId, Row>, fates: map<ProcessId, Fate>, todo: set<ProcessId>,
    n: nat, counts: bool) {
    Settles(first, now) && (counts ==> Counted(now.rows, listed, fates, todo, n))
  }

  lemma GoesOn(
    first: Ledger, before: Ledger, now: Ledger, listed: map<ProcessId, Row>, fates: map<ProcessId, Fate>,
    todo: set<ProcessId>, n: nat, counts: bool, id: ProcessId, won: bool)
    requires Going(first, before, listed, fates, todo, n, counts) && Settles(before, now) && id in todo && id in fates
    requires counts ==> OnlyRow(before.rows, now.rows, id)
    requires counts ==> (won <==> fates[id].recordUp && listed[id].intent == NoIntent)
    ensures Going(first, now, listed, fates, todo - {id}, if won then n + 1 else n, counts)
  {
    SettlesChains(first, before, now);
    if counts { OneCounted(before.rows, now.rows, listed, fates, todo, n, id, won); }
  }

  /** One record of a cancellation under way. */
  method CancelNext(
    svc: Service, listed: map<ProcessId, Row>, intent: Intent, fates: map<ProcessId, Fate>, ghost todo: set<ProcessId>,
    id: ProcessId, ghost first: Ledger, ghost n: nat, ghost counts: bool)
    returns (won: bool, failed: bool)
    requires id in todo && id in listed && id in fates && NoInserts(fates[id].between) && listed[id].state == Running
    requires counts ==> fates[id].between == [] && intent != NoIntent
    requires Going(first, svc.store.View(), listed, fates, todo, n, counts)
    modifies svc, svc.store
    ensures Going(first, svc.store.View(), listed, fates, todo - {id}, if won then n + 1 else n, counts)
  {
    ghost var before := svc.store.View();
    won, failed := CancelOne(svc, id, listed[id], intent, fates[id]);
    GoesOn(first, before, svc.store.View(), listed, fates, todo, n, counts, id, won);
  }

  /** Cancels the listed processes one by one, and counts those it gave their cause; undisturbed these
      are exactly the ones that had none. */
  method CancelListed(svc: Service, listed: map<ProcessId, Row>, intent: Intent, fates: map<ProcessId, Fate>)
    returns (cancelled: nat, ok: bool)
    requires AsListed(svc.store.rows, listed, listed.Keys) && forall id | id in listed :: listed[id].state == Running
    requires forall id | id in listed :: id in fates && NoInserts(fates[id].between)
    modifies svc, svc.store
    ensures Settles(old(svc.store.View()), svc.store.View())
    ensures Quiet(fates) && intent != NoIntent ==> cancelled == |Cancellable(listed, fates)|
  {
    cancelled, ok := 0, true;
    var todo := listed.Keys;
    ghost var first, counts := svc.store.View(), Quiet(fates) && intent != NoIntent;
    assert Cancellable(listed, fates) * todo == Cancellable(listed, fates);
    while todo != {}
      invariant todo <= listed.Keys && Going(first, svc.store.View(), listed, fates, todo, cancelled, counts)
      decreases |todo|
    {
      var id :| id in todo;
      var won, failed := CancelNext(svc, listed, intent, fates, todo, id, first, cancelled, counts);
      todo := todo - {id};
      if won { cancelled := cancelled + 1; }
      ok := ok && !failed;
    }
  }

  /** The running processes of some sessions, with their rows. */
  function RunningOf(rows: map<ProcessId, Row>, sessions: set<SessionId>): map<ProcessId, Row> {
    map id | id in rows && rows[id].state == Running && rows[id].session in sessions :: rows[id]
  }

  /** When it reports success no running process is left in the given sessions. Undisturbed, it counts
      exactly those that had no cause before. */
  method CancelSessions(
    svc: Service, sessions: set<SessionId>, intent: Intent, listUp: bool, fates: map<ProcessId, Fate>, polls: seq<Poll>)
    returns (cancelled: nat, ok: bool)
    requires forall id | id in svc.store.rows :: id in fates && NoInserts(fates[id].between)
    requires forall i | 0 <= i < |polls| :: NoInserts(polls[i].between)
    modifies svc, svc.store
    ensures Settles(old(svc.store.View()), svc.store.View())
    ensures ok ==> forall id | id in svc.store.rows && svc.store.rows[id].state == Running ::
      svc.store.rows[id].session !in sessions
    ensures listUp && Quiet(fates) && intent != NoIntent ==>
      cancelled == |Cancellable(RunningOf(old(svc.store.rows), sessions), fates)|
  {
    cancelled, ok := 0, false;
    if !listUp { return; }
    ghost var start := svc.store.View();
    var listed := RunningOf(svc.store.rows, sessions);
    cancelled, ok := CancelListed(svc, listed, intent, fates);
    ghost var before := svc.store.View();
    var joined := JoinCancelled(svc, listed.Keys, polls);
    SettlesChains(start, before, svc.store.View());
    ok := ok && joined;
    forall id | ok && id in svc.store.rows && svc.store.rows[id].state == Running
      ensures svc.store.rows[id].session !in sessions
    {
      assert id in start.rows && Evolves(start.rows[id], svc.store.rows[id]);
      assert !TerminalIn(svc.store.rows, id);
      assert id !in listed;
    }
  }
}
