/** What the service decides for a process from its start to its promotion, over every run: who is
    admitted, what its row says, and that its admission class is the row's own flag. */
module ProcessPromotion {
  import opened Options
  import opened ProcessLedger
  import opened ProcessService

  // ----- admission, by what is outstanding -----

  /** Reservations of a session in a class: starts that hold one and processes that do. */
  function HeldBy(s: System, session: SessionId, advertised: bool): nat {
    |set t | t in s.starts && (s.starts[t].pc.Reserved? || s.starts[t].pc.Launched? || s.starts[t].pc.Untracked?)
       && s.starts[t].session == session && s.starts[t].advertise == advertised|
    + |set id | id in s.mem.tracked && s.mem.tracked[id].session == session
       && s.mem.tracked[id].class_ == (if advertised then Background else Candidate)|
  }

  lemma HeldIsOutstanding(s: System, session: SessionId, advertised: bool)
    ensures HeldBy(s, session, advertised) == Outstanding(s, session, ClassFor(advertised))
  {
    var c := ClassFor(advertised);
    assert StartHolders(s.starts, session, c) ==
      set t | t in s.starts && (s.starts[t].pc.Reserved? || s.starts[t].pc.Launched? || s.starts[t].pc.Untracked?)
        && s.starts[t].session == session && s.starts[t].advertise == advertised;
    assert TrackedHolders(s.mem.tracked, session, c) ==
      set id | id in s.mem.tracked && s.mem.tracked[id].session == session
        && s.mem.tracked[id].class_ == (if advertised then Background else Candidate);
  }

  /** In every reachable state a start is admitted exactly while the service is open and its session
      holds fewer than four advertised processes, or none that may still be advertised. */
  lemma AdmittedExactlyByHeld(steps: seq<Step>, tok: nat, session: SessionId, root: SessionId, advertise: bool)
    requires IsRun(steps) && tok !in Reached(steps).starts
    ensures
      var s := Reached(steps);
      Enabled(s, Step.Reserve(tok, session, root, advertise)) <==>
        !s.mem.closed && HeldBy(s, session, advertise) < (if advertise then 4 else 1)
  {
    CountersConserved(steps);
    HeldIsOutstanding(Reached(steps), session, advertise);
    assert Conserved(Reached(steps), session);
  }

  /** A tracked candidate's promotion is refused as full exactly when its session holds four. */
  lemma PromotionRefusedExactlyWhenFull(steps: seq<Step>, id: ProcessId, up: bool)
    requires IsRun(steps)
    ensures
      var s := Reached(steps);
      OpOf(s, Step.Advertise(id, up)).None? <==>
        && id in s.mem.tracked && s.mem.tracked[id].class_ == Candidate
        && HeldBy(s, s.mem.tracked[id].session, true) >= 4
  {
    var s := Reached(steps);
    CountersConserved(steps);
    if id in s.mem.tracked {
      HeldIsOutstanding(s, s.mem.tracked[id].session, true);
      assert Conserved(s, s.mem.tracked[id].session);
    }
  }

  // ----- the row is the start's, the class is the row's -----

  /** A process whose row is in says what its start asked for. */
  predicate AsAsked(s: System) {
    forall t | t in s.starts && PastInsert(s.starts[t].pc) && s.starts[t].pc.id in s.ledger.rows ::
      var r := s.ledger.rows[s.starts[t].pc.id];
      r.session == s.starts[t].session && r.root == s.starts[t].root && (s.starts[t].advertise ==> r.advertised)
  }

  /** A tracked process counts as advertised exactly when its row does. */
  predicate ClassIsFlag(s: System) {
    forall id | id in s.mem.tracked && id in s.ledger.rows ::
      s.mem.tracked[id].class_ == Background <==> s.ledger.rows[id].advertised
  }

  lemma LedgerOfStep(s: System, e: Step)
    requires Enabled(s, e)
    ensures LedgerEvolves(s.ledger, Take(s, e).ledger)
    ensures forall id | id in Take(s, e).ledger.rows && id !in s.ledger.rows ::
      e.InsertRow? && id == s.starts[e.tok].pc.id && Take(s, e).ledger.rows[id] == LaunchRow(s.starts[e.tok])
    ensures forall id | id in s.ledger.rows && !s.ledger.rows[id].advertised && Take(s, e).ledger.rows[id].advertised ::
      e.Advertise? && e.id == id
  {
    var o := OpOf(s, e);
    if o.Some? { ApplyEvolves(s.ledger, o.value); }
  }

  lemma StepKeepsAsAsked(s: System, e: Step)
    requires Owned(s) && RowsPresent(s) && AsAsked(s) && Enabled(s, e)
    ensures AsAsked(Take(s, e))
  {
    var s' := Take(s, e);
    LedgerOfStep(s, e);
    forall t | t in s'.starts && PastInsert(s'.starts[t].pc) && s'.starts[t].pc.id in s'.ledger.rows
      ensures
        var r := s'.ledger.rows[s'.starts[t].pc.id];
        r.session == s'.starts[t].session && r.root == s'.starts[t].root && (s'.starts[t].advertise ==> r.advertised)
    {
      if t in s.starts && PastInsert(s.starts[t].pc) {
        assert s.starts[t].pc.id in s.ledger.rows;
        assert Evolves(s.ledger.rows[s.starts[t].pc.id], s'.ledger.rows[s.starts[t].pc.id]);
      } else {
        assert e.InsertRow? && e.tok == t && StartOwns(s, s.starts[t]);
      }
    }
  }

  lemma StepKeepsClass(s: System, e: Step)
    requires Owned(s) && ClassIsFlag(s) && Enabled(s, e)
    ensures ClassIsFlag(Take(s, e))
  {
    var s' := Take(s, e);
    LedgerOfStep(s, e);
    if e.Track? { assert StartOwns(s, s.starts[e.tok]); }
    forall id | id in s'.mem.tracked && id in s'.ledger.rows
      ensures s'.mem.tracked[id].class_ == Background <==> s'.ledger.rows[id].advertised
    {
      if id !in s.ledger.rows {
        assert StartOwns(s, s.starts[e.tok]);
      } else if id in s.mem.tracked {
        assert s.mem.tracked[id].class_ == Background <==> s.ledger.rows[id].advertised;
        assert Evolves(s.ledger.rows[id], s'.ledger.rows[id]);
        ClassMoves(s, e, id);
      }
    }
  }

  lemma ClassMoves(s: System, e: Step, id: ProcessId)
    requires Owned(s) && Enabled(s, e) && id in s.mem.tracked && id in Take(s, e).mem.tracked && id in s.ledger.rows
    requires s.mem.tracked[id].class_ == Background <==> s.ledger.rows[id].advertised
    ensures id in Take(s, e).ledger.rows
    ensures Take(s, e).mem.tracked[id].class_ == Background <==> Take(s, e).ledger.rows[id].advertised
  {
    LedgerOfStep(s, e);
    if e.Track? { assert StartOwns(s, s.starts[e.tok]); }
  }

  lemma {:induction false} PromisesOverRuns(steps: seq<Step>)
    requires IsRun(steps)
    ensures AsAsked(Reached(steps)) && ClassIsFlag(Reached(steps))
  {
    if steps != [] {
      var before, e := steps[..|steps| - 1], steps[|steps| - 1];
      PromisesOverRuns(before);
      CountersConserved(before);
      ShutdownInvOverRuns(before);
      StepKeepsAsAsked(Reached(before), e);
      StepKeepsClass(Reached(before), e);
    }
  }

  // ----- the first fallback stays -----

  predicate BringsFallback(s: System, e: Step, id: ProcessId)
    requires Enabled(s, e)
  {
    (e.CancelFallback? && e.id == id) || (e.ShutdownFallback? && s.starts[e.tok].pc.id == id)
  }

  lemma OthersBringNone(s: System, e: Step, id: ProcessId)
    requires Enabled(s, e) && id in Take(s, e).mem.tracked && !e.Crash? && !e.CancelFallback? && !e.ShutdownFallback?
    ensures FallbackOf(Take(s, e).mem, id) == FallbackOf(s.mem, id)
  {}

  function FirstFallback(s: System, e: Step, id: ProcessId): Intent
    requires Enabled(s, e)
  {
    if FallbackOf(s.mem, id) != NoIntent || !BringsFallback(s, e, id) then FallbackOf(s.mem, id)
    else if e.CancelFallback? then e.intent else DaemonShutdown
  }

  lemma BringersBringFirst(s: System, e: Step, id: ProcessId)
    requires Enabled(s, e) && id in s.mem.tracked && (e.CancelFallback? || e.ShutdownFallback?)
    ensures FallbackOf(Take(s, e).mem, id) == FirstFallback(s, e, id)
  {}

  /** Whatever happens, a tracked process keeps the fallback it has, and one without takes the first
      that is brought: a cancellation's own, or the shutdown's. */
  lemma FirstFallbackStays(s: System, e: Step, id: ProcessId)
    requires Enabled(s, e) && id in s.mem.tracked && id in Take(s, e).mem.tracked && !e.Crash?
    ensures FallbackOf(Take(s, e).mem, id) == FirstFallback(s, e, id)
  {
    if e.CancelFallback? || e.ShutdownFallback? { BringersBringFirst(s, e, id); } else { OthersBringNone(s, e, id); }
  }
}
