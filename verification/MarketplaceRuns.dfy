/** Concurrent resolves of the plugin cache: the first lookup is made without the URL's lock, the
    re-check, the scan and the store under it. Whatever the interleaving, the table and every
    answer are those of some sequence of whole resolves. */
module MarketplaceRuns {
  import opened Options
  import opened MarketplaceCache

  /** A resolve under way. `Inside` and `Working` hold the lock of their URL. */
  datatype Flight = Waiting(q: Query) | Inside(q: Query) | Working(q: Query, entry: Entry)

  /** A resolve that has answered, as the whole resolve it amounts to. */
  datatype Done = Done(q: Query, answer: Answer)

  datatype State = State(cache: Cache, flights: map<nat, Flight>, log: seq<Done>)

  datatype Step = Start(tok: nat, q: Query) | Enter(tok: nat) | Work(tok: nat) | Store(tok: nat)

  const EMPTY_STATE := State(map[], map[], [])

  predicate Holds(s: State, tok: nat, url: string) {
    tok in s.flights && !s.flights[tok].Waiting? && s.flights[tok].q.url == url
  }

  predicate Enabled(s: State, e: Step) {
    match e
    case Start(tok, _) => tok !in s.flights
    case Enter(tok) =>
      && tok in s.flights && s.flights[tok].Waiting?
      && forall other | other in s.flights :: !Holds(s, other, s.flights[tok].q.url)
    case Work(tok) => tok in s.flights && s.flights[tok].Inside?
    case Store(tok) => tok in s.flights && s.flights[tok].Working?
  }

  function Stored(q: Query, e: Entry): Answer { if e.err then Failed else Found(FilterByPlugins(e, q.plugins)) }

  /** A resolve that waited for the lock is, as a whole, one whose first lookup came as late as its
      second. */
  function Late(q: Query): Query { q.(look := q.again) }

  function Take(s: State, e: Step, ttl: int): State
    requires Enabled(s, e)
  {
    match e
    case Start(tok, q) =>
      var hit := Lookup(s.cache, q, q.look, ttl);
      if hit.Some? then s.(log := s.log + [Done(q, hit.value)]) else s.(flights := s.flights[tok := Waiting(q)])
    case Enter(tok) =>
      var q := s.flights[tok].q;
      var hit := Lookup(s.cache, q, q.again, ttl);
      if hit.Some? then s.(flights := s.flights - {tok}, log := s.log + [Done(Late(q), hit.value)])
      else s.(flights := s.flights[tok := Inside(q)])
    case Work(tok) =>
      var q := s.flights[tok].q;
      s.(flights := s.flights[tok := Working(q, Scanned(s.cache, q, ttl))])
    case Store(tok) =>
      var q, entry := s.flights[tok].q, s.flights[tok].entry;
      State(s.cache[q.url := entry], s.flights - {tok}, s.log + [Done(Late(q), Stored(q, entry))])
  }

  // ----- what every step keeps -----

  predicate Exclusive(s: State) {
    forall t, u | t in s.flights && u in s.flights && Holds(s, t, s.flights[u].q.url)
      && Holds(s, u, s.flights[u].q.url) :: t == u
  }

  /** What a lock holder saw still stands: nobody else writes its URL's entry. */
  predicate Current(cache: Cache, f: Flight, ttl: int) {
    && (!f.Waiting? ==> Lookup(cache, f.q, f.q.again, ttl).None?)
    && (f.Working? ==> f.entry == Scanned(cache, f.q, ttl))
  }

  predicate AllCurrent(s: State, ttl: int) { forall t | t in s.flights :: Current(s.cache, s.flights[t], ttl) }

  function Queries(log: seq<Done>): seq<Query> { seq(|log|, i requires 0 <= i < |log| => log[i].q) }

  /** The table is that of the logged resolves in order, and each got the answer due at its place. */
  predicate Sequential(cache: Cache, log: seq<Done>, ttl: int) {
    && cache == AfterAll(Queries(log), ttl)
    && forall k | 0 <= k < |log| :: log[k].answer == AnswerOf(AfterAll(Queries(log[..k]), ttl), log[k].q, ttl)
  }

  ghost predicate Inv(s: State, ttl: int) { Exclusive(s) && AllCurrent(s, ttl) && Sequential(s.cache, s.log, ttl) }

  lemma LogOne(cache: Cache, log: seq<Done>, d: Done, after: Cache, ttl: int)
    requires Sequential(cache, log, ttl) && d.answer == AnswerOf(cache, d.q, ttl) && after == After(cache, d.q, ttl)
    ensures Sequential(after, log + [d], ttl)
  {
    var longer := log + [d];
    assert Queries(longer)[..|log|] == Queries(log);
    forall k | 0 <= k < |longer|
      ensures longer[k].answer == AnswerOf(AfterAll(Queries(longer[..k]), ttl), longer[k].q, ttl) {
      assert longer[..k] == if k < |log| then log[..k] else log;
    }
  }

  /** A lookup and a scan depend on their URL's entry alone. */
  lemma OtherUrlIsSeen(cache: Cache, f: Flight, url: string, e: Entry, ttl: int)
    requires Current(cache, f, ttl) && (f.q.url != url || f.Waiting?)
    ensures Current(cache[url := e], f, ttl)
  {}

  /** A store logs the whole resolve it ends. */
  lemma StoreIsResolve(s: State, tok: nat, ttl: int)
    requires Inv(s, ttl) && Enabled(s, Store(tok))
    ensures
      var q, entry := s.flights[tok].q, s.flights[tok].entry;
      Stored(q, entry) == AnswerOf(s.cache, Late(q), ttl) && s.cache[q.url := entry] == After(s.cache, Late(q), ttl)
  {
    assert Current(s.cache, s.flights[tok], ttl);
    var q := s.flights[tok].q;
    assert Lookup(s.cache, Late(q), q.again, ttl) == Lookup(s.cache, q, q.again, ttl);
    assert Scanned(s.cache, Late(q), ttl) == Scanned(s.cache, q, ttl);
  }

  lemma StepKeepsFlights(s: State, e: Step, ttl: int)
    requires Inv(s, ttl) && Enabled(s, e)
    ensures Exclusive(Take(s, e, ttl)) && AllCurrent(Take(s, e, ttl), ttl)
  {
    var s' := Take(s, e, ttl);
    forall t | t in s'.flights ensures Current(s'.cache, s'.flights[t], ttl) {
      if e.Store? {
        var mine := s.flights[e.tok];
        assert s.flights[t].q.url == mine.q.url && !s.flights[t].Waiting?
          ==> Holds(s, t, mine.q.url) && Holds(s, e.tok, mine.q.url);
        OtherUrlIsSeen(s.cache, s.flights[t], mine.q.url, mine.entry, ttl);
      } else if t in s.flights {
        assert Current(s.cache, s.flights[t], ttl);
      }
    }
    forall t, u | t in s'.flights && u in s'.flights && Holds(s', t, s'.flights[u].q.url)
      && Holds(s', u, s'.flights[u].q.url)
      ensures t == u
    {
      if t in s.flights && u in s.flights {
        var url := s.flights[u].q.url;
        assert Holds(s, t, url) || e == Enter(t);
        assert Holds(s, u, url) || e == Enter(u);
      }
    }
  }

  /** A hit logs the whole resolve it ends, which changes nothing. */
  lemma HitIsResolve(cache: Cache, q: Query, ttl: int)
    requires Lookup(cache, q, q.look, ttl).Some?
    ensures AnswerOf(cache, q, ttl) == Lookup(cache, q, q.look, ttl).value && After(cache, q, ttl) == cache
  {}

  lemma StepKeepsLog(s: State, e: Step, ttl: int)
    requires Inv(s, ttl) && Enabled(s, e)
    ensures Sequential(Take(s, e, ttl).cache, Take(s, e, ttl).log, ttl)
  {
    var s' := Take(s, e, ttl);
    match e
    case Start(_, q) =>
      if Lookup(s.cache, q, q.look, ttl).Some? {
        HitIsResolve(s.cache, q, ttl);
        LogOne(s.cache, s.log, Done(q, AnswerOf(s.cache, q, ttl)), s'.cache, ttl);
      }
    case Enter(tok) =>
      var q := Late(s.flights[tok].q);
      if Lookup(s.cache, q, q.look, ttl).Some? {
        HitIsResolve(s.cache, q, ttl);
        LogOne(s.cache, s.log, Done(q, AnswerOf(s.cache, q, ttl)), s'.cache, ttl);
      }
    case Work(_) =>
    case Store(tok) =>
      var q := Late(s.flights[tok].q);
      StoreIsResolve(s, tok, ttl);
      LogOne(s.cache, s.log, Done(q, AnswerOf(s.cache, q, ttl)), s'.cache, ttl);
  }

  /** A run: each state follows from the one before it by an enabled step. */
  predicate IsRun(states: seq<State>, steps: seq<Step>, ttl: int) {
    && |states| == |steps| + 1 && states[0] == EMPTY_STATE
    && forall i | 0 <= i < |steps| :: Enabled(states[i], steps[i]) && states[i + 1] == Take(states[i], steps[i], ttl)
  }

  lemma {:induction false} InvOverRuns(states: seq<State>, steps: seq<Step>, ttl: int, i: nat)
    requires IsRun(states, steps, ttl) && i < |states|
    ensures Inv(states[i], ttl)
  {
    if i > 0 {
      InvOverRuns(states, steps, ttl, i - 1);
      StepKeepsFlights(states[i - 1], steps[i - 1], ttl);
      StepKeepsLog(states[i - 1], steps[i - 1], ttl);
    }
  }

  /** Every interleaving is a sequence of whole resolves: same table, same answers. */
  lemma ResolvesAreSequential(states: seq<State>, steps: seq<Step>, ttl: int, i: nat)
    requires IsRun(states, steps, ttl) && i < |states|
    ensures Sequential(states[i].cache, states[i].log, ttl)
  {
    InvOverRuns(states, steps, ttl, i);
  }

  /** So every success of a concurrent run has the direct scan's set of sources. */
  lemma EveryAnswerIsDirect(states: seq<State>, steps: seq<Step>, ttl: int, i: nat, k: nat)
    requires IsRun(states, steps, ttl) && i < |states| && k < |states[i].log| && Steady(Queries(states[i].log), ttl)
    ensures
      var d := states[i].log[k];
      d.answer.Found? ==>
        SameSets(d.answer.sources, DirectScan(d.q.disk, d.q.plugins))
          && AreSourcesOf(d.answer.sources, d.q.disk, d.q.plugins)
  {
    ResolvesAreSequential(states, steps, ttl, i);
    var log := states[i].log;
    var qs := Queries(log[..k + 1]);
    assert qs[..k] == Queries(log[..k]) && log[..k + 1][..k] == log[..k];
    assert Steady(qs, ttl) by {
      forall j | 0 <= j < |qs| ensures Unchanged(AfterAll(qs[..j], ttl), qs[j], ttl) {
        assert qs[..j] == Queries(log)[..j] && qs[j] == Queries(log)[j];
      }
    }
    CacheAgreesWithDirect(qs, ttl);
  }

  /** And every answer resting on an earlier pull is within its time to live. */
  lemma EveryAnswerIsFresh(states: seq<State>, steps: seq<Step>, ttl: int, i: nat, k: nat) returns (j: nat)
    requires IsRun(states, steps, ttl) && i < |states| && k < |states[i].log|
    requires FromCache(AfterAll(Queries(states[i].log[..k]), ttl), states[i].log[k].q, ttl)
    ensures j < k && states[i].log[j].q.url == states[i].log[k].q.url
    ensures
      var d, pull := states[i].log[k], states[i].log[j].q;
      var t := Judged(AfterAll(Queries(states[i].log[..k]), ttl), d.q, ttl);
      if d.answer.Failed? then !pull.ok && t - pull.failed < ttl && t - pull.failed < FAILED_TTL
      else pull.ok && t - pull.pulled < ttl
  {
    ResolvesAreSequential(states, steps, ttl, i);
    j := AnswersAreFresh(Queries(states[i].log[..k]), states[i].log[k].q, ttl);
  }

  /** Two resolves never scan the same URL at once. */
  lemma OneScanAUrl(states: seq<State>, steps: seq<Step>, ttl: int, i: nat, t: nat, u: nat, url: string)
    requires IsRun(states, steps, ttl) && i < |states| && Holds(states[i], t, url) && Holds(states[i], u, url)
    ensures t == u
  {
    InvOverRuns(states, steps, ttl, i);
    assert states[i].flights[u].q.url == url;
  }

  // ----- every resolve answers -----

  /** With no new resolve and nobody failing, the flight ends, and the last thing logged is its answer. */
  ghost predicate AnswersIn(n: nat, s: State, tok: nat, q: Query, ttl: int) {
    if n == 0 then tok !in s.flights && s.log != [] && s.log[|s.log| - 1].q == Late(q)
    else exists e: Step :: Enabled(s, e) && !e.Start? && AnswersIn(n - 1, Take(s, e, ttl), tok, q, ttl)
  }

  ghost predicate CanAnswer(s: State, tok: nat, q: Query, ttl: int) { exists n: nat :: AnswersIn(n, s, tok, q, ttl) }

  lemma AnswersAfter(s: State, e: Step, tok: nat, q: Query, ttl: int)
    requires Enabled(s, e) && !e.Start? && CanAnswer(Take(s, e, ttl), tok, q, ttl)
    ensures CanAnswer(s, tok, q, ttl)
  {
    var n: nat :| AnswersIn(n, Take(s, e, ttl), tok, q, ttl);
    assert AnswersIn(n + 1, s, tok, q, ttl);
  }

  lemma HolderAnswers(s: State, tok: nat, ttl: int)
    requires tok in s.flights && !s.flights[tok].Waiting?
    ensures CanAnswer(s, tok, s.flights[tok].q, ttl)
  {
    var q := s.flights[tok].q;
    var w := if s.flights[tok].Inside? then Take(s, Work(tok), ttl) else s;
    assert AnswersIn(0, Take(w, Store(tok), ttl), tok, q, ttl);
    AnswersAfter(w, Store(tok), tok, q, ttl);
    if s.flights[tok].Inside? { AnswersAfter(s, Work(tok), tok, q, ttl); }
  }

  lemma FreeToEnterAnswers(s: State, tok: nat, ttl: int)
    requires Enabled(s, Enter(tok))
    ensures CanAnswer(s, tok, s.flights[tok].q, ttl)
  {
    var q, t := s.flights[tok].q, Take(s, Enter(tok), ttl);
    if Lookup(s.cache, q, q.again, ttl).Some? {
      assert AnswersIn(0, t, tok, q, ttl);
    } else {
      HolderAnswers(t, tok, ttl);
    }
    AnswersAfter(s, Enter(tok), tok, q, ttl);
  }

  lemma BehindWorkerAnswers(s: State, tok: nat, other: nat, ttl: int)
    requires Exclusive(s) && tok in s.flights && s.flights[tok].Waiting?
    requires Holds(s, other, s.flights[tok].q.url) && s.flights[other].Working?
    ensures CanAnswer(s, tok, s.flights[tok].q, ttl)
  {
    var q, t := s.flights[tok].q, Take(s, Store(other), ttl);
    forall u | u in t.flights ensures !Holds(t, u, q.url) {
      assert u in s.flights && u != other && (Holds(t, u, q.url) <==> Holds(s, u, q.url));
    }
    FreeToEnterAnswers(t, tok, ttl);
    AnswersAfter(s, Store(other), tok, q, ttl);
  }

  lemma WorkKeepsExclusive(s: State, tok: nat, ttl: int)
    requires Exclusive(s) && Enabled(s, Work(tok))
    ensures Exclusive(Take(s, Work(tok), ttl))
  {
    var t := Take(s, Work(tok), ttl);
    assert forall u, url :: Holds(t, u, url) <==> Holds(s, u, url);
  }

  /** Whatever others are doing, a resolve under way can always be answered. */
  lemma FlightCanAnswer(s: State, tok: nat, ttl: int)
    requires Exclusive(s) && tok in s.flights
    ensures CanAnswer(s, tok, s.flights[tok].q, ttl)
  {
    var q := s.flights[tok].q;
    if !s.flights[tok].Waiting? {
      HolderAnswers(s, tok, ttl);
    } else if other :| other in s.flights && Holds(s, other, q.url) {
      if s.flights[other].Working? {
        BehindWorkerAnswers(s, tok, other, ttl);
      } else {
        WorkKeepsExclusive(s, other, ttl);
        BehindWorkerAnswers(Take(s, Work(other), ttl), tok, other, ttl);
        AnswersAfter(s, Work(other), tok, q, ttl);
      }
    } else {
      FreeToEnterAnswers(s, tok, ttl);
    }
  }

  /** A resolve is answered at once from the table, or it is under way and can be answered. */
  lemma EveryResolveAnswers(s: State, tok: nat, q: Query, ttl: int)
    requires Inv(s, ttl) && tok !in s.flights
    ensures
      var t := Take(s, Start(tok, q), ttl);
      || (|t.log| == |s.log| + 1 && t.log[|s.log|].q == q && t.flights == s.flights)
      || (tok in t.flights && t.flights[tok].q == q && CanAnswer(t, tok, q, ttl))
  {
    var t := Take(s, Start(tok, q), ttl);
    StepKeepsFlights(s, Start(tok, q), ttl);
    if tok in t.flights { FlightCanAnswer(t, tok, ttl); }
  }
}
