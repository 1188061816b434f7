/** The cache of marketplace plugin sources: one entry per repository URL, scanned plugin by
    plugin as configurations ask for them. */
module MarketplaceCache {

  import opened Options

  const FAILED_TTL := 60

  datatype Source = Source(path: string, pluginName: string, root: string)

  datatype Sources = Sources(skills: seq<Source>, agents: seq<Source>)

  /** What a checkout holds for a plugin; a plugin without a readable manifest is an error. */
  datatype PluginDir = PluginDir(manifest: bool, skills: Option<string>, agents: Option<string>,
      commands: Option<string>)

  /** The checkout's path and its plugin directories by name. */
  datatype Repo = Repo(path: string, plugins: map<string, PluginDir>)

  function OneSource(dir: Option<string>, plugin: string, repo: Repo): seq<Source> {
    if dir.None? then [] else [Source(dir.value, plugin, repo.path)]
  }

  /** The sources of one plugin, agents falling back to commands; `None` is an error. */
  function ProcessPlugin(repo: Repo, plugin: string): Option<Sources> {
    if plugin !in repo.plugins || !repo.plugins[plugin].manifest then None
    else
      var d := repo.plugins[plugin];
      Some(Sources(OneSource(d.skills, plugin, repo),
        OneSource(if d.agents.Some? then d.agents else d.commands, plugin, repo)))
  }

  function SourcesOf(repo: Repo, plugin: string): Sources {
    if ProcessPlugin(repo, plugin).None? then Sources([], []) else ProcessPlugin(repo, plugin).value
  }

  function Concat(a: Sources, b: Sources): Sources { Sources(a.skills + b.skills, a.agents + b.agents) }

  /** The direct scan: every requested plugin in turn, skipping those that fail. */
  function DirectScan(repo: Repo, plugins: seq<string>): Sources {
    if plugins == [] then Sources([], [])
    else Concat(DirectScan(repo, plugins[..|plugins| - 1]), SourcesOf(repo, plugins[|plugins| - 1]))
  }

  /** A cache entry; a failed resolve is remembered with its error. `repo` is the content that
      was pulled. */
  datatype Entry = Entry(found: Sources, scanned: set<string>, err: bool, lastPull: int, repo: Repo)

  ghost predicate SameSets(a: Sources, b: Sources) {
    && (forall x :: x in a.skills <==> x in b.skills)
    && (forall x :: x in a.agents <==> x in b.agents)
  }

  function TtlFor(e: Entry, ttl: int): int { if e.err && ttl > FAILED_TTL then FAILED_TTL else ttl }

  predicate Fresh(e: Entry, t: int, ttl: int) { t - e.lastPull < TtlFor(e, ttl) }

  predicate Covers(e: Entry, plugins: seq<string>) { forall i | 0 <= i < |plugins| :: plugins[i] in e.scanned }

  function Filter(s: seq<Source>, wanted: seq<string>): seq<Source> {
    if s == [] then []
    else Filter(s[..|s| - 1], wanted) + (if s[|s| - 1].pluginName in wanted then [s[|s| - 1]] else [])
  }

  function FilterByPlugins(e: Entry, plugins: seq<string>): Sources {
    Sources(Filter(e.found.skills, plugins), Filter(e.found.agents, plugins))
  }

  /** Scans the plugins not scanned yet and adds what they hold. */
  function ScanInto(e: Entry, plugins: seq<string>, repo: Repo): Entry {
    if plugins == [] then e
    else
      var f, p := ScanInto(e, plugins[..|plugins| - 1], repo), plugins[|plugins| - 1];
      if p in f.scanned then f
      else f.(scanned := f.scanned + {p}, found := Concat(f.found, SourcesOf(repo, p)))
  }

  /** One resolve: what is asked, the clock's readings (two lookups, reuse, pull, failure), whether
      the pull succeeds, and the checkout's content when plugins are read. */
  datatype Query = Query(
    url: string, plugins: seq<string>, look: int, again: int, reuse: int, pulled: int, failed: int, ok: bool,
      disk: Repo)

  datatype Answer = Found(sources: Sources) | Failed

  type Cache = map<string, Entry>

  /** A fresh entry's answer, or `None` when there is work to do. */
  function Lookup(cache: Cache, q: Query, t: int, ttl: int): Option<Answer> {
    if q.url !in cache || !Fresh(cache[q.url], t, ttl) then None
    else if cache[q.url].err then Some(Failed)
    else if !Covers(cache[q.url], q.plugins) then None
    else Some(Found(FilterByPlugins(cache[q.url], q.plugins)))
  }

  predicate Reusable(cache: Cache, q: Query, ttl: int) {
    q.url in cache && !cache[q.url].err && q.reuse - cache[q.url].lastPull < ttl
  }

  /** The entry a scan stores. */
  function Scanned(cache: Cache, q: Query, ttl: int): Entry {
    if Reusable(cache, q, ttl) then ScanInto(cache[q.url], q.plugins, q.disk)
    else if q.ok then ScanInto(Entry(Sources([], []), {}, false, q.pulled, q.disk), q.plugins, q.disk)
    else Entry(Sources([], []), {}, true, q.failed, q.disk)
  }

  function AnswerOf(cache: Cache, q: Query, ttl: int): Answer {
    if Lookup(cache, q, q.look, ttl).Some? then Lookup(cache, q, q.look, ttl).value
    else if Lookup(cache, q, q.again, ttl).Some? then Lookup(cache, q, q.again, ttl).value
    else if Scanned(cache, q, ttl).err then Failed
    else Found(FilterByPlugins(Scanned(cache, q, ttl), q.plugins))
  }

  function After(cache: Cache, q: Query, ttl: int): Cache {
    if Lookup(cache, q, q.look, ttl).Some? || Lookup(cache, q, q.again, ttl).Some? then cache
    else cache[q.url := Scanned(cache, q, ttl)]
  }

  // ----- the cached answer is the direct scan's -----

  /** The entry holds exactly the sources of the plugins it has scanned. */
  ghost predicate Agrees(e: Entry) {
    && (forall x :: x in e.found.skills <==> x.pluginName in e.scanned && x in SourcesOf(e.repo, x.pluginName).skills)
    && (forall x :: x in e.found.agents <==> x.pluginName in e.scanned && x in SourcesOf(e.repo, x.pluginName).agents)
  }

  lemma SourcesNameTheirPlugin(repo: Repo, p: string, x: Source)
    ensures x in SourcesOf(repo, p).skills || x in SourcesOf(repo, p).agents ==> x.pluginName == p
  {}

  lemma {:induction false} ScanAgrees(e: Entry, plugins: seq<string>)
    requires Agrees(e)
    ensures Agrees(ScanInto(e, plugins, e.repo))
    ensures ScanInto(e, plugins, e.repo).repo == e.repo && ScanInto(e, plugins, e.repo).lastPull == e.lastPull
    ensures ScanInto(e, plugins, e.repo).err == e.err
  {
    if plugins != [] {
      ScanAgrees(e, plugins[..|plugins| - 1]);
      var p := plugins[|plugins| - 1];
      forall x ensures x in SourcesOf(e.repo, p).skills || x in SourcesOf(e.repo, p).agents ==> x.pluginName == p {
        SourcesNameTheirPlugin(e.repo, p, x);
      }
    }
  }

  lemma {:induction false} ScanCovers(e: Entry, plugins: seq<string>, repo: Repo)
    ensures Covers(ScanInto(e, plugins, repo), plugins)
    ensures e.scanned <= ScanInto(e, plugins, repo).scanned
  {
    if plugins != [] {
      ScanCovers(e, plugins[..|plugins| - 1], repo);
      assert forall i | 0 <= i < |plugins| - 1 :: plugins[i] == plugins[..|plugins| - 1][i];
    }
  }

  lemma {:induction false} FilterHolds(s: seq<Source>, wanted: seq<string>, x: Source)
    ensures x in Filter(s, wanted) <==> x in s && x.pluginName in wanted
  {
    if s != [] {
      FilterHolds(s[..|s| - 1], wanted, x);
      assert s == s[..|s| - 1] + [s[|s| - 1]];
    }
  }

  lemma {:induction false} DirectHolds(repo: Repo, plugins: seq<string>, x: Source)
    ensures x in DirectScan(repo, plugins).skills
      <==> x.pluginName in plugins && x in SourcesOf(repo, x.pluginName).skills
    ensures x in DirectScan(repo, plugins).agents
      <==> x.pluginName in plugins && x in SourcesOf(repo, x.pluginName).agents
  {
    if plugins != [] {
      var p := plugins[|plugins| - 1];
      DirectHolds(repo, plugins[..|plugins| - 1], x);
      SourcesNameTheirPlugin(repo, p, x);
      assert plugins == plugins[..|plugins| - 1] + [p];
    }
  }

  /** An agreeing entry that covers the plugins answers with the sources of the direct scan. */
  lemma CoveredAnswerIsDirect(e: Entry, plugins: seq<string>)
    requires Agrees(e) && Covers(e, plugins)
    ensures SameSets(FilterByPlugins(e, plugins), DirectScan(e.repo, plugins))
  {
    forall x: Source
      ensures x in FilterByPlugins(e, plugins).skills <==> x in DirectScan(e.repo, plugins).skills
      ensures x in FilterByPlugins(e, plugins).agents <==> x in DirectScan(e.repo, plugins).agents
    {
      FilterHolds(e.found.skills, plugins, x);
      FilterHolds(e.found.agents, plugins, x);
      DirectHolds(e.repo, plugins, x);
    }
  }

  /** What the sources of some plugins of a checkout are, by what its directories hold: of every
      requested plugin that has a manifest its skills directory, and its agents directory or, when
      there is none, its commands directory, each named after its plugin and rooted in the checkout. */
  ghost predicate AreSourcesOf(a: Sources, repo: Repo, plugins: seq<string>) {
    && (forall x :: x in a.skills <==>
          && x.pluginName in plugins && x.pluginName in repo.plugins && repo.plugins[x.pluginName].manifest
          && repo.plugins[x.pluginName].skills == Some(x.path) && x.root == repo.path)
    && (forall x :: x in a.agents <==>
          && x.pluginName in plugins && x.pluginName in repo.plugins && repo.plugins[x.pluginName].manifest
          && (|| repo.plugins[x.pluginName].agents == Some(x.path)
              || (repo.plugins[x.pluginName].agents == None && repo.plugins[x.pluginName].commands == Some(x.path)))
          && x.root == repo.path)
  }

  /** A plugin directory's own sources. */
  lemma SourcesOfMeans(repo: Repo, p: string, x: Source)
    requires x.pluginName == p
    ensures x in SourcesOf(repo, p).skills <==>
      p in repo.plugins && repo.plugins[p].manifest && repo.plugins[p].skills == Some(x.path) && x.root == repo.path
    ensures x in SourcesOf(repo, p).agents <==>
      && p in repo.plugins && repo.plugins[p].manifest && x.root == repo.path
      && (|| repo.plugins[p].agents == Some(x.path)
          || (repo.plugins[p].agents == None && repo.plugins[p].commands == Some(x.path)))
  {}

  lemma SameAsDirectMeans(a: Sources, repo: Repo, plugins: seq<string>)
    requires SameSets(a, DirectScan(repo, plugins))
    ensures AreSourcesOf(a, repo, plugins)
  {
    forall x: Source
      ensures x in a.skills <==> x.pluginName in plugins && x in SourcesOf(repo, x.pluginName).skills
      ensures x in a.agents <==> x.pluginName in plugins && x in SourcesOf(repo, x.pluginName).agents
    {
      DirectHolds(repo, plugins, x);
    }
    forall x: Source {:trigger x in a.skills} ensures x in a.skills <==>
      && x.pluginName in plugins && x.pluginName in repo.plugins && repo.plugins[x.pluginName].manifest
      && repo.plugins[x.pluginName].skills == Some(x.path) && x.root == repo.path
    {
      SourcesOfMeans(repo, x.pluginName, x);
    }
    forall x: Source {:trigger x in a.agents} ensures x in a.agents <==>
      && x.pluginName in plugins && x.pluginName in repo.plugins && repo.plugins[x.pluginName].manifest
      && (|| repo.plugins[x.pluginName].agents == Some(x.path)
          || (repo.plugins[x.pluginName].agents == None && repo.plugins[x.pluginName].commands == Some(x.path)))
      && x.root == repo.path
    {
      SourcesOfMeans(repo, x.pluginName, x);
    }
  }

  ghost predicate Sound(cache: Cache) { forall u | u in cache :: Agrees(cache[u]) }

  /** The answer rests on an earlier pull rather than on one made for it. */
  predicate FromCache(cache: Cache, q: Query, ttl: int) {
    || Lookup(cache, q, q.look, ttl).Some? || Lookup(cache, q, q.again, ttl).Some?
    || Reusable(cache, q, ttl)
  }

  /** When the answer rests on an earlier pull, the checkout has not changed since. */
  predicate Unchanged(cache: Cache, q: Query, ttl: int) {
    FromCache(cache, q, ttl) && !cache[q.url].err ==> q.disk == cache[q.url].repo
  }

  lemma ScannedAgrees(cache: Cache, q: Query, ttl: int)
    requires Sound(cache) && Unchanged(cache, q, ttl)
    ensures Agrees(Scanned(cache, q, ttl))
    ensures !Scanned(cache, q, ttl).err
      ==> Scanned(cache, q, ttl).repo == q.disk && Covers(Scanned(cache, q, ttl), q.plugins)
  {
    if Reusable(cache, q, ttl) {
      ScanAgrees(cache[q.url], q.plugins);
      ScanCovers(cache[q.url], q.plugins, q.disk);
    } else if q.ok {
      var e := Entry(Sources([], []), {}, false, q.pulled, q.disk);
      ScanAgrees(e, q.plugins);
      ScanCovers(e, q.plugins, q.disk);
    }
  }

  /** One resolve keeps the cache sound and answers like the direct scan of the checkout. */
  lemma ResolveIsDirect(cache: Cache, q: Query, ttl: int)
    requires Sound(cache) && Unchanged(cache, q, ttl)
    ensures Sound(After(cache, q, ttl))
    ensures AnswerOf(cache, q, ttl).Found? ==> SameSets(AnswerOf(cache, q, ttl).sources, DirectScan(q.disk, q.plugins))
    ensures AnswerOf(cache, q, ttl).Found? ==> AreSourcesOf(AnswerOf(cache, q, ttl).sources, q.disk, q.plugins)
  {
    ResolveAgrees(cache, q, ttl);
    if AnswerOf(cache, q, ttl).Found? { SameAsDirectMeans(AnswerOf(cache, q, ttl).sources, q.disk, q.plugins); }
  }

  lemma ResolveAgrees(cache: Cache, q: Query, ttl: int)
    requires Sound(cache) && Unchanged(cache, q, ttl)
    ensures Sound(After(cache, q, ttl))
    ensures AnswerOf(cache, q, ttl).Found? ==> SameSets(AnswerOf(cache, q, ttl).sources, DirectScan(q.disk, q.plugins))
  {
    ScannedAgrees(cache, q, ttl);
    if Lookup(cache, q, q.look, ttl).Some? || Lookup(cache, q, q.again, ttl).Some? {
      if !cache[q.url].err { CoveredAnswerIsDirect(cache[q.url], q.plugins); }
    } else if !Scanned(cache, q, ttl).err {
      CoveredAnswerIsDirect(Scanned(cache, q, ttl), q.plugins);
    }
  }

  // ----- any sequence of resolves -----

  function AfterAll(qs: seq<Query>, ttl: int): Cache {
    if qs == [] then map[] else After(AfterAll(qs[..|qs| - 1], ttl), qs[|qs| - 1], ttl)
  }

  /** At every resolve of the sequence that rests on an earlier pull the contents are still those. */
  ghost predicate Steady(qs: seq<Query>, ttl: int) {
    forall i | 0 <= i < |qs| :: Unchanged(AfterAll(qs[..i], ttl), qs[i], ttl)
  }

  lemma {:induction false} CacheAgreesWithDirect(qs: seq<Query>, ttl: int)
    requires Steady(qs, ttl)
    ensures Sound(AfterAll(qs, ttl))
    ensures qs != [] ==>
      var q := qs[|qs| - 1];
      var a := AnswerOf(AfterAll(qs[..|qs| - 1], ttl), q, ttl);
      a.Found? ==> SameSets(a.sources, DirectScan(q.disk, q.plugins)) && AreSourcesOf(a.sources, q.disk, q.plugins)
  {
    if qs != [] {
      var n := |qs| - 1;
      assert Steady(qs[..n], ttl) by {
        forall i | 0 <= i < n ensures Unchanged(AfterAll(qs[..n][..i], ttl), qs[..n][i], ttl) {
          assert qs[..n][..i] == qs[..i];
        }
      }
      CacheAgreesWithDirect(qs[..n], ttl);
      ResolveIsDirect(AfterAll(qs[..n], ttl), qs[n], ttl);
    }
  }

  /** The pull behind a cached entry, by position in the sequence. */
  predicate PulledAt(qs: seq<Query>, i: nat, e: Entry, ttl: int) {
    && i < |qs|
    && (if e.err then !qs[i].ok && e.lastPull == qs[i].failed else qs[i].ok && e.lastPull == qs[i].pulled)
  }

  lemma {:induction false} ScanKeepsPull(e: Entry, plugins: seq<string>, repo: Repo)
    ensures ScanInto(e, plugins, repo).lastPull == e.lastPull && ScanInto(e, plugins, repo).err == e.err
  {
    if plugins != [] { ScanKeepsPull(e, plugins[..|plugins| - 1], repo); }
  }

  /** Re-scanning never renews an entry: its age is counted from an actual pull of its URL. */
  lemma {:induction false} EntriesComeFromPulls(qs: seq<Query>, ttl: int, u: string) returns (i: nat)
    requires u in AfterAll(qs, ttl)
    ensures PulledAt(qs, i, AfterAll(qs, ttl)[u], ttl) && qs[i].url == u
  {
    var n := |qs| - 1;
    var q, before := qs[n], AfterAll(qs[..n], ttl);
    if u == q.url && After(before, q, ttl) != before && !Reusable(before, q, ttl) {
      ScanKeepsPull(Entry(Sources([], []), {}, false, q.pulled, q.disk), q.plugins, q.disk);
      i := n;
    } else {
      assert u in before;
      i := EntriesComeFromPulls(qs[..n], ttl, u);
      ScanKeepsPull(before[u], q.plugins, q.disk);
    }
  }

  /** The clock reading at which the answer was judged fresh. */
  function Judged(cache: Cache, q: Query, ttl: int): int {
    if Lookup(cache, q, q.look, ttl).Some? then q.look
    else if Lookup(cache, q, q.again, ttl).Some? then q.again
    else q.reuse
  }

  /** Every answer that rests on an earlier pull is within its time to live: a success came from a
      pull of that URL less than `ttl` before its reading, a remembered failure from one less than
      the shorter of `ttl` and a minute before. */
  lemma AnswersAreFresh(qs: seq<Query>, q: Query, ttl: int) returns (i: nat)
    requires FromCache(AfterAll(qs, ttl), q, ttl)
    ensures i < |qs| && qs[i].url == q.url
    ensures
      var cache := AfterAll(qs, ttl);
      var t := Judged(cache, q, ttl);
      if AnswerOf(cache, q, ttl).Failed?
      then !qs[i].ok && t - qs[i].failed < ttl && t - qs[i].failed < FAILED_TTL
      else qs[i].ok && t - qs[i].pulled < ttl
  {
    var cache := AfterAll(qs, ttl);
    i := EntriesComeFromPulls(qs, ttl, q.url);
    ScanKeepsPull(cache[q.url], q.plugins, q.disk);
  }

  // ----- what the cache is for: no second pull within the time to live -----

  predicate Subset(a: seq<string>, b: seq<string>) { forall i | 0 <= i < |a| :: a[i] in b }

  /** After a resolve that answered, one for the same URL and no more plugins, its first look within
      the time to live of the entry's pull, answers from the table: whatever the disk or the pull
      would say, and without changing the table. */
  lemma SecondResolveIsFree(cache: Cache, q: Query, r: Query, ttl: int)
    requires AnswerOf(cache, q, ttl).Found? && r.url == q.url && Subset(r.plugins, q.plugins)
    requires
      var e := After(cache, q, ttl)[q.url];
      r.look - e.lastPull < ttl
    ensures
      var now := After(cache, q, ttl);
      && After(now, r, ttl) == now && AnswerOf(now, r, ttl) == Found(FilterByPlugins(now[q.url], r.plugins))
  {
    if !Scanned(cache, q, ttl).err { ScannedCovers(cache, q, ttl); }
  }

  lemma ScannedCovers(cache: Cache, q: Query, ttl: int)
    requires !Scanned(cache, q, ttl).err
    ensures Covers(Scanned(cache, q, ttl), q.plugins)
  {
    if Reusable(cache, q, ttl) {
      ScanCovers(cache[q.url], q.plugins, q.disk);
    } else {
      ScanCovers(Entry(Sources([], []), {}, false, q.pulled, q.disk), q.plugins, q.disk);
    }
  }

  /** And after a failed pull, a resolve within the shorter of the time to live and a minute fails from
      the table, whatever it asks for. */
  lemma FailureIsRemembered(cache: Cache, q: Query, r: Query, ttl: int)
    requires AnswerOf(cache, q, ttl).Failed? && r.url == q.url
    requires
      var e := After(cache, q, ttl)[q.url];
      r.look - e.lastPull < ttl && r.look - e.lastPull < 60
    ensures
      var now := After(cache, q, ttl);
      After(now, r, ttl) == now && AnswerOf(now, r, ttl) == Failed
  {}

  /** A resolve that pulls stores the time of its pull; one that scans only more plugins of a fresh
      checkout keeps the old one. */
  lemma PullTimeIsKept(cache: Cache, q: Query, ttl: int)
    requires Lookup(cache, q, q.look, ttl).None? && Lookup(cache, q, q.again, ttl).None?
    ensures After(cache, q, ttl)[q.url].lastPull ==
      if q.url in cache && !cache[q.url].err && q.reuse - cache[q.url].lastPull < ttl then cache[q.url].lastPull
      else if q.ok then q.pulled else q.failed
  {
    if q.url in cache { ScanKeepsPull(cache[q.url], q.plugins, q.disk); }
    ScanKeepsPull(Entry(Sources([], []), {}, false, q.pulled, q.disk), q.plugins, q.disk);
  }

  // ----- the cache object -----

  /** An entry as it is kept: immutable once stored, a re-scan works on a clone. */
  class CacheEntry {
    var skills: seq<Source>
    var agents: seq<Source>
    var scanned: set<string>
    var err: bool
    const lastPull: int
    const repo: Repo

    function View(): Entry
      reads this
    {
      Entry(Sources(skills, agents), scanned, err, lastPull, repo)
    }

    constructor (err: bool, lastPull: int, repo: Repo)
      ensures View() == Entry(Sources([], []), {}, err, lastPull, repo)
    {
      this.skills, this.agents, this.scanned := [], [], {};
      this.err, this.lastPull, this.repo := err, lastPull, repo;
    }

    method Clone() returns (e: CacheEntry)
      ensures fresh(e) && e.View() == View()
    {
      e := new CacheEntry(err, lastPull, repo);
      e.skills, e.agents, e.scanned := skills, agents, scanned;
    }

    method CoversAll(plugins: seq<string>) returns (ok: bool)
      ensures ok == Covers(View(), plugins)
    {
      var i := 0;
      while i < |plugins|
        invariant 0 <= i <= |plugins| && forall j | 0 <= j < i :: plugins[j] in scanned
      {
        if plugins[i] !in scanned { return false; }
        i := i + 1;
      }
      ok := true;
    }

    method Wanted(plugins: seq<string>) returns (r: Sources)
      ensures r == FilterByPlugins(View(), plugins)
    {
      var s := Select(skills, plugins);
      var a := Select(agents, plugins);
      r := Sources(s, a);
    }

    static method Select(all: seq<Source>, plugins: seq<string>) returns (r: seq<Source>)
      ensures r == Filter(all, plugins)
    {
      r := [];
      var i := 0;
      while i < |all|
        invariant 0 <= i <= |all| && r == Filter(all[..i], plugins)
      {
        assert all[..i + 1][..i] == all[..i];
        if all[i].pluginName in plugins { r := r + [all[i]]; }
        i := i + 1;
      }
      assert all[..i] == all;
    }

    method ScanPlugins(plugins: seq<string>, disk: Repo)
      modifies this
      ensures View() == ScanInto(old(View()), plugins, disk)
    {
      var i := 0;
      while i < |plugins|
        invariant 0 <= i <= |plugins| && View() == ScanInto(old(View()), plugins[..i], disk)
      {
        assert plugins[..i + 1][..i] == plugins[..i];
        if plugins[i] !in scanned {
          scanned := scanned + {plugins[i]};
          var found := ProcessPlugin(disk, plugins[i]);
          if found.Some? {
            skills, agents := skills + found.value.skills, agents + found.value.agents;
          }
        }
        i := i + 1;
      }
      assert plugins[..i] == plugins;
    }
  }

  function ViewOf(entries: map<string, CacheEntry>): Cache
    reads entries.Values
  {
    map u | u in entries :: entries[u].View()
  }

  class MarketplaceStore {
    var entries: map<string, CacheEntry>
    const ttl: int

    constructor (ttl: int)
      ensures entries == map[] && this.ttl == ttl
    {
      entries, this.ttl := map[], ttl;
    }

    /** A fresh entry's answer. Nothing is changed. */
    method Look(q: Query, t: int) returns (a: Option<Answer>)
      ensures a == Lookup(ViewOf(entries), q, t, ttl)
    {
      if q.url !in entries { return None; }
      var e := entries[q.url];
      if t - e.lastPull >= (if e.err && ttl > FAILED_TTL then FAILED_TTL else ttl) { return None; }
      if e.err { return Some(Failed); }
      var covered := e.CoversAll(q.plugins);
      if !covered { return None; }
      var r := e.Wanted(q.plugins);
      a := Some(Found(r));
    }

    /** The entry to store, a new object: entries already stored are left as they are. */
    method Scan(q: Query) returns (e: CacheEntry)
      ensures fresh(e) && e.View() == Scanned(ViewOf(entries), q, ttl)
    {
      if q.url in entries && !entries[q.url].err && q.reuse - entries[q.url].lastPull < ttl {
        e := entries[q.url].Clone();
      } else if q.ok {
        e := new CacheEntry(false, q.pulled, q.disk);
      } else {
        e := new CacheEntry(true, q.failed, q.disk);
        return;
      }
      e.ScanPlugins(q.plugins, q.disk);
    }

    /** Two lookups around the URL's lock, then a scan. Only the table changes: by its frame no
        stored entry is ever mutated. */
    method Resolve(q: Query) returns (a: Answer)
      modifies `entries
      ensures a == AnswerOf(old(ViewOf(entries)), q, ttl)
      ensures ViewOf(entries) == After(old(ViewOf(entries)), q, ttl)
    {
      var hit := Look(q, q.look);
      if hit.Some? { return hit.value; }
      hit := Look(q, q.again);
      if hit.Some? { return hit.value; }
      var e := Scan(q);
      entries := entries[q.url := e];
      if e.err { return Failed; }
      var r := e.Wanted(q.plugins);
      a := Found(r);
    }
  }
}
