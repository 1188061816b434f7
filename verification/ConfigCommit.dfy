/** The crash protocol of a configuration change: backup, then marker, then config; at every
    boot a pending marker is resolved to keep, reject or roll back. */
module ConfigCommit {

  import opened Options
  import opened SortedNames

  type Doc = string

  const RETENTION := 20

  /** SHA-256 taken as injective; the empty string stands for a missing file. */
  datatype Hash = NoFile | Sha256(doc: Doc)

  datatype Pending = Pending(session: int, call: string, bak: Option<Name>, newHash: Hash)

  datatype Disk = Disk(config: Option<Doc>, marker: Option<Pending>, backups: map<Name, Doc>)

  datatype Verdict = Applied | Rejected | Crashed

  /** The plain backup write can tear: a failed one leaves the first `torn` characters, or what was
      there if it could not even open the file. */
  datatype BackupFate = Copied | ReadFails | WriteFails(torn: Option<nat>) | CrashesWriting(torn: Option<nat>)

  /** A temp-file-and-rename write either renamed or did not, whatever it reports: the
      directory sync comes after the rename. */
  datatype Fate = Written | FailsBefore | FailsAfter | CrashesBefore | CrashesAfter

  predicate Renamed(f: Fate) { f.Written? || f.FailsAfter? || f.CrashesAfter? }

  predicate Reports(f: Fate) { f.Written? }

  predicate Dies(f: Fate) { f.CrashesBefore? || f.CrashesAfter? }

  function HashOf(config: Option<Doc>): Hash { if config.None? then NoFile else Sha256(config.value) }

  function Newer(names: set<Name>, n: Name): set<Name> { set m | m in names && m > n }

  /** The files pruning may delete: those with `RETENTION` newer ones. */
  function Prunable(names: set<Name>): set<Name> { set n | n in names && |Newer(names, n)| >= RETENTION }

  /** A call of `Commit`: its arguments and what the file system does to each write. `kept` are
      the prunable files whose removal failed or was not reached. */
  datatype Apply = Apply(
    doc: Doc, session: int, call: string, stamp: Name,
    backup: BackupFate, marker: Fate, config: Fate, kept: set<Name>, diesPruning: bool)

  function Put(backups: map<Name, Doc>, n: Name, d: Option<Doc>): map<Name, Doc> {
    if d.None? then backups else backups[n := d.value]
  }

  function Prefix(doc: Doc, torn: Option<nat>): Option<Doc> {
    if torn.None? then None else Some(if torn.value < |doc| then doc[..torn.value] else doc)
  }

  /** What a backup of `doc` writes under its name, if it writes at all. */
  function LeftOf(doc: Doc, f: BackupFate): Option<Doc> {
    match f
    case Copied => Some(doc)
    case ReadFails => None
    case WriteFails(torn) => Prefix(doc, torn)
    case CrashesWriting(torn) => Prefix(doc, torn)
  }

  function AfterBackup(d: Disk, a: Apply): Disk {
    if d.config.None? then d else d.(backups := Put(d.backups, a.stamp, LeftOf(d.config.value, a.backup)))
  }

  predicate BackupOk(d: Disk, a: Apply) { d.config.None? || a.backup.Copied? }

  function MarkerOf(d: Disk, a: Apply): Pending {
    Pending(a.session, a.call, if d.config.None? then None else Some(a.stamp), Sha256(a.doc))
  }

  function AfterMarker(d: Disk, a: Apply): Disk {
    var b := AfterBackup(d, a);
    if BackupOk(d, a) && Renamed(a.marker) then b.(marker := Some(MarkerOf(d, a))) else b
  }

  function AfterConfig(d: Disk, a: Apply): Disk {
    var m := AfterMarker(d, a);
    if BackupOk(d, a) && Reports(a.marker) && Renamed(a.config) then m.(config := Some(a.doc)) else m
  }

  function Committed(d: Disk, a: Apply): Disk {
    var c := AfterConfig(d, a);
    if BackupOk(d, a) && Reports(a.marker) && Reports(a.config)
    then c.(backups := c.backups - (Prunable(c.backups.Keys) - a.kept)) else c
  }

  function VerdictOf(d: Disk, a: Apply): Verdict {
    if d.config.Some? && a.backup.CrashesWriting? then Crashed
    else if !BackupOk(d, a) then Rejected
    else if Dies(a.marker) then Crashed
    else if !Reports(a.marker) then Rejected
    else if Dies(a.config) then Crashed
    else if !Reports(a.config) then Rejected
    else if a.diesPruning then Crashed
    else Applied
  }

  /** One boot: whether the marker and the config can be read, whether startup validation passes
      before and after a rollback, the rollback write's fate, and whether the verdict lands. */
  datatype Boot = Boot(
    markerReadable: bool, configReadable: bool, starts: bool, rollback: Fate, startsAgain: bool, delivered: bool)

  /** What the boot tells the waiting session, if it gets that far. */
  datatype Outcome = Silent | Told(verdict: Verdict, rolledBack: bool)

  predicate MustRollBack(d: Disk, b: Boot) {
    b.markerReadable && d.marker.Some? && b.configReadable && HashOf(d.config) == d.marker.value.newHash && !b.starts
  }

  /** The document a rollback restores: `None` removes the file; a missing backup is an error. */
  predicate CanRestore(d: Disk) {
    d.marker.Some? && (d.marker.value.bak.Some? ==> d.marker.value.bak.value in d.backups)
  }

  function Restored(d: Disk): Option<Doc>
    requires CanRestore(d)
  {
    if d.marker.value.bak.None? then None else Some(d.backups[d.marker.value.bak.value])
  }

  /** Whether the rollback takes effect: a rename may and then report failure, the removal of a
      first config does not. */
  predicate TakesEffect(p: Pending, f: Fate) { if p.bak.None? then f.Written? || f.CrashesAfter? else Renamed(f) }

  function AfterRollback(d: Disk, b: Boot): Disk {
    if MustRollBack(d, b) && CanRestore(d) && TakesEffect(d.marker.value, b.rollback) then d.(config := Restored(d))
      else d
  }

  function OutcomeOf(d: Disk, b: Boot): Outcome {
    if !b.markerReadable || d.marker.None? || !b.configReadable then Silent
    else if HashOf(d.config) != d.marker.value.newHash then Told(Rejected, false)
    else if b.starts then Told(Applied, false)
    else if CanRestore(d) && Reports(b.rollback) then Told(Rejected, true)
    else Silent
  }

  /** The daemon comes up on whatever configuration the boot ends with. */
  predicate ComesUp(d: Disk, b: Boot) {
    if d.marker.None? then b.markerReadable && b.starts
    else OutcomeOf(d, b).Told? && (if OutcomeOf(d, b).rolledBack then b.startsAgain else b.starts)
  }

  function Booted(d: Disk, b: Boot): Disk {
    var r := AfterRollback(d, b);
    if ComesUp(d, b) && d.marker.Some? && b.delivered then r.(marker := None) else r
  }

  /** The disk after a series of boots. */
  function AfterBoots(d: Disk, boots: seq<Boot>): Disk {
    if boots == [] then d else Booted(AfterBoots(d, boots[..|boots| - 1]), boots[|boots| - 1])
  }

  predicate Undelivered(boots: seq<Boot>) { forall i | 0 <= i < |boots| :: !boots[i].delivered }

  // ----- where boots can lead from any disk -----

  /** Where failing boots lead: back to what the marker names, if it is about the config on disk
      and its way back exists; otherwise nowhere else. */
  function Target(d: Disk): Option<Doc> {
    if d.marker.Some? && HashOf(d.config) == d.marker.value.newHash && CanRestore(d) then Restored(d) else d.config
  }

  /** Boots that deliver nothing keep marker and backups, and the config they leave is the one
      they found or the target; without a marker nothing changes at all. */
  lemma {:induction false} BootsLeadToTarget(d: Disk, boots: seq<Boot>)
    requires Undelivered(boots)
    ensures
      var now := AfterBoots(d, boots);
      && now.marker == d.marker && now.backups == d.backups
      && (now.config == d.config || now.config == Target(d))
      && (d.marker.None? ==> now == d)
  {
    if boots != [] { BootsLeadToTarget(d, boots[..|boots| - 1]); }
  }

  // ----- the theorem: an apply is atomic across crashes and boots -----

  /** The apply of `doc` over `prior` is pending: its marker names it, and a way back that still
      exists leads to `prior`. */
  predicate InForce(d: Disk, prior: Option<Doc>, doc: Doc) {
    && d.marker.Some? && d.marker.value.newHash == Sha256(doc)
    && (d.config == prior || d.config == Some(doc))
    && (CanRestore(d) ==> Restored(d) == prior)
  }

  lemma PendingThroughBoots(d: Disk, prior: Option<Doc>, doc: Doc, boots: seq<Boot>)
    requires InForce(d, prior, doc) && Undelivered(boots)
    ensures InForce(AfterBoots(d, boots), prior, doc)
    ensures AfterBoots(d, boots).marker == d.marker && AfterBoots(d, boots).backups == d.backups
  {
    BootsLeadToTarget(d, boots);
  }

  /** A rollback is final: as long as no boot delivers, every boot leaves the whole disk as it is. */
  lemma RolledBackForGood(d: Disk, prior: Option<Doc>, doc: Doc, boots: seq<Boot>)
    requires InForce(d, prior, doc) && d.config == prior != Some(doc) && Undelivered(boots)
    ensures AfterBoots(d, boots) == d
  {
    BootsLeadToTarget(d, boots);
  }

  /** The apply got as far as its marker's rename. */
  predicate Marked(d: Disk, a: Apply) { BackupOk(d, a) && Renamed(a.marker) }

  /** The backup the marker will name is out of pruning's reach: fewer than `RETENTION`
      existing backups sort after it. */
  predicate StampSafe(d: Disk, stamp: Name) { |Newer(d.backups.Keys, stamp)| < RETENTION }

  lemma NewerIgnoresSelf(names: set<Name>, n: Name)
    ensures Newer(names + {n}, n) == Newer(names, n)
  {}

  /** Before its marker is durable an apply has changed nothing but backups; from then on it is
      in force, with its way back intact unless pruning took it. */
  lemma CommitIsAllOrPending(d: Disk, a: Apply)
    ensures
      var d' := Committed(d, a);
      if Marked(d, a) then InForce(d', d.config, a.doc) && d'.marker == Some(MarkerOf(d, a))
      else d' == AfterBackup(d, a) && d'.config == d.config && d'.marker == d.marker
    ensures Marked(d, a) && StampSafe(d, a.stamp) ==> CanRestore(Committed(d, a))
    ensures VerdictOf(d, a).Applied? ==> Committed(d, a).config == Some(a.doc) && Marked(d, a)
  {
    var c := AfterConfig(d, a);
    if d.config.Some? && BackupOk(d, a) {
      assert c.backups == d.backups[a.stamp := d.config.value];
      assert c.backups.Keys == d.backups.Keys + {a.stamp};
      NewerIgnoresSelf(d.backups.Keys, a.stamp);
      assert StampSafe(d, a.stamp) ==> a.stamp !in Prunable(c.backups.Keys);
    }
  }

  /** Told applied: exactly when the candidate is on disk after the boot and started. Told rejected
      otherwise, with the rollback mentioned exactly when this boot changed the config. Told nothing:
      exactly when a file could not be read, or the candidate failed and could not be undone. */
  predicate TellsTheTruth(now: Disk, next: Boot, after: Disk, doc: Doc) {
    match OutcomeOf(now, next)
    case Told(verdict, rolledBack) =>
      && verdict == (if after.config == Some(doc) && next.starts then Applied else Rejected)
      && (rolledBack <==> after.config != now.config)
      && next.markerReadable && next.configReadable
      && (now.config == Some(doc) && !next.starts ==> CanRestore(now) && next.rollback.Written?)
    case Silent =>
      || !next.markerReadable || !next.configReadable
      || (now.config == Some(doc) && !next.starts && !(CanRestore(now) && next.rollback.Written?))
  }

  /** The daemon is up exactly when the session was told and the config on disk started; the marker
      goes exactly when the verdict then lands, and nothing else does. */
  predicate LeavesNoMore(now: Disk, next: Boot, after: Disk, doc: Doc) {
    var up := OutcomeOf(now, next).Told? && (if after.config == now.config then next.starts else next.startsAgain);
    && ComesUp(now, next) == up
    && after.marker == (if up && next.delivered then None else now.marker)
    && after.backups == now.backups
  }

  /** What a boot on `now` promises about an apply of `doc` over `prior` whose marker is durable. */
  predicate AtomicAt(now: Disk, next: Boot, prior: Option<Doc>, doc: Doc) {
    var after := Booted(now, next);
    // whatever fails, the config is one of the two documents, before the boot and after it
    && (now.config == prior || now.config == Some(doc))
    && (after.config == prior || after.config == Some(doc))
    // what the boot tells the session and what it leaves is so
    && (prior != Some(doc) ==> TellsTheTruth(now, next, after, doc) && LeavesNoMore(now, next, after, doc))
    // a rollback is final: the boot rejects again and writes nothing
    && (now.config == prior != Some(doc) ==>
          AfterRollback(now, next) == now
            && (OutcomeOf(now, next).Told? ==> OutcomeOf(now, next) == Told(Rejected, false)))
    // a boot that fails on the candidate returns to the old document exactly when that exists
    && (MustRollBack(now, next) && TakesEffect(now.marker.value, next.rollback)
      ==> (after.config == prior <==> CanRestore(now) || prior == Some(doc)))
  }

  lemma BootOfPendingApply(d: Disk, prior: Option<Doc>, doc: Doc, b: Boot)
    requires InForce(d, prior, doc)
    ensures AtomicAt(d, b, prior, doc)
  {}

  /** For every crash point of `Commit` and any number of undelivered boots after it. Before the
      marker's rename, torn and failed backups included, the marker is the one that was there; on
      a disk without one no boot changes anything and the config is the old document, and with an
      older apply pending the config is that or where the older apply leads. From the rename on
      the apply is atomic, and its way back exists if pruning cannot have reached it. */
  lemma ApplyIsAtomicAcrossCrashes(d: Disk, a: Apply, boots: seq<Boot>, next: Boot)
    requires Undelivered(boots)
    ensures
      var now := AfterBoots(Committed(d, a), boots);
      if Marked(d, a) then
        && now.marker == Some(Pending(a.session, a.call, if d.config.None? then None else Some(a.stamp), Sha256(a.doc)))
        && AtomicAt(now, next, d.config, a.doc)
        && (StampSafe(d, a.stamp) ==> CanRestore(now))
      else
        && now.marker == d.marker
        && (now.config == d.config || now.config == LeadsTo(d, a))
        && (d.marker.None? ==> now == Committed(d, a) && now.config == d.config && Booted(now, next) == now)
        && (d.marker.None? ==> OutcomeOf(now, next).Silent?)
        && (d.marker.None? ==> ComesUp(now, next) == (next.markerReadable && next.starts))
  {
    CommitIsAllOrPending(d, a);
    BackupMovesTarget(d, a);
    BootsLeadToTarget(Committed(d, a), boots);
    if Marked(d, a) {
      PendingThroughBoots(Committed(d, a), d.config, a.doc, boots);
      BootOfPendingApply(AfterBoots(Committed(d, a), boots), d.config, a.doc, next);
    }
  }

  // ----- an older apply still pending -----

  /** Two disks that differ in their backups only, with the same target, boot alike. */
  lemma {:induction false} SameTargetBootsAlike(d: Disk, e: Disk, boots: seq<Boot>)
    requires Undelivered(boots) && e.config == d.config && e.marker == d.marker && Target(e) == Target(d)
    ensures AfterBoots(e, boots).config == AfterBoots(d, boots).config
  {
    if boots != [] {
      var before := boots[..|boots| - 1];
      SameTargetBootsAlike(d, e, before);
      BootsLeadToTarget(d, before);
      BootsLeadToTarget(e, before);
    }
  }

  /** The apply still pending is about the config on disk, and its way back has this name. */
  predicate PendingUnder(d: Disk, stamp: Name) {
    && d.marker.Some? && d.marker.value.bak == Some(stamp)
    && d.config.Some? && HashOf(d.config) == d.marker.value.newHash
  }

  /** Where failing boots led from under that name: to what it holds, or nowhere. */
  function Held(d: Disk, stamp: Name): Doc
    requires d.config.Some?
  {
    if stamp in d.backups then d.backups[stamp] else d.config.value
  }

  /** The apply writes something else over the older apply's way back. */
  predicate Overwrites(d: Disk, a: Apply) {
    && PendingUnder(d, a.stamp)
    && LeftOf(d.config.value, a.backup).Some? && LeftOf(d.config.value, a.backup).value != Held(d, a.stamp)
  }

  /** Where failing boots lead once the backup is attempted, by what was there before it. */
  function LeadsTo(d: Disk, a: Apply): Option<Doc> {
    if Overwrites(d, a) then LeftOf(d.config.value, a.backup) else Target(d)
  }

  lemma BackupMovesTarget(d: Disk, a: Apply)
    ensures Target(AfterBackup(d, a)) == LeadsTo(d, a)
    ensures Overwrites(d, a) <==> LeadsTo(d, a) != Target(d)
  {}

  /** An apply that dies before its marker leaves every series of undelivered boots as it would
      have been, if and only if it does not write something else over the older apply's way back:
      another name, a marker about another config, or the same text do no harm. */
  lemma OlderApplyUndisturbedExactlyWhenNotOverwritten(d: Disk, a: Apply)
    requires !Marked(d, a)
    ensures
      (forall boots | Undelivered(boots) :: AfterBoots(Committed(d, a), boots).config == AfterBoots(d, boots).config)
      <==> !Overwrites(d, a)
  {
    CommitIsAllOrPending(d, a);
    BackupMovesTarget(d, a);
    var e := Committed(d, a);
    if Overwrites(d, a) {
      var b := Boot(true, true, false, Written, true, false);
      OneBoot(d, b);
      OneBoot(e, b);
      assert Undelivered([b]);
    } else {
      forall boots | Undelivered(boots) ensures AfterBoots(e, boots).config == AfterBoots(d, boots).config {
        SameTargetBootsAlike(d, e, boots);
      }
    }
  }

  /** A boot on which startup fails and the rollback write succeeds reaches the target. */
  lemma OneBoot(d: Disk, b: Boot)
    requires b == Boot(true, true, false, Written, true, false)
    ensures AfterBoots(d, [b]).config == Target(d)
  {
    assert [b][..0] == [];
    assert AfterBoots(d, []) == d;
  }

  /** Some apply stamped so can die before its marker and disturb the older one. */
  ghost predicate CanDisturb(d: Disk, stamp: Name) {
    exists a: Apply :: a.stamp == stamp && !Marked(d, a) && Overwrites(d, a)
  }

  /** Before the call: a stamp is dangerous if and only if the pending apply's way back has that
      name, unless both the config and what the name holds are empty. */
  lemma StampIsDangerousExactlyWhenPendingUnderIt(d: Disk, stamp: Name)
    ensures CanDisturb(d, stamp) <==> PendingUnder(d, stamp) && (d.config.value != "" || Held(d, stamp) != "")
  {
    if PendingUnder(d, stamp) && (d.config.value != "" || Held(d, stamp) != "") {
      var n := if Held(d, stamp) == "" then |d.config.value| else 0;
      var a := Apply("", 0, "", stamp, WriteFails(Some(n)), Written, Written, {}, false);
      assert a.stamp == stamp && !Marked(d, a) && Overwrites(d, a);
    }
  }

  /** Two applies in the same second disturb, whether the second dies tearing its backup or fails
      with a whole copy in place: the way back to "old" then leads to "n", or stays at "new". */
  lemma SameSecondDisturbs()
    ensures
      var d := Disk(Some("new"), Some(Pending(1, "call", Some(7), Sha256("new"))), map[7 := "old"]);
      var torn := Apply("newer", 1, "call", 7, CrashesWriting(Some(1)), Written, Written, {}, false);
      var whole := Apply("newer", 1, "call", 7, Copied, FailsBefore, Written, {}, false);
      && Target(d) == Some("old")
      && !Marked(d, torn) && Overwrites(d, torn) && Target(Committed(d, torn)) == Some("n")
      && !Marked(d, whole) && Overwrites(d, whole) && Target(Committed(d, whole)) == Some("new")
  {
    assert "new"[..1] == "n" && |"old"| == 3 && "old"[0] == 'o';
  }

  /** The way back exists after an applied commit if and only if pruning spared it: exactly when
      fewer than `RETENTION` earlier backups carry a later name, or its removal failed. */
  lemma BackupSurvivesExactlyWhenNewest(d: Disk, a: Apply)
    requires d.config.Some? && VerdictOf(d, a).Applied?
    ensures CanRestore(Committed(d, a)) <==> StampSafe(d, a.stamp) || a.stamp in a.kept
    ensures CanRestore(Committed(d, a)) ==> Restored(Committed(d, a)) == d.config
  {
    var c := AfterConfig(d, a);
    assert c.backups.Keys == d.backups.Keys + {a.stamp};
    NewerIgnoresSelf(d.backups.Keys, a.stamp);
  }

  function Upto(n: nat): map<Name, Doc> { if n == 0 then map[] else Upto(n - 1)[n := ""] }

  lemma {:induction false} UptoNames(n: nat)
    ensures forall k :: k in Upto(n) <==> 1 <= k <= n
    ensures |Upto(n).Keys| == n
  {
    if n > 0 {
      UptoNames(n - 1);
      assert Upto(n).Keys == Upto(n - 1).Keys + {n};
    }
  }

  /** A clock that fell behind twenty backups makes an applied change lose its way back: a boot
      that fails on it stays on it and cannot come up. */
  lemma ClockBehindLosesTheWayBack()
    ensures exists d: Disk, a: Apply, b: Boot ::
      && VerdictOf(d, a).Applied? && MustRollBack(Committed(d, a), b) && b.rollback.Written?
      && Booted(Committed(d, a), b).config == Some(a.doc) && !ComesUp(Committed(d, a), b)
  {
    var n: nat := RETENTION;
    var d, a := Disk(Some("old"), None, Upto(n)), Apply("new", 1, "call", 0, Copied, Written, Written, {}, false);
    AllLater(n);
    BackupSurvivesExactlyWhenNewest(d, a);
    var b := Boot(true, true, false, Written, true, false);
    StuckOnCandidate(Committed(d, a), a.doc, b);
  }

  lemma AllLater(n: nat)
    ensures |Newer(Upto(n).Keys, 0)| == n
  {
    UptoNames(n);
    assert Newer(Upto(n).Keys, 0) == Upto(n).Keys;
  }

  /** A failing boot on a candidate whose way back is gone stays on it and does not come up. */
  lemma StuckOnCandidate(d: Disk, doc: Doc, b: Boot)
    requires d.config == Some(doc) && d.marker.Some? && d.marker.value.newHash == Sha256(doc) && !CanRestore(d)
    requires b.markerReadable && b.configReadable && !b.starts
    ensures MustRollBack(d, b) && Booted(d, b).config == Some(doc) && !ComesUp(d, b)
  {}

  /** The candidate was renamed into place and only the directory sync after it failed. */
  predicate OnlySyncFailed(d: Disk, a: Apply) { BackupOk(d, a) && Reports(a.marker) && a.config.FailsAfter? }

  /** Some series of undelivered boots ends with the daemon up on the apply's candidate. */
  ghost predicate CanRun(d: Disk, a: Apply) {
    exists boots: seq<Boot>, b: Boot :: Undelivered(boots) && RunsOn(AfterBoots(Committed(d, a), boots), b, a.doc)
  }

  predicate RunsOn(d: Disk, b: Boot, doc: Doc) { ComesUp(d, b) && Booted(d, b).config == Some(doc) }

  /** A rejection is meant to persist nothing. After one, a daemon can come up on the candidate if
      and only if just the sync after its rename failed, or the apply never got to its marker and
      an older one still pending leads to that very document. */
  lemma RejectedRunsExactlyWhenOnlySyncFailed(d: Disk, a: Apply)
    requires VerdictOf(d, a).Rejected? && d.config != Some(a.doc)
    ensures CanRun(d, a) <==> OnlySyncFailed(d, a) || (!Marked(d, a) && LeadsTo(d, a) == Some(a.doc))
  {
    CommitIsAllOrPending(d, a);
    BackupMovesTarget(d, a);
    var c := Committed(d, a);
    if OnlySyncFailed(d, a) {
      assert AfterBoots(c, []) == c && RunsOn(c, Boot(true, true, true, Written, true, false), a.doc);
    } else if !Marked(d, a) && Target(c) == Some(a.doc) {
      assert AfterBoots(c, []) == c && RunsOn(c, Boot(true, true, false, Written, true, false), a.doc);
    } else if CanRun(d, a) {
      var boots: seq<Boot>, b: Boot :| Undelivered(boots) && RunsOn(AfterBoots(c, boots), b, a.doc);
      NeverReached(c, boots, b, a.doc);
      assert false;
    }
  }

  lemma NeverReached(d: Disk, boots: seq<Boot>, b: Boot, doc: Doc)
    requires Undelivered(boots) && d.config != Some(doc) && Target(d) != Some(doc)
    ensures Booted(AfterBoots(d, boots), b).config != Some(doc)
  {
    BootsLeadToTarget(d, boots);
  }

  /** The input that shows it: a rejected apply whose candidate a later boot runs on. */
  lemma RejectedYetLive()
    ensures exists d: Disk, a: Apply :: VerdictOf(d, a).Rejected? && d.config != Some(a.doc) && CanRun(d, a)
  {
    var d := Disk(Some("old"), None, map[]);
    var a := Apply("new", 1, "call", 0, Copied, Written, FailsAfter, {}, false);
    RejectedRunsExactlyWhenOnlySyncFailed(d, a);
  }

  /** A call that returns says applied exactly when the candidate is on disk, but for a failed sync. */
  lemma CommitTellsTheTruth(d: Disk, a: Apply)
    requires !VerdictOf(d, a).Crashed? && d.config != Some(a.doc)
    ensures VerdictOf(d, a).Applied? <==> Committed(d, a).config == Some(a.doc) && !OnlySyncFailed(d, a)
    ensures VerdictOf(d, a).Rejected? && !OnlySyncFailed(d, a) ==> Committed(d, a).config == d.config
  {}

  // ----- the files, written in place -----

  /** In a sorted listing the prunable files are exactly all but the last `RETENTION`. */
  lemma PrunableByPosition(order: seq<Name>, i: nat)
    requires Ascending(order) && i < |order|
    ensures order[i] in Prunable(NamesIn(order)) <==> i < |order| - RETENTION
  {
    assert Newer(NamesIn(order), order[i]) == NamesIn(order[i + 1..]) by {
      forall n | n in Newer(NamesIn(order), order[i]) ensures n in order[i + 1..] {
        var j :| 0 <= j < |order| && order[j] == n;
        assert n == order[i + 1..][j - i - 1];
      }
    }
    CountAfter(order[i + 1..]);
  }

  function Overflow(order: seq<Name>): nat { if |order| > RETENTION then |order| - RETENTION else 0 }

  lemma PrunableIsThePrefix(order: seq<Name>)
    requires Ascending(order)
    ensures Prunable(NamesIn(order)) == NamesIn(order[..Overflow(order)])
  {
    var cut := Overflow(order);
    forall n ensures n in Prunable(NamesIn(order)) <==> n in order[..cut] {
      if n in order {
        var k :| 0 <= k < |order| && order[k] == n;
        PrunableByPosition(order, k);
        if k < cut { assert order[..cut][k] == n; }
      }
    }
  }

  class ConfigDir {
    var config: Option<Doc>
    var marker: Option<Pending>
    var backups: map<Name, Doc>

    function View(): Disk
      reads this
    {
      Disk(config, marker, backups)
    }

    /** Copies the config aside; a missing one needs no copy. */
    method BackupConfig(a: Apply) returns (ok: bool, bak: Option<Name>)
      modifies `backups
      ensures View() == AfterBackup(old(View()), a)
      ensures ok == BackupOk(old(View()), a) && (ok ==> bak == MarkerOf(old(View()), a).bak)
    {
      ok, bak := true, None;
      if config.Some? {
        match a.backup {
          case Copied => bak := Some(a.stamp); backups := backups[a.stamp := config.value];
          case ReadFails => ok := false;
          case WriteFails(torn) => ok := false; backups := Put(backups, a.stamp, Prefix(config.value, torn));
          case CrashesWriting(torn) => ok := false; backups := Put(backups, a.stamp, Prefix(config.value, torn));
        }
      }
    }

    /** Keeps the newest `RETENTION` backups: exactly the files with at least that many newer
        ones go, but for those whose removal fails. */
    method PruneBackups(kept: set<Name>)
      modifies `backups
      ensures backups == old(backups) - (Prunable(old(backups).Keys) - kept)
    {
      var order := Sorted(backups.Keys);
      var i := 0;
      while i < |order| - RETENTION
        invariant 0 <= i <= Overflow(order)
        invariant backups == old(backups) - (NamesIn(order[..i]) - kept)
      {
        assert order[..i + 1] == order[..i] + [order[i]];
        NamesInAppend(order[..i], order[i]);
        if order[i] !in kept { backups := backups - {order[i]}; }
        i := i + 1;
      }
      PrunableIsThePrefix(order);
    }

    /** Backup, then marker, then config; a failure of one writes none of the later ones. */
    method Commit(a: Apply) returns (v: Verdict)
      modifies this
      ensures View() == Committed(old(View()), a)
      ensures v == VerdictOf(old(View()), a)
    {
      var hadConfig := config.Some?;
      var ok, bak := BackupConfig(a);
      if !ok { return if hadConfig && a.backup.CrashesWriting? then Crashed else Rejected; }
      if Renamed(a.marker) { marker := Some(Pending(a.session, a.call, bak, Sha256(a.doc))); }
      if !Reports(a.marker) { return if Dies(a.marker) then Crashed else Rejected; }
      if Renamed(a.config) { config := Some(a.doc); }
      if !Reports(a.config) { return if Dies(a.config) then Crashed else Rejected; }
      PruneBackups(a.kept);
      v := if a.diesPruning then Crashed else Applied;
    }

    /** Puts back what the marker names: its backup, or no file at all. */
    method Rollback(p: Pending, fate: Fate) returns (ok: bool)
      requires marker == Some(p)
      modifies `config
      ensures config == if CanRestore(old(View())) && TakesEffect(p, fate) then Restored(old(View())) else old(config)
      ensures ok == (CanRestore(old(View())) && Reports(fate))
    {
      if p.bak.None? {
        if fate.Written? || fate.CrashesAfter? { config := None; }
        return Reports(fate);
      }
      if p.bak.value !in backups { return false; }
      if Renamed(fate) { config := Some(backups[p.bak.value]); }
      ok := Reports(fate);
    }

    /** What a boot makes of the marker it loaded. The marker itself stays. */
    method ResolvePending(p: Pending, b: Boot) returns (out: Outcome)
      requires marker == Some(p) && b.markerReadable
      modifies `config
      ensures View() == AfterRollback(old(View()), b)
      ensures out == OutcomeOf(old(View()), b)
    {
      if !b.configReadable { return Silent; }
      if HashOf(config) != p.newHash { return Told(Rejected, false); }
      if b.starts { return Told(Applied, false); }
      var ok := Rollback(p, b.rollback);
      out := if ok then Told(Rejected, true) else Silent;
    }

    /** Removes the marker `p` came from, and no other. */
    method ClearPending(p: Pending)
      modifies `marker
      ensures marker == if old(marker) == Some(p) then None else old(marker)
    {
      if marker == Some(p) { marker := None; }
    }

    /** One whole boot; `up` says whether the daemon came up. */
    method BootDaemon(b: Boot) returns (up: bool)
      modifies this
      ensures View() == Booted(old(View()), b)
      ensures up == ComesUp(old(View()), b)
    {
      if !b.markerReadable { return false; }
      var pending := marker;
      if pending.None? { return b.starts; }
      var out := ResolvePending(pending.value, b);
      if out.Silent? { return false; }
      up := if out.rolledBack then b.startsAgain else b.starts;
      if up && b.delivered { ClearPending(pending.value); }
    }
  }
}
